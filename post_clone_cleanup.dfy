/**
 * post-clone-cleanup.rb: for every project, target the namespaces named
 * `<project>-...`, then list their contents, scale their running deployments to
 * zero, suspend their active cronjobs and delete their backup schedules, each
 * batch behind its own confirmation prompt.
 */
module PostCloneCleanup {
  import opened Wrappers
  import opened Enumerable
  import opened RubyString
  import opened Namespaces
  import opened Runner

  /** A deployment as `kubectl get deployments.apps -A -o json` describes it. */
  datatype Deployment = Deployment(namespace: string, name: string, replicas: int)

  /** A cronjob; `spec.suspend` left unset reads as not suspended. */
  datatype CronJob = CronJob(namespace: string, name: string, suspend: bool)

  /** A `schedules.backup.appuio.ch` object. */
  datatype Schedule = Schedule(namespace: string, name: string)

  /** What the script loads from the cluster before it looks at any project. */
  datatype Inventory = Inventory(
    namespaces: seq<string>,
    deployments: seq<Deployment>,
    cronjobs: seq<CronJob>,
    schedules: seq<Schedule>)

  /** `namespaces.grep(/^namespace\/#{project}-/)`: the namespaces of the project's environments. */
  function Targets(namespaces: seq<string>, project: string): seq<string>
  {
    Grep(namespaces, project + "-")
  }

  /**
   * The targeted namespaces are exactly the listed entries that start with
   * `namespace/<project>-`, each as often as listed, in listing order.
   */
  lemma TargetsExact(namespaces: seq<string>, more: seq<string>, project: string)
    ensures forall e :: e in Targets(namespaces, project) <==>
                        e in namespaces && StartsWith(e, ResourcePrefix + project + "-")
    ensures forall e :: multiset(Targets(namespaces, project))[e] ==
                        if StartsWith(e, ResourcePrefix + project + "-") then multiset(namespaces)[e] else 0
    ensures Targets(namespaces + more, project) == Targets(namespaces, project) + Targets(more, project)
  {
    GrepExact(namespaces, more, project + "-");
    assert ResourcePrefix + (project + "-") == ResourcePrefix + project + "-";
  }

  /** `['kubectl', '-n', <name>, 'get', 'all,pvc']` for each targeted namespace. */
  function ListCmds(targets: seq<string>): (r: seq<Command>)
    ensures |r| == |targets|
    ensures forall i :: 0 <= i < |targets| ==>
              |r[i]| == 5 && r[i][0] == "kubectl" && r[i][1] == "-n" && r[i][2] == Name(targets[i])
  {
    Map(targets, ns => ["kubectl", "-n", Name(ns), "get", "all,pvc"])
  }

  /**
   * The shape of the three per-namespace plans: for each targeted namespace in
   * order, the inventory items of that namespace that are `wanted`, in inventory
   * order, each turned into a command by `mk`; then `flatten(1)`.
   */
  function PerNamespace<R(!new)>(targets: seq<string>, items: seq<R>,
                                 wanted: (string, R) -> bool, mk: (string, R) -> Command): seq<Command>
  {
    Flatten(Map(targets, ns => Block(ns, items, wanted, mk)))
  }

  /** The commands for one targeted namespace: its wanted items, in inventory order. */
  function Block<R(!new)>(ns: string, items: seq<R>,
                          wanted: (string, R) -> bool, mk: (string, R) -> Command): seq<Command>
  {
    Map(Select(items, x => wanted(Name(ns), x)), x => mk(Name(ns), x))
  }

  /** Every planned command is made from a wanted item for some targeted namespace. */
  lemma PerNamespaceSource<R(!new)>(targets: seq<string>, items: seq<R>,
                                    wanted: (string, R) -> bool, mk: (string, R) -> Command, cmd: Command)
    returns (ns: string, x: R)
    requires cmd in PerNamespace(targets, items, wanted, mk)
    ensures ns in targets && x in items && wanted(Name(ns), x) && cmd == mk(Name(ns), x)
  {
    var block := n => Block(n, items, wanted, mk);
    var b :| b in Map(targets, block) && cmd in b;
    MapMember(targets, block, b);
    ns :| ns in targets && b == block(ns);
    var keep := y => wanted(Name(ns), y);
    var make := y => mk(Name(ns), y);
    assert b == Map(Select(items, keep), make);
    MapMember(Select(items, keep), make, cmd);
    x :| x in Select(items, keep) && cmd == make(x);
  }

  /** Every wanted item of every targeted namespace gets its command. */
  lemma PerNamespaceComplete<R(!new)>(targets: seq<string>, items: seq<R>,
                                      wanted: (string, R) -> bool, mk: (string, R) -> Command, ns: string, x: R)
    requires ns in targets && x in items && wanted(Name(ns), x)
    ensures mk(Name(ns), x) in PerNamespace(targets, items, wanted, mk)
  {
    var block := n => Block(n, items, wanted, mk);
    var keep := y => wanted(Name(ns), y);
    var make := y => mk(Name(ns), y);
    assert x in Select(items, keep);
    MapMember(Select(items, keep), make, mk(Name(ns), x));
    assert mk(Name(ns), x) in block(ns);
    MapMember(targets, block, block(ns));
  }

  /**
   * Plans are ordered by targeted namespace first: planning for two target lists
   * one after the other plans each in turn.
   */
  lemma {:induction false} PerNamespaceByTarget<R(!new)>(targets: seq<string>, more: seq<string>, items: seq<R>,
                                                         wanted: (string, R) -> bool, mk: (string, R) -> Command)
    ensures PerNamespace(targets + more, items, wanted, mk) ==
            PerNamespace(targets, items, wanted, mk) + PerNamespace(more, items, wanted, mk)
  {
    var block := ns => Block(ns, items, wanted, mk);
    MapAppend(targets, more, block);
    FlattenAppend(Map(targets, block), Map(more, block));
  }

  /**
   * Within one namespace, plans follow inventory order: planning for two inventories
   * one after the other plans each in turn, and a single item gives its command
   * exactly when it is wanted in that namespace.
   */
  lemma {:induction false} PerNamespaceByItem<R(!new)>(ns: string, items: seq<R>, more: seq<R>, x: R,
                                                       wanted: (string, R) -> bool, mk: (string, R) -> Command)
    ensures PerNamespace([ns], items + more, wanted, mk) ==
            PerNamespace([ns], items, wanted, mk) + PerNamespace([ns], more, wanted, mk)
    ensures PerNamespace([ns], [x], wanted, mk) == if wanted(Name(ns), x) then [mk(Name(ns), x)] else []
  {
    var keep := y => wanted(Name(ns), y);
    var make := y => mk(Name(ns), y);
    forall its: seq<R> ensures PerNamespace([ns], its, wanted, mk) == Map(Select(its, keep), make) {
      var block := n => Block(n, its, wanted, mk);
      assert Map([ns], block) == [block(ns)];
      assert Flatten([block(ns)]) == block(ns) + Flatten([]);
    }
    SelectAppend(items, more, keep);
    MapAppend(Select(items, keep), Select(more, keep), make);
    assert Select([x], keep) == (if keep(x) then [x] else []) + Select([], keep);
  }

  /** `['kubectl', '-n', <name>, 'scale', 'deployment', <deployment>, '--replicas=0']`. */
  function ScaleCommand(namespace: string, name: string): Command
  {
    ["kubectl", "-n", namespace, "scale", "deployment", name, "--replicas=0"]
  }

  /** A scale command works in the namespace it was made for. */
  lemma ScaleCommandNamespace(namespace: string, name: string)
    ensures |ScaleCommand(namespace, name)| == 7
    ensures ScaleCommand(namespace, name)[1] == "-n" && ScaleCommand(namespace, name)[2] == namespace
  {
  }

  /** The scale-down plan: every deployment with replicas above zero in a targeted namespace. */
  function ScaleDownCmds(targets: seq<string>, deployments: seq<Deployment>): seq<Command>
  {
    PerNamespace(targets, deployments,
                 (n, d: Deployment) => d.namespace == n && d.replicas > 0,
                 (n, d: Deployment) => ScaleCommand(n, d.name))
  }

  /**
   * A scale-down command is planned exactly for the deployments that run at least one
   * replica in a targeted namespace, and every planned command ends in `--replicas=0`.
   */
  lemma ScaleDownPlan(targets: seq<string>, deployments: seq<Deployment>, cmd: Command)
    ensures cmd in ScaleDownCmds(targets, deployments) <==>
            exists d :: d in deployments && d.replicas > 0 && d.namespace in Names(targets)
                        && cmd == ScaleCommand(d.namespace, d.name)
    ensures cmd in ScaleDownCmds(targets, deployments) ==> cmd[|cmd| - 1] == "--replicas=0"
  {
    var wanted := (n, d: Deployment) => d.namespace == n && d.replicas > 0;
    var mk := (n, d: Deployment) => ScaleCommand(n, d.name);
    if cmd in ScaleDownCmds(targets, deployments) {
      var ns, d := PerNamespaceSource(targets, deployments, wanted, mk, cmd);
      NamesMember(targets, d.namespace);
    }
    if exists d :: d in deployments && d.replicas > 0 && d.namespace in Names(targets)
                   && cmd == ScaleCommand(d.namespace, d.name) {
      var d :| d in deployments && d.replicas > 0 && d.namespace in Names(targets)
               && cmd == ScaleCommand(d.namespace, d.name);
      NamesMember(targets, d.namespace);
      var ns :| ns in targets && Name(ns) == d.namespace;
      PerNamespaceComplete(targets, deployments, wanted, mk, ns, d);
    }
  }

  /** The patch that suspends a cronjob. */
  const SuspendPatch := "{\"spec\" : {\"suspend\" : true }}"

  /** `['kubectl', '-n', <name>, 'patch', 'cronjob', <cronjob>, '-p', <patch>]`. */
  function SuspendCommand(namespace: string, name: string): Command
  {
    ["kubectl", "-n", namespace, "patch", "cronjob", name, "-p", SuspendPatch]
  }

  /** A suspend command works in the namespace it was made for. */
  lemma SuspendCommandNamespace(namespace: string, name: string)
    ensures |SuspendCommand(namespace, name)| == 8
    ensures SuspendCommand(namespace, name)[1] == "-n" && SuspendCommand(namespace, name)[2] == namespace
  {
  }

  /** The suspend plan: every cronjob not yet suspended in a targeted namespace. */
  function SuspendCmds(targets: seq<string>, cronjobs: seq<CronJob>): seq<Command>
  {
    PerNamespace(targets, cronjobs,
                 (n, c: CronJob) => c.namespace == n && !c.suspend,
                 (n, c: CronJob) => SuspendCommand(n, c.name))
  }

  /** A suspend patch is planned exactly for the active cronjobs of the targeted namespaces. */
  lemma SuspendPlan(targets: seq<string>, cronjobs: seq<CronJob>, cmd: Command)
    ensures cmd in SuspendCmds(targets, cronjobs) <==>
            exists c :: c in cronjobs && !c.suspend && c.namespace in Names(targets)
                        && cmd == SuspendCommand(c.namespace, c.name)
  {
    var wanted := (n, c: CronJob) => c.namespace == n && !c.suspend;
    var mk := (n, c: CronJob) => SuspendCommand(n, c.name);
    if cmd in SuspendCmds(targets, cronjobs) {
      var ns, c := PerNamespaceSource(targets, cronjobs, wanted, mk, cmd);
      NamesMember(targets, c.namespace);
    }
    if exists c :: c in cronjobs && !c.suspend && c.namespace in Names(targets)
                   && cmd == SuspendCommand(c.namespace, c.name) {
      var c :| c in cronjobs && !c.suspend && c.namespace in Names(targets)
               && cmd == SuspendCommand(c.namespace, c.name);
      NamesMember(targets, c.namespace);
      var ns :| ns in targets && Name(ns) == c.namespace;
      PerNamespaceComplete(targets, cronjobs, wanted, mk, ns, c);
    }
  }

  /**
   * A cronjob that is already suspended is never patched, as long as no other
   * cronjob shares its namespace and name (the cluster keeps these unique).
   */
  lemma SuspendedNeverPatched(targets: seq<string>, cronjobs: seq<CronJob>, c: CronJob)
    requires c in cronjobs && c.suspend
    requires forall c' :: c' in cronjobs && c'.namespace == c.namespace && c'.name == c.name ==> c' == c
    ensures SuspendCommand(c.namespace, c.name) !in SuspendCmds(targets, cronjobs)
  {
    SuspendPlan(targets, cronjobs, SuspendCommand(c.namespace, c.name));
  }

  /** `['kubectl', '-n', <name>, 'delete', 'schedules.backup.appuio.ch', <schedule>]`. */
  function DeleteCommand(namespace: string, name: string): Command
  {
    ["kubectl", "-n", namespace, "delete", "schedules.backup.appuio.ch", name]
  }

  /** A delete command works in the namespace it was made for. */
  lemma DeleteCommandNamespace(namespace: string, name: string)
    ensures |DeleteCommand(namespace, name)| == 6
    ensures DeleteCommand(namespace, name)[1] == "-n" && DeleteCommand(namespace, name)[2] == namespace
  {
  }

  /** The schedule-delete plan: every backup schedule in a targeted namespace. */
  function ScheduleDeleteCmds(targets: seq<string>, schedules: seq<Schedule>): seq<Command>
  {
    PerNamespace(targets, schedules,
                 (n, s: Schedule) => s.namespace == n,
                 (n, s: Schedule) => DeleteCommand(n, s.name))
  }

  /**
   * Every backup schedule of a targeted namespace gets a delete command, and every
   * planned delete names a schedule of a targeted namespace; nothing outside them is touched.
   */
  lemma ScheduleDeletePlan(targets: seq<string>, schedules: seq<Schedule>, cmd: Command)
    ensures cmd in ScheduleDeleteCmds(targets, schedules) <==>
            exists s :: s in schedules && s.namespace in Names(targets) && cmd == DeleteCommand(s.namespace, s.name)
    ensures cmd in ScheduleDeleteCmds(targets, schedules) ==> cmd[2] in Names(targets)
  {
    var wanted := (n, s: Schedule) => s.namespace == n;
    var mk := (n, s: Schedule) => DeleteCommand(n, s.name);
    if cmd in ScheduleDeleteCmds(targets, schedules) {
      var ns, s := PerNamespaceSource(targets, schedules, wanted, mk, cmd);
      NamesMember(targets, s.namespace);
      assert cmd == DeleteCommand(Name(ns), s.name);
      DeleteCommandNamespace(Name(ns), s.name);
    }
    if exists s :: s in schedules && s.namespace in Names(targets) && cmd == DeleteCommand(s.namespace, s.name) {
      var s :| s in schedules && s.namespace in Names(targets) && cmd == DeleteCommand(s.namespace, s.name);
      NamesMember(targets, s.namespace);
      var ns :| ns in targets && Name(ns) == s.namespace;
      PerNamespaceComplete(targets, schedules, wanted, mk, ns, s);
    }
  }

  /** A name among the targeted namespaces' names is a listed namespace of the project. */
  lemma TargetName(namespaces: seq<string>, project: string, n: string)
    requires n in Names(Targets(namespaces, project))
    ensures ResourcePrefix + n in namespaces && StartsWith(n, project + "-")
  {
    NamesMember(Targets(namespaces, project), n);
    var e :| e in Targets(namespaces, project) && Name(e) == n;
    GrepNames(namespaces, project + "-", e);
  }

  /** The four batches one project gets, in the order the script runs them. */
  function ProjectBatches(inv: Inventory, project: string): seq<seq<Command>>
  {
    var targets := Targets(inv.namespaces, project);
    [ListCmds(targets),
     ScaleDownCmds(targets, inv.deployments),
     SuspendCmds(targets, inv.cronjobs),
     ScheduleDeleteCmds(targets, inv.schedules)]
  }

  /**
   * Every command planned for a project works in one namespace (`-n <name>`), and that
   * namespace is listed in the cluster and named `<project>-...`.
   */
  lemma ProjectScope(inv: Inventory, project: string, cmd: Command)
    requires cmd in Flatten(ProjectBatches(inv, project))
    ensures |cmd| >= 3 && cmd[1] == "-n"
    ensures ResourcePrefix + cmd[2] in inv.namespaces && StartsWith(cmd[2], project + "-")
  {
    var targets := Targets(inv.namespaces, project);
    FlattenFour(ListCmds(targets), ScaleDownCmds(targets, inv.deployments),
                SuspendCmds(targets, inv.cronjobs), ScheduleDeleteCmds(targets, inv.schedules));
    if cmd in ListCmds(targets) {
      ListScope(inv.namespaces, project, cmd);
    } else if cmd in ScaleDownCmds(targets, inv.deployments) {
      ScaleDownScope(inv.namespaces, project, inv.deployments, cmd);
    } else if cmd in SuspendCmds(targets, inv.cronjobs) {
      SuspendScope(inv.namespaces, project, inv.cronjobs, cmd);
    } else {
      ScheduleDeleteScope(inv.namespaces, project, inv.schedules, cmd);
    }
  }

  /** A scale-down command names a listed namespace of the project. */
  lemma ScaleDownScope(namespaces: seq<string>, project: string, deployments: seq<Deployment>, cmd: Command)
    requires cmd in ScaleDownCmds(Targets(namespaces, project), deployments)
    ensures |cmd| >= 3 && cmd[1] == "-n"
    ensures ResourcePrefix + cmd[2] in namespaces && StartsWith(cmd[2], project + "-")
  {
    var targets := Targets(namespaces, project);
    var ns, d := PerNamespaceSource(targets, deployments,
                                    (n, d: Deployment) => d.namespace == n && d.replicas > 0,
                                    (n, d: Deployment) => ScaleCommand(n, d.name), cmd);
    assert cmd == ScaleCommand(Name(ns), d.name);
    ScaleCommandNamespace(Name(ns), d.name);
    GrepNames(namespaces, project + "-", ns);
  }

  /** A suspend command names a listed namespace of the project. */
  lemma SuspendScope(namespaces: seq<string>, project: string, cronjobs: seq<CronJob>, cmd: Command)
    requires cmd in SuspendCmds(Targets(namespaces, project), cronjobs)
    ensures |cmd| >= 3 && cmd[1] == "-n"
    ensures ResourcePrefix + cmd[2] in namespaces && StartsWith(cmd[2], project + "-")
  {
    var targets := Targets(namespaces, project);
    var ns, c := PerNamespaceSource(targets, cronjobs,
                                    (n, c: CronJob) => c.namespace == n && !c.suspend,
                                    (n, c: CronJob) => SuspendCommand(n, c.name), cmd);
    assert cmd == SuspendCommand(Name(ns), c.name);
    SuspendCommandNamespace(Name(ns), c.name);
    GrepNames(namespaces, project + "-", ns);
  }

  /** A schedule-delete command names a listed namespace of the project. */
  lemma ScheduleDeleteScope(namespaces: seq<string>, project: string, schedules: seq<Schedule>, cmd: Command)
    requires cmd in ScheduleDeleteCmds(Targets(namespaces, project), schedules)
    ensures |cmd| >= 3 && cmd[1] == "-n"
    ensures ResourcePrefix + cmd[2] in namespaces && StartsWith(cmd[2], project + "-")
  {
    var targets := Targets(namespaces, project);
    var ns, s := PerNamespaceSource(targets, schedules,
                                    (n, s: Schedule) => s.namespace == n,
                                    (n, s: Schedule) => DeleteCommand(n, s.name), cmd);
    assert cmd == DeleteCommand(Name(ns), s.name);
    DeleteCommandNamespace(Name(ns), s.name);
    GrepNames(namespaces, project + "-", ns);
  }

  /** A list command names a listed namespace of the project. */
  lemma ListScope(namespaces: seq<string>, project: string, cmd: Command)
    requires cmd in ListCmds(Targets(namespaces, project))
    ensures |cmd| >= 3 && cmd[1] == "-n"
    ensures ResourcePrefix + cmd[2] in namespaces && StartsWith(cmd[2], project + "-")
  {
    var targets := Targets(namespaces, project);
    var i :| 0 <= i < |targets| && ListCmds(targets)[i] == cmd;
    GrepNames(namespaces, project + "-", targets[i]);
  }

  /** The batches of the whole run, project by project. */
  function AllBatches(inv: Inventory, projects: seq<string>): seq<seq<Command>>
  {
    EachProject(projects, p => ProjectBatches(inv, p))
  }

  /**
   * Every command the script ever invokes works in a listed namespace named
   * `<project>-...` for one of the listed projects; no other namespace is touched.
   */
  lemma InvokedOnlyInProjectNamespaces(inv: Inventory, projects: seq<string>, input: seq<string>,
                                       ok: Command -> bool, cmd: Command)
    requires cmd in RunAll(AllBatches(inv, projects), input, ok).ran
    ensures |cmd| >= 3 && cmd[1] == "-n" && ResourcePrefix + cmd[2] in inv.namespaces
    ensures exists p :: p in projects && StartsWith(cmd[2], p + "-")
  {
    var batches := AllBatches(inv, projects);
    RunAllPrefix(batches, input, ok);
    assert cmd in Flatten(batches);
    var b :| b in batches && cmd in b;
    EachProjectMember(projects, p => ProjectBatches(inv, p), b);
    var p :| p in projects && b in ProjectBatches(inv, p);
    ProjectScope(inv, p, cmd);
  }

  /**
   * `safe_run_cmds`: announce the commands, or "nothing to do" when there are none;
   * prompt in either case; then run the commands in order until one fails.
   */
  method SafeRunCmds(cmds: seq<Command>, input: seq<string>, ok: Command -> bool)
    returns (notice: Notice, prompts: nat, run: Run)
    ensures notice == if cmds == [] then NothingToDo else RunCommands(cmds)
    ensures prompts >= 1
    ensures run == RunBatch(cmds, input, ok)
  {
    if cmds == [] {
      notice := NothingToDo;
    } else {
      notice := RunCommands(cmds);
    }
    var confirmed, rest;
    confirmed, rest, prompts := PromptToContinue(input);
    RunBatchAfterConfirm(cmds, input, ok);
    if !confirmed {
      return notice, prompts, Run([], InputClosed, rest);
    }
    var ran, outcome := RunEach(cmds, ok);
    ExecuteUpToFirstFailure(cmds, rest, ok);
    run := Run(ran, outcome, rest);
  }

  /**
   * One turn of the project loop once its four plans are made: list, scale down,
   * suspend, delete, stopping at the first batch that does not complete.
   */
  method CleanProject(list: seq<Command>, scale: seq<Command>, suspend: seq<Command>, delete: seq<Command>,
                      input: seq<string>, ok: Command -> bool) returns (run: Run)
    ensures run == RunAll([list, scale, suspend, delete], input, ok)
  {
    var _, _, r1 := SafeRunCmds(list, input, ok);
    assert RunAll([list, scale, suspend, delete], input, ok) ==
           if r1.outcome != Completed then r1 else Prepend(r1.ran, RunAll([scale, suspend, delete], r1.rest, ok)) by {
      RunAllCons(list, [scale, suspend, delete], input, ok);
    }
    if r1.outcome != Completed {
      return r1;
    }
    var _, _, r2 := SafeRunCmds(scale, r1.rest, ok);
    assert RunAll([scale, suspend, delete], r1.rest, ok) ==
           if r2.outcome != Completed then r2 else Prepend(r2.ran, RunAll([suspend, delete], r2.rest, ok)) by {
      RunAllCons(scale, [suspend, delete], r1.rest, ok);
    }
    if r2.outcome != Completed {
      return Prepend(r1.ran, r2);
    }
    var _, _, r3 := SafeRunCmds(suspend, r2.rest, ok);
    assert RunAll([suspend, delete], r2.rest, ok) ==
           if r3.outcome != Completed then r3 else Prepend(r3.ran, RunAll([delete], r3.rest, ok)) by {
      RunAllCons(suspend, [delete], r2.rest, ok);
    }
    if r3.outcome != Completed {
      PrependTwice(r1.ran, r2.ran, r3);
      return Prepend(r1.ran + r2.ran, r3);
    }
    var _, _, r4 := SafeRunCmds(delete, r3.rest, ok);
    assert RunAll([delete], r3.rest, ok) == r4 by {
      RunAllCons(delete, [], r3.rest, ok);
      assert [delete] == [delete] + [];
      if r4.outcome == Completed {
        assert r4.ran + [] == r4.ran;
      }
    }
    PrependTwice(r1.ran, r2.ran, Prepend(r3.ran, r4));
    PrependTwice(r1.ran + r2.ran, r3.ran, r4);
    run := Prepend(r1.ran + r2.ran + r3.ran, r4);
  }

  /**
   * The project loop: each project's four batches in turn, the whole script ending at
   * the first batch that does not complete. `plan` stands for the planning done at the
   * top of each turn (`ProjectBatches` in `Script`).
   */
  method CleanProjects(projects: seq<string>, plan: string -> seq<seq<Command>>, input: seq<string>,
                       ok: Command -> bool) returns (run: Run)
    requires forall p :: |plan(p)| == 4
    ensures run == RunAll(EachProject(projects, plan), input, ok)
  {
    var ran: seq<Command> := [];
    var rest := input;
    for i := 0 to |projects|
      invariant RunAll(EachProject(projects, plan), input, ok) ==
                Prepend(ran, RunAll(EachProject(projects[i..], plan), rest, ok))
    {
      var here := plan(projects[i]);
      var later := EachProject(projects[i + 1..], plan);
      assert EachProject(projects[i..], plan) == here + later by {
        EachProjectFrom(projects, plan, i);
      }
      var r := CleanProject(here[0], here[1], here[2], here[3], rest, ok);
      assert r == RunAll(here, rest, ok) by {
        assert here == [here[0], here[1], here[2], here[3]];
      }
      if r.outcome != Completed {
        assert RunAll(here + later, rest, ok) == r by {
          RunAllStops(here, later, rest, ok);
        }
        return Prepend(ran, r);
      }
      assert RunAll(here + later, rest, ok) == Prepend(r.ran, RunAll(later, r.rest, ok)) by {
        RunAllContinues(here, later, rest, ok);
      }
      PrependTwice(ran, r.ran, RunAll(later, r.rest, ok));
      ran := ran + r.ran;
      rest := r.rest;
    }
    assert projects[|projects|..] == [];
    assert ran + [] == ran;
    run := Run(ran, Completed, rest);
  }

  /** The cluster queries the script issues, in order; `None` when the query exits non-zero. */
  datatype Cluster = Cluster(
    context: Option<string>,
    namespaces: Option<seq<string>>,
    deployments: Option<seq<Deployment>>,
    cronjobs: Option<seq<CronJob>>,
    schedules: Option<seq<Schedule>>)

  /**
   * The script: without `-f` it exits with status 1 before any query; a failing query
   * exits with status 2 before any command; otherwise every project is cleaned, and the
   * script exits with 0 when every batch completed and 1 when an exception ended it.
   */
  method Script(file: Option<string>, cluster: Cluster, projects: seq<string>, input: seq<string>,
                ok: Command -> bool) returns (session: Session)
    ensures file.None? ==> session == Session(0, [], 1)
    ensures file.Some? && cluster.context.None? ==> session == Session(1, [], 2)
    ensures file.Some? && cluster.context.Some? && cluster.namespaces.None? ==> session == Session(2, [], 2)
    ensures file.Some? && cluster.context.Some? && cluster.namespaces.Some? && cluster.deployments.None? ==>
              session == Session(3, [], 2)
    ensures (file.Some? && cluster.context.Some? && cluster.namespaces.Some? && cluster.deployments.Some? &&
             cluster.cronjobs.None?) ==> session == Session(4, [], 2)
    ensures (file.Some? && cluster.context.Some? && cluster.namespaces.Some? && cluster.deployments.Some? &&
             cluster.cronjobs.Some? && cluster.schedules.None?) ==> session == Session(5, [], 2)
    ensures (file.Some? && cluster.context.Some? && cluster.namespaces.Some? && cluster.deployments.Some? &&
             cluster.cronjobs.Some? && cluster.schedules.Some?) ==>
              var inv := Inventory(cluster.namespaces.value, cluster.deployments.value,
                                   cluster.cronjobs.value, cluster.schedules.value);
              var r := RunAll(AllBatches(inv, projects), input, ok);
              session == Session(5, r.ran, ExitStatus(r.outcome))
  {
    if file.None? {
      return Session(0, [], 1);
    }
    if cluster.context.None? {
      return Session(1, [], 2);
    }
    if cluster.namespaces.None? {
      return Session(2, [], 2);
    }
    if cluster.deployments.None? {
      return Session(3, [], 2);
    }
    if cluster.cronjobs.None? {
      return Session(4, [], 2);
    }
    if cluster.schedules.None? {
      return Session(5, [], 2);
    }
    var inv := Inventory(cluster.namespaces.value, cluster.deployments.value,
                         cluster.cronjobs.value, cluster.schedules.value);
    var run := CleanProjects(projects, p => ProjectBatches(inv, p), input, ok);
    session := Session(5, run.ran, ExitStatus(run.outcome));
  }
}
