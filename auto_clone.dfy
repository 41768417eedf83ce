/**
 * auto-clone.rb: for every project, target the namespaces named `<project>...`
 * in the source cluster, then list their contents, clone each of them to the
 * destination cluster, point the Lagoon project at the destination openshift and
 * deploy every cloned environment, each batch behind its own confirmation prompt.
 */
module AutoClone {
  import opened Wrappers
  import opened Enumerable
  import opened RubyString
  import opened Namespaces
  import opened Runner
  import PostCloneCleanup

  /** `namespaces.grep(/^namespace\/#{project}/)`: unlike the cleanup script, no `-` is required. */
  function Targets(namespaces: seq<string>, project: string): seq<string>
  {
    Grep(namespaces, project)
  }

  /**
   * The targeted namespaces are exactly the listed entries that start with
   * `namespace/<project>`, each as often as listed, in listing order.
   */
  lemma TargetsExact(namespaces: seq<string>, more: seq<string>, project: string)
    ensures forall e :: e in Targets(namespaces, project) <==>
                        e in namespaces && StartsWith(e, ResourcePrefix + project)
    ensures forall e :: multiset(Targets(namespaces, project))[e] ==
                        if StartsWith(e, ResourcePrefix + project) then multiset(namespaces)[e] else 0
    ensures Targets(namespaces + more, project) == Targets(namespaces, project) + Targets(more, project)
  {
    GrepExact(namespaces, more, project);
  }

  /**
   * The names of the targeted namespaces are exactly the names `n` with a listed entry
   * `namespace/<n>` where `n` starts with the project.
   */
  lemma TargetNames(namespaces: seq<string>, project: string, n: string)
    ensures n in Names(Targets(namespaces, project)) <==>
            ResourcePrefix + n in namespaces && StartsWith(n, project)
  {
    NamesMember(Targets(namespaces, project), n);
    if n in Names(Targets(namespaces, project)) {
      var e :| e in Targets(namespaces, project) && Name(e) == n;
      GrepNames(namespaces, project, e);
    }
    if ResourcePrefix + n in namespaces && StartsWith(n, project) {
      var e := ResourcePrefix + n;
      DeletePrefixOfConcat(ResourcePrefix, n);
      StartsWithConcat(e, ResourcePrefix, project);
      assert e in Targets(namespaces, project);
    }
  }

  /**
   * Every namespace the cleanup script targets for a project is one this script
   * targeted for it: the cleanup targets are the clone targets that go on with `-`.
   */
  lemma CleanupTargetsCloned(namespaces: seq<string>, project: string)
    ensures PostCloneCleanup.Targets(namespaces, project) == Grep(Targets(namespaces, project), project + "-")
    ensures forall e :: e in PostCloneCleanup.Targets(namespaces, project) ==> e in Targets(namespaces, project)
  {
    GrepNarrow(namespaces, project, "-");
    GrepExact(Targets(namespaces, project), [], project + "-");
  }

  /**
   * An empty line in the project list is an empty project, whose pattern
   * `^namespace\/` targets every namespace of the source cluster.
   */
  lemma EmptyProjectTargetsAll(namespaces: seq<string>)
    requires forall e :: e in namespaces ==> StartsWith(e, ResourcePrefix)
    ensures Targets(namespaces, "") == namespaces
  {
    GrepEmptyPrefix(namespaces);
  }

  /** `['kubectl', '--context', <source>, '-n', <name>, 'get', 'all,pvc']`: the listing of one namespace. */
  function ListCommand(source: string, name: string): Command
  {
    ["kubectl", "--context", source, "-n", name, "get", "all,pvc"]
  }

  /** One list command per targeted namespace. */
  function ListCmds(source: string, targets: seq<string>): seq<Command>
  {
    Map(targets, ns => ListCommand(source, Name(ns)))
  }

  /** The clone of one namespace by `migrate-between-clusters.sh`, skipping its `-z` step. */
  function CloneCommand(dest: string, source: string, name: string): Command
  {
    ["./migrate-between-clusters.sh", "-z", "skip", "-d", dest, "-s", source, "-n", name]
  }

  /** One clone command per targeted namespace. */
  function CloneCmds(dest: string, source: string, targets: seq<string>): seq<Command>
  {
    Map(targets, ns => CloneCommand(dest, source, Name(ns)))
  }

  /** The `i`-th list and clone commands are about the `i`-th target. */
  lemma PlansAt(source: string, dest: string, targets: seq<string>, i: nat)
    requires i < |targets|
    ensures |ListCmds(source, targets)| == |targets| && |CloneCmds(dest, source, targets)| == |targets|
    ensures ListCmds(source, targets)[i] == ListCommand(source, Name(targets[i]))
    ensures CloneCmds(dest, source, targets)[i] == CloneCommand(dest, source, Name(targets[i]))
  {
  }

  /**
   * The list and clone plans go hand in hand: one command each per targeted namespace,
   * in the same order; the `i`-th of both is about the name of the `i`-th target, which
   * is that target with `namespace/` removed.
   */
  lemma ListAndClonePaired(namespaces: seq<string>, project: string, source: string, dest: string)
    ensures var targets := Targets(namespaces, project);
            |ListCmds(source, targets)| == |targets| && |CloneCmds(dest, source, targets)| == |targets|
    ensures var targets := Targets(namespaces, project);
            forall i :: 0 <= i < |targets| ==>
              ResourcePrefix + Name(targets[i]) == targets[i] &&
              ListCmds(source, targets)[i] == ListCommand(source, Name(targets[i])) &&
              CloneCmds(dest, source, targets)[i] == CloneCommand(dest, source, Name(targets[i]))
  {
    var targets := Targets(namespaces, project);
    forall i | 0 <= i < |targets|
      ensures ResourcePrefix + Name(targets[i]) == targets[i]
      ensures ListCmds(source, targets)[i] == ListCommand(source, Name(targets[i]))
      ensures CloneCmds(dest, source, targets)[i] == CloneCommand(dest, source, Name(targets[i]))
    {
      GrepNames(namespaces, project, targets[i]);
      PlansAt(source, dest, targets, i);
    }
  }

  /**
   * A namespace is cloned, from the source to the destination cluster, exactly when
   * the source cluster lists it and its name starts with the project.
   */
  lemma CloneCoversTargets(namespaces: seq<string>, project: string, source: string, dest: string, n: string)
    ensures CloneCommand(dest, source, n) in CloneCmds(dest, source, Targets(namespaces, project)) <==>
            ResourcePrefix + n in namespaces && StartsWith(n, project)
  {
    var targets := Targets(namespaces, project);
    var cmd := CloneCommand(dest, source, n);
    TargetNames(namespaces, project, n);
    if cmd in CloneCmds(dest, source, targets) {
      var i :| 0 <= i < |targets| && CloneCmds(dest, source, targets)[i] == cmd;
      PlansAt(source, dest, targets, i);
      assert cmd[8] == Name(targets[i]);
      NamesMember(targets, n);
    }
    if ResourcePrefix + n in namespaces && StartsWith(n, project) {
      NamesMember(targets, n);
      var e :| e in targets && Name(e) == n;
      CloneOf(source, dest, targets, e);
    }
  }

  /** Every target has its clone command. */
  lemma CloneOf(source: string, dest: string, targets: seq<string>, e: string)
    requires e in targets
    ensures CloneCommand(dest, source, Name(e)) in CloneCmds(dest, source, targets)
  {
    var i :| 0 <= i < |targets| && targets[i] == e;
    PlansAt(source, dest, targets, i);
  }

  /** `['lagoon', '-l', 'amazeeio', 'update', 'project', '--openshift', <id>, '--project', <project>]`. */
  function RetargetCommand(openshift: string, project: string): Command
  {
    ["lagoon", "-l", "amazeeio", "update", "project", "--openshift", openshift, "--project", project]
  }

  /** The environment one targeted namespace deploys as: `ns.delete_prefix("namespace/#{project}-")`. */
  function Environment(project: string, ns: string): string
  {
    DeletePrefix(ns, ResourcePrefix + project + "-")
  }

  /** `['lagoon', '-l', 'amazeeio', 'deploy', 'latest', '--project', <project>, '--force', '--environment', <env>]`. */
  function DeployCommand(project: string, environment: string): Command
  {
    ["lagoon", "-l", "amazeeio", "deploy", "latest", "--project", project, "--force", "--environment", environment]
  }

  /** One deploy per targeted namespace. */
  function DeployCmds(project: string, targets: seq<string>): seq<Command>
  {
    Map(targets, ns => DeployCommand(project, Environment(project, ns)))
  }

  /** The `i`-th deploy command deploys the environment of the `i`-th target. */
  lemma DeployAt(project: string, targets: seq<string>, i: nat)
    requires i < |targets|
    ensures |DeployCmds(project, targets)| == |targets|
    ensures DeployCmds(project, targets)[i] == DeployCommand(project, Environment(project, targets[i]))
  {
  }

  /**
   * A target named `<project>-<env>` deploys as environment `<env>`; any other target
   * (`namespace/<project>`, `namespace/<project>x...`) keeps its whole entry,
   * `namespace/` included, as the environment name.
   */
  lemma EnvironmentOf(namespaces: seq<string>, project: string, e: string)
    requires e in Targets(namespaces, project)
    ensures StartsWith(Name(e), project + "-") ==> project + "-" + Environment(project, e) == Name(e)
    ensures !StartsWith(Name(e), project + "-") ==> Environment(project, e) == e
  {
    GrepNames(namespaces, project, e);
    assert ResourcePrefix + project + "-" == ResourcePrefix + (project + "-");
    StartsWithConcat(e, ResourcePrefix, project + "-");
    DeletePrefixOfConcat(ResourcePrefix, Name(e));
    if StartsWith(Name(e), project + "-") {
      var env := Environment(project, e);
      assert ResourcePrefix + (project + "-" + env) == ResourcePrefix + Name(e);
      DeletePrefixOfConcat(ResourcePrefix, project + "-" + env);
    }
  }

  /**
   * The deploy plan has one command per targeted namespace, in order, each deploying
   * the latest build of the project, forced, to that target's environment.
   */
  lemma DeployPlan(namespaces: seq<string>, project: string)
    ensures |DeployCmds(project, Targets(namespaces, project))| == |Targets(namespaces, project)|
    ensures var targets := Targets(namespaces, project);
            forall i :: 0 <= i < |targets| ==>
              DeployCmds(project, targets)[i] == DeployCommand(project, Environment(project, targets[i])) &&
              (StartsWith(Name(targets[i]), project + "-") ==>
                 project + "-" + Environment(project, targets[i]) == Name(targets[i]))
  {
    var targets := Targets(namespaces, project);
    if targets != [] {
      DeployAt(project, targets, 0);
    }
    forall i | 0 <= i < |targets|
      ensures DeployCmds(project, targets)[i] == DeployCommand(project, Environment(project, targets[i]))
      ensures StartsWith(Name(targets[i]), project + "-") ==>
                project + "-" + Environment(project, targets[i]) == Name(targets[i])
    {
      DeployAt(project, targets, i);
      EnvironmentOf(namespaces, project, targets[i]);
    }
  }

  /** The four batches one project gets, in the order the script runs them. */
  function ProjectBatches(cfg: Config, namespaces: seq<string>, project: string): seq<seq<Command>>
  {
    var targets := Targets(namespaces, project);
    [ListCmds(cfg.source, targets),
     CloneCmds(cfg.dest, cfg.source, targets),
     [RetargetCommand(cfg.openshift, project)],
     DeployCmds(project, targets)]
  }

  /**
   * Exactly one retarget is planned per project, even when no namespace matched:
   * the project's commands hold its retarget command once.
   */
  lemma RetargetOncePerProject(cfg: Config, namespaces: seq<string>, project: string)
    ensures multiset(Flatten(ProjectBatches(cfg, namespaces, project)))[RetargetCommand(cfg.openshift, project)] == 1
  {
    var targets := Targets(namespaces, project);
    RetargetNotPerNamespace(cfg, targets, project);
    FlattenOnce(ListCmds(cfg.source, targets), CloneCmds(cfg.dest, cfg.source, targets),
                RetargetCommand(cfg.openshift, project), DeployCmds(project, targets));
  }

  /** No list, clone or deploy command is a retarget command. */
  lemma RetargetNotPerNamespace(cfg: Config, targets: seq<string>, project: string)
    ensures RetargetCommand(cfg.openshift, project) !in ListCmds(cfg.source, targets)
    ensures RetargetCommand(cfg.openshift, project) !in CloneCmds(cfg.dest, cfg.source, targets)
    ensures RetargetCommand(cfg.openshift, project) !in DeployCmds(project, targets)
  {
    RetargetNotListed(cfg, targets, project);
    RetargetNotCloned(cfg, targets, project);
    RetargetNotDeployed(cfg, targets, project);
  }

  /** No list command is a retarget command. */
  lemma RetargetNotListed(cfg: Config, targets: seq<string>, project: string)
    ensures RetargetCommand(cfg.openshift, project) !in ListCmds(cfg.source, targets)
  {
    forall i | 0 <= i < |targets| ensures ListCmds(cfg.source, targets)[i] != RetargetCommand(cfg.openshift, project) {
      PlansAt(cfg.source, cfg.dest, targets, i);
      RetargetDiffers(cfg, project, Name(targets[i]), "");
    }
  }

  /** No clone command is a retarget command. */
  lemma RetargetNotCloned(cfg: Config, targets: seq<string>, project: string)
    ensures RetargetCommand(cfg.openshift, project) !in CloneCmds(cfg.dest, cfg.source, targets)
  {
    forall i | 0 <= i < |targets| ensures CloneCmds(cfg.dest, cfg.source, targets)[i] != RetargetCommand(cfg.openshift, project) {
      PlansAt(cfg.source, cfg.dest, targets, i);
      RetargetDiffers(cfg, project, Name(targets[i]), "");
    }
  }

  /** No deploy command is a retarget command. */
  lemma RetargetNotDeployed(cfg: Config, targets: seq<string>, project: string)
    ensures RetargetCommand(cfg.openshift, project) !in DeployCmds(project, targets)
  {
    forall i | 0 <= i < |targets| ensures DeployCmds(project, targets)[i] != RetargetCommand(cfg.openshift, project) {
      DeployAt(project, targets, i);
      RetargetDiffers(cfg, project, "", Environment(project, targets[i]));
    }
  }

  /** A retarget command is neither a list, a clone nor a deploy command. */
  lemma RetargetDiffers(cfg: Config, project: string, n: string, env: string)
    ensures RetargetCommand(cfg.openshift, project) != ListCommand(cfg.source, n)
    ensures RetargetCommand(cfg.openshift, project) != CloneCommand(cfg.dest, cfg.source, n)
    ensures RetargetCommand(cfg.openshift, project) != DeployCommand(project, env)
  {
    assert |RetargetCommand(cfg.openshift, project)| == 9;
    assert RetargetCommand(cfg.openshift, project)[1] == "-l";
    assert CloneCommand(cfg.dest, cfg.source, n)[1] == "-z";
    assert "-l"[1] != "-z"[1];
  }

  /** The batches of the whole run, project by project. */
  function AllBatches(cfg: Config, namespaces: seq<string>, projects: seq<string>): seq<seq<Command>>
  {
    EachProject(projects, p => ProjectBatches(cfg, namespaces, p))
  }

  /** `safe_run_cmds`: announce the commands, prompt, then run them in order until one fails. */
  method SafeRunCmds(cmds: seq<Command>, input: seq<string>, ok: Command -> bool)
    returns (notice: Notice, prompts: nat, run: Run)
    ensures notice == RunCommands(cmds)
    ensures prompts >= 1
    ensures run == RunBatch(cmds, input, ok)
  {
    notice := RunCommands(cmds);
    var confirmed, rest;
    confirmed, rest, prompts := PromptToContinue(input);
    RunBatchAfterConfirm(cmds, input, ok);
    if !confirmed {
      return notice, prompts, Run([], InputClosed, rest);
    }
    var ran, outcome := RunEach(cmds, ok);
    ExecuteUpToFirstFailure(cmds, rest, ok);
    run := Run(ran, outcome, rest);
  }

  /**
   * One turn of the project loop once its four plans are made: list, clone,
   * retarget, deploy, stopping at the first batch that does not complete.
   */
  method CloneProject(list: seq<Command>, clone: seq<Command>, retarget: seq<Command>, deploy: seq<Command>,
                      input: seq<string>, ok: Command -> bool) returns (run: Run)
    ensures run == RunAll([list, clone, retarget, deploy], input, ok)
  {
    var _, _, r1 := SafeRunCmds(list, input, ok);
    assert RunAll([list, clone, retarget, deploy], input, ok) ==
           if r1.outcome != Completed then r1 else Prepend(r1.ran, RunAll([clone, retarget, deploy], r1.rest, ok)) by {
      RunAllCons(list, [clone, retarget, deploy], input, ok);
    }
    if r1.outcome != Completed {
      return r1;
    }
    var _, _, r2 := SafeRunCmds(clone, r1.rest, ok);
    assert RunAll([clone, retarget, deploy], r1.rest, ok) ==
           if r2.outcome != Completed then r2 else Prepend(r2.ran, RunAll([retarget, deploy], r2.rest, ok)) by {
      RunAllCons(clone, [retarget, deploy], r1.rest, ok);
    }
    if r2.outcome != Completed {
      return Prepend(r1.ran, r2);
    }
    var _, _, r3 := SafeRunCmds(retarget, r2.rest, ok);
    assert RunAll([retarget, deploy], r2.rest, ok) ==
           if r3.outcome != Completed then r3 else Prepend(r3.ran, RunAll([deploy], r3.rest, ok)) by {
      RunAllCons(retarget, [deploy], r2.rest, ok);
    }
    if r3.outcome != Completed {
      PrependTwice(r1.ran, r2.ran, r3);
      return Prepend(r1.ran + r2.ran, r3);
    }
    var _, _, r4 := SafeRunCmds(deploy, r3.rest, ok);
    assert RunAll([deploy], r3.rest, ok) == r4 by {
      RunAllCons(deploy, [], r3.rest, ok);
      assert [deploy] == [deploy] + [];
      if r4.outcome == Completed {
        assert r4.ran + [] == r4.ran;
      }
    }
    PrependTwice(r1.ran, r2.ran, Prepend(r3.ran, r4));
    PrependTwice(r1.ran + r2.ran, r3.ran, r4);
    run := Prepend(r1.ran + r2.ran + r3.ran, r4);
  }

  /**
   * The project loop: each project's four batches in turn, the whole script ending at
   * the first batch that does not complete. `plan` stands for the planning done at the
   * top of each turn (`ProjectBatches` in `Script`).
   */
  method CloneProjects(projects: seq<string>, plan: string -> seq<seq<Command>>, input: seq<string>,
                       ok: Command -> bool) returns (run: Run)
    requires forall p :: |plan(p)| == 4
    ensures run == RunAll(EachProject(projects, plan), input, ok)
  {
    var ran: seq<Command> := [];
    var rest := input;
    for i := 0 to |projects|
      invariant RunAll(EachProject(projects, plan), input, ok) ==
                Prepend(ran, RunAll(EachProject(projects[i..], plan), rest, ok))
    {
      var here := plan(projects[i]);
      var later := EachProject(projects[i + 1..], plan);
      assert EachProject(projects[i..], plan) == here + later by {
        EachProjectFrom(projects, plan, i);
      }
      var r := CloneProject(here[0], here[1], here[2], here[3], rest, ok);
      assert r == RunAll(here, rest, ok) by {
        assert here == [here[0], here[1], here[2], here[3]];
      }
      if r.outcome != Completed {
        assert RunAll(here + later, rest, ok) == r by {
          RunAllStops(here, later, rest, ok);
        }
        return Prepend(ran, r);
      }
      assert RunAll(here + later, rest, ok) == Prepend(r.ran, RunAll(later, r.rest, ok)) by {
        RunAllContinues(here, later, rest, ok);
      }
      PrependTwice(ran, r.ran, RunAll(later, r.rest, ok));
      ran := ran + r.ran;
      rest := r.rest;
    }
    assert projects[|projects|..] == [];
    assert ran + [] == ran;
    run := Run(ran, Completed, rest);
  }

  /** The command-line options as given; each of `-s`, `-d`, `-f`, `-o` may be missing. */
  datatype Options = Options(source: Option<string>, dest: Option<string>,
                             file: Option<string>, openshift: Option<string>)

  /** The options once all four are known to be present. */
  datatype Config = Config(source: string, dest: string, file: string, openshift: string)

  /** `%i(source dest file openshift).all?{...}`: the configuration, or nothing when an option is missing. */
  function RequiredOptions(options: Options): (r: Option<Config>)
    ensures r.None? <==> options.source.None? || options.dest.None? || options.file.None? || options.openshift.None?
    ensures r.Some? ==> Options(Some(r.value.source), Some(r.value.dest),
                                Some(r.value.file), Some(r.value.openshift)) == options
  {
    match options
    case Options(Some(source), Some(dest), Some(file), Some(openshift)) =>
      Some(Config(source, dest, file, openshift))
    case _ => None
  }

  /**
   * The script: a missing option exits with status 1 before any query; a failing
   * namespace query exits with status 2 before any command; otherwise every project
   * is cloned, and the script exits with 0 when every batch completed and 1 when an
   * exception ended it.
   */
  method Script(options: Options, namespaces: Option<seq<string>>, projects: seq<string>,
                input: seq<string>, ok: Command -> bool) returns (session: Session)
    ensures RequiredOptions(options).None? ==> session == Session(0, [], 1)
    ensures RequiredOptions(options).Some? && namespaces.None? ==> session == Session(1, [], 2)
    ensures RequiredOptions(options).Some? && namespaces.Some? ==>
              var r := RunAll(AllBatches(RequiredOptions(options).value, namespaces.value, projects), input, ok);
              session == Session(1, r.ran, ExitStatus(r.outcome))
  {
    var config := RequiredOptions(options);
    if config.None? {
      return Session(0, [], 1);
    }
    if namespaces.None? {
      return Session(1, [], 2);
    }
    var cfg := config.value;
    var ns := namespaces.value;
    var run := CloneProjects(projects, p => ProjectBatches(cfg, ns, p), input, ok);
    session := Session(1, run.ran, ExitStatus(run.outcome));
  }
}
