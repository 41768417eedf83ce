/**
 * The confirm-and-execute runner shared by both scripts: `prompt_to_continue`
 * reads operator lines until one reads `y`, then the planned commands run one by
 * one through `system(*cmd, exception: true)`, which raises on the first command
 * that does not exit with status zero.
 *
 * Standard input is a sequence of lines that each call consumes from the front
 * and hands back what it left unread; whether a command exits with status zero
 * is an oracle `ok`.
 */
module Runner {
  import opened Wrappers
  import opened Enumerable
  import opened RubyString

  /** The argument vector of one external command (`system(*cmd)`). */
  type Command = seq<string>

  /** How a run of planned commands ended. */
  datatype Outcome =
    | Completed                       // every command ran and exited with status zero
    | CommandFailed(failed: Command)  // `system(..., exception: true)` raised for this command
    | InputClosed                     // standard input ended before a `y`: `gets` gave nil and `nil.chomp` raised

  /** What a run invoked, how it ended, and the input lines it left unread. */
  datatype Run = Run(ran: seq<Command>, outcome: Outcome, rest: seq<string>)

  /** What `safe_run_cmds` announces before it prompts. */
  datatype Notice = NothingToDo | RunCommands(shown: seq<Command>)

  /** A line read at the prompt confirms when it is `y` followed by at most one line terminator. */
  predicate Confirms(line: string)
  {
    line == "y" || line == "y\n" || line == "y\r" || line == "y\r\n"
  }

  /** The lines that confirm are exactly those that `chomp` turns into `y` (`prompt == 'y'`). */
  lemma ConfirmsIsChompedY(line: string)
    ensures Confirms(line) <==> Chomp(line) == "y"
  {
    var r := Chomp(line);
    if r == "y" {
      assert line == r + line[1..];
    }
  }

  /** The position of the first confirming line, if there is one. */
  function ConfirmAt(lines: seq<string>): (r: Option<nat>)
    ensures r.Some? ==> r.value < |lines| && Confirms(lines[r.value])
    ensures r.Some? ==> forall j :: 0 <= j < r.value ==> !Confirms(lines[j])
    ensures r.None? ==> forall j :: 0 <= j < |lines| ==> !Confirms(lines[j])
  {
    if lines == [] then None
    else if Confirms(lines[0]) then Some(0)
    else match ConfirmAt(lines[1..])
      case None => None
      case Some(k) => Some(k + 1)
  }

  /**
   * `prompt_to_continue`: prompt, read a line, and return once the line is `y`.
   * `prompts` counts the prompts printed; the operator is always prompted at least once.
   * When the input ends first, `gets` answers nil and the script raises (`confirmed` is false).
   */
  method PromptToContinue(input: seq<string>) returns (confirmed: bool, rest: seq<string>, prompts: nat)
    ensures prompts >= 1
    ensures ConfirmAt(input).Some? ==>
      confirmed && prompts == ConfirmAt(input).value + 1 && rest == input[prompts..]
    ensures ConfirmAt(input).None? ==> !confirmed && prompts == |input| + 1 && rest == []
  {
    rest := input;
    prompts := 1;
    while rest != [] && !Confirms(rest[0])
      invariant 1 <= prompts <= |input| + 1 && rest == input[prompts - 1..]
      invariant forall j :: 0 <= j < prompts - 1 ==> !Confirms(input[j])
      decreases |rest|
    {
      rest := rest[1..];
      prompts := prompts + 1;
    }
    confirmed := rest != [];
    if confirmed {
      rest := rest[1..];
    }
  }

  /** The position of the first command that does not exit with status zero, if there is one. */
  function FirstFailure(cmds: seq<Command>, ok: Command -> bool): (r: Option<nat>)
    ensures r.Some? ==> r.value < |cmds| && !ok(cmds[r.value])
    ensures r.Some? ==> forall j :: 0 <= j < r.value ==> ok(cmds[j])
    ensures r.None? ==> forall j :: 0 <= j < |cmds| ==> ok(cmds[j])
  {
    if cmds == [] then None
    else if !ok(cmds[0]) then Some(0)
    else match FirstFailure(cmds[1..], ok)
      case None => None
      case Some(k) => Some(k + 1)
  }

  /**
   * `cmds.each { |cmd| system(*cmd, exception: true) }`: runs the commands in
   * list order and stops after the first one that fails, whose exception ends the run.
   */
  method RunEach(cmds: seq<Command>, ok: Command -> bool) returns (ran: seq<Command>, outcome: Outcome)
    ensures FirstFailure(cmds, ok).None? ==> ran == cmds && outcome == Completed
    ensures FirstFailure(cmds, ok).Some? ==>
      var i := FirstFailure(cmds, ok).value;
      ran == cmds[..i + 1] && outcome == CommandFailed(cmds[i])
  {
    ran := [];
    for i := 0 to |cmds|
      invariant ran == cmds[..i]
      invariant forall j :: 0 <= j < i ==> ok(cmds[j])
    {
      ran := ran + [cmds[i]];
      if !ok(cmds[i]) {
        return ran, CommandFailed(cmds[i]);
      }
    }
    outcome := Completed;
  }

  /**
   * The `each` loop as a recursive definition: run the first command; stop when it
   * fails, otherwise go on with the others. `rest` is the unread input, passed through.
   */
  function Execute(cmds: seq<Command>, rest: seq<string>, ok: Command -> bool): Run
  {
    if cmds == [] then Run([], Completed, rest)
    else if !ok(cmds[0]) then Run([cmds[0]], CommandFailed(cmds[0]), rest)
    else
      var r := Execute(cmds[1..], rest, ok);
      Run([cmds[0]] + r.ran, r.outcome, r.rest)
  }

  /** The commands executed are those up to and including the first failure, or all of them. */
  lemma {:induction false} ExecuteUpToFirstFailure(cmds: seq<Command>, rest: seq<string>, ok: Command -> bool)
    ensures FirstFailure(cmds, ok).None? ==> Execute(cmds, rest, ok) == Run(cmds, Completed, rest)
    ensures FirstFailure(cmds, ok).Some? ==>
      var i := FirstFailure(cmds, ok).value;
      Execute(cmds, rest, ok) == Run(cmds[..i + 1], CommandFailed(cmds[i]), rest)
  {
    if cmds != [] && ok(cmds[0]) {
      ExecuteUpToFirstFailure(cmds[1..], rest, ok);
      assert cmds == [cmds[0]] + cmds[1..];
      if FirstFailure(cmds, ok).Some? {
        var i := FirstFailure(cmds, ok).value;
        assert cmds[..i + 1] == [cmds[0]] + cmds[1..][..i];
      }
    }
  }

  /**
   * One call of `safe_run_cmds` after its announcement, as a recursive definition:
   * read lines until one confirms, then execute the commands. When the input ends
   * first, nothing runs.
   */
  function RunBatch(cmds: seq<Command>, input: seq<string>, ok: Command -> bool): Run
    decreases |input|
  {
    if input == [] then Run([], InputClosed, [])
    else if Confirms(input[0]) then Execute(cmds, input[1..], ok)
    else RunBatch(cmds, input[1..], ok)
  }

  /** A batch waits for the first confirming line, then executes on the lines after it. */
  lemma {:induction false} RunBatchAfterConfirm(cmds: seq<Command>, input: seq<string>, ok: Command -> bool)
    ensures ConfirmAt(input).None? ==> RunBatch(cmds, input, ok) == Run([], InputClosed, [])
    ensures ConfirmAt(input).Some? ==>
      RunBatch(cmds, input, ok) == Execute(cmds, input[ConfirmAt(input).value + 1..], ok)
    decreases |input|
  {
    if input != [] && !Confirms(input[0]) {
      RunBatchAfterConfirm(cmds, input[1..], ok);
      if ConfirmAt(input).Some? {
        var k := ConfirmAt(input).value;
        assert input[k + 1..] == input[1..][k..];
      }
    }
  }

  /**
   * What one batch does, said without reference to how it is computed: the input
   * closes at the prompt exactly when no line confirms, and then nothing runs; what
   * runs is a prefix of the list, in list order; a batch completes exactly when some
   * line confirms and every command succeeds, and then every command ran; a failed
   * batch ends with the failing command, every earlier one having succeeded.
   */
  lemma RunBatchSpec(cmds: seq<Command>, input: seq<string>, ok: Command -> bool)
    ensures var r := RunBatch(cmds, input, ok);
      && (r.outcome == InputClosed <==> forall j :: 0 <= j < |input| ==> !Confirms(input[j]))
      && (r.outcome == InputClosed ==> r.ran == [] && r.rest == [])
      && r.ran <= cmds
      && (r.outcome == Completed <==> (exists j :: 0 <= j < |input| && Confirms(input[j])) && (forall c :: c in cmds ==> ok(c)))
      && (r.outcome == Completed ==> r.ran == cmds)
      && (r.outcome.CommandFailed? ==>
            |r.ran| > 0 && r.outcome.failed == r.ran[|r.ran| - 1] && !ok(r.outcome.failed)
            && forall j :: 0 <= j < |r.ran| - 1 ==> ok(r.ran[j]))
  {
    RunBatchAfterConfirm(cmds, input, ok);
    match ConfirmAt(input)
    case None =>
    case Some(k) =>
      assert Confirms(input[k]);
      ExecuteUpToFirstFailure(cmds, input[k + 1..], ok);
      match FirstFailure(cmds, ok)
      case None =>
        assert forall c :: c in cmds ==> ok(c) by {
          forall c | c in cmds ensures ok(c) {
            var j :| 0 <= j < |cmds| && cmds[j] == c;
          }
        }
      case Some(i) =>
        assert cmds[i] in cmds;
  }

  /** The exit status of a script whose last batch ended this way: an uncaught Ruby exception exits with 1. */
  function ExitStatus(outcome: Outcome): (status: int)
    ensures status == 0 <==> outcome == Completed
    ensures status == 0 || status == 1
  {
    if outcome == Completed then 0 else 1
  }

  /** What a whole script run did: the cluster queries it issued, the commands it invoked and its exit status. */
  datatype Session = Session(queries: nat, ran: seq<Command>, status: int)

  /**
   * A script run: the batches in order, each behind its own prompt, sharing one input;
   * the first batch that does not complete ends the script.
   */
  function RunAll(batches: seq<seq<Command>>, input: seq<string>, ok: Command -> bool): (r: Run)
    decreases |batches|
  {
    if batches == [] then Run([], Completed, input)
    else
      var first := RunBatch(batches[0], input, ok);
      if first.outcome != Completed then first
      else
        var later := RunAll(batches[1..], first.rest, ok);
        Run(first.ran + later.ran, later.outcome, later.rest)
  }

  /** `IO.readlines(file).each`: the batches `plan` gives each project, project by project. */
  function EachProject(projects: seq<string>, plan: string -> seq<seq<Command>>): seq<seq<Command>>
  {
    if projects == [] then [] else plan(projects[0]) + EachProject(projects[1..], plan)
  }

  /** From the `i`-th project on, a run plans that project's batches, then those of the projects after it. */
  lemma EachProjectFrom(projects: seq<string>, plan: string -> seq<seq<Command>>, i: nat)
    requires i < |projects|
    ensures EachProject(projects[i..], plan) == plan(projects[i]) + EachProject(projects[i + 1..], plan)
  {
    assert projects[i..][0] == projects[i] && projects[i..][1..] == projects[i + 1..];
  }

  /** Every batch of a run is one of the batches planned for one of the projects. */
  lemma {:induction false} EachProjectMember(projects: seq<string>, plan: string -> seq<seq<Command>>, b: seq<Command>)
    requires b in EachProject(projects, plan)
    ensures exists p :: p in projects && b in plan(p)
  {
    if b !in plan(projects[0]) {
      EachProjectMember(projects[1..], plan, b);
      var p :| p in projects[1..] && b in plan(p);
      assert p in projects;
    }
  }

  /** A run that follows the commands `done` already invoked. */
  function Prepend(done: seq<Command>, r: Run): Run
  {
    Run(done + r.ran, r.outcome, r.rest)
  }

  /** Following `a`, then `b`, is following `a + b`. */
  lemma PrependTwice(a: seq<Command>, b: seq<Command>, r: Run)
    ensures Prepend(a, Prepend(b, r)) == Prepend(a + b, r)
  {
    assert a + (b + r.ran) == (a + b) + r.ran;
  }

  /** Running a list of batches runs its first batch, then the others only if that one completed. */
  lemma RunAllCons(b: seq<Command>, bs: seq<seq<Command>>, input: seq<string>, ok: Command -> bool)
    ensures var first := RunBatch(b, input, ok);
      RunAll([b] + bs, input, ok) ==
        if first.outcome != Completed then first
        else var later := RunAll(bs, first.rest, ok); Run(first.ran + later.ran, later.outcome, later.rest)
  {
    assert ([b] + bs)[0] == b;
    assert ([b] + bs)[1..] == bs;
  }

  /** Once a batch of `a` fails or the input closes, nothing of `b` runs. */
  lemma {:induction false} RunAllStops(a: seq<seq<Command>>, b: seq<seq<Command>>, input: seq<string>, ok: Command -> bool)
    requires RunAll(a, input, ok).outcome != Completed
    ensures RunAll(a + b, input, ok) == RunAll(a, input, ok)
  {
    assert a != [];
    var ab := a + b;
    assert ab[0] == a[0];
    assert ab[1..] == a[1..] + b;
    var first := RunBatch(a[0], input, ok);
    if first.outcome == Completed {
      RunAllStops(a[1..], b, first.rest, ok);
    }
  }

  /** When every batch of `a` completes, `b` runs next, on the input `a` left unread. */
  lemma {:induction false} RunAllContinues(a: seq<seq<Command>>, b: seq<seq<Command>>, input: seq<string>, ok: Command -> bool)
    requires RunAll(a, input, ok).outcome == Completed
    ensures var ra := RunAll(a, input, ok); var rb := RunAll(b, ra.rest, ok);
      RunAll(a + b, input, ok) == Run(ra.ran + rb.ran, rb.outcome, rb.rest)
  {
    if a == [] {
      assert a + b == b;
    } else {
      var ab := a + b;
      assert ab[0] == a[0];
      assert ab[1..] == a[1..] + b;
      var first := RunBatch(a[0], input, ok);
      var ra' := RunAll(a[1..], first.rest, ok);
      RunAllContinues(a[1..], b, first.rest, ok);
      var rb := RunAll(b, ra'.rest, ok);
      assert first.ran + (ra'.ran + rb.ran) == (first.ran + ra'.ran) + rb.ran;
    }
  }

  /**
   * What a script run invokes is a prefix of all planned commands in plan order,
   * and all of them when every batch completes.
   */
  lemma {:induction false} RunAllPrefix(batches: seq<seq<Command>>, input: seq<string>, ok: Command -> bool)
    ensures RunAll(batches, input, ok).ran <= Flatten(batches)
    ensures RunAll(batches, input, ok).outcome == Completed ==> RunAll(batches, input, ok).ran == Flatten(batches)
  {
    if batches != [] {
      var first := RunBatch(batches[0], input, ok);
      RunBatchSpec(batches[0], input, ok);
      assert Flatten(batches) == batches[0] + Flatten(batches[1..]);
      if first.outcome == Completed {
        RunAllPrefix(batches[1..], first.rest, ok);
      }
    }
  }

  /** No command of any batch runs before the operator has entered a confirming line. */
  lemma {:induction false} RunAllNeedsConfirmation(batches: seq<seq<Command>>, input: seq<string>, ok: Command -> bool)
    ensures RunAll(batches, input, ok).ran != [] ==> exists j :: 0 <= j < |input| && Confirms(input[j])
  {
    if batches != [] {
      var first := RunBatch(batches[0], input, ok);
      RunBatchAfterConfirm(batches[0], input, ok);
      if ConfirmAt(input).Some? {
        var k := ConfirmAt(input).value;
        assert Confirms(input[k]);
      }
    }
  }

  /**
   * A script run that does not complete ends with the command that failed, every earlier
   * command having succeeded, or with the input exhausted at a prompt.
   */
  lemma {:induction false} RunAllFailure(batches: seq<seq<Command>>, input: seq<string>, ok: Command -> bool)
    ensures var r := RunAll(batches, input, ok);
      && (forall j :: 0 <= j < |r.ran| - 1 ==> ok(r.ran[j]))
      && (r.outcome.CommandFailed? ==> |r.ran| > 0 && r.outcome.failed == r.ran[|r.ran| - 1] && !ok(r.outcome.failed))
      && (r.outcome == Completed ==> forall c :: c in r.ran ==> ok(c))
  {
    if batches != [] {
      var first := RunBatch(batches[0], input, ok);
      RunBatchSpec(batches[0], input, ok);
      if first.outcome == Completed {
        var later := RunAll(batches[1..], first.rest, ok);
        RunAllFailure(batches[1..], first.rest, ok);
        var r := RunAll(batches, input, ok);
        assert r.ran == first.ran + later.ran;
        assert forall c :: c in first.ran ==> ok(c) by {
          forall c | c in first.ran ensures ok(c) {
            assert c in batches[0];
          }
        }
        forall j | 0 <= j < |r.ran| - 1 ensures ok(r.ran[j]) {
          if j < |first.ran| {
            assert r.ran[j] in first.ran;
          } else {
            assert r.ran[j] == later.ran[j - |first.ran|];
          }
        }
        if r.outcome == Completed {
          forall c | c in r.ran ensures ok(c) {
            if c !in first.ran {
              assert c in later.ran;
            }
          }
        }
      }
    }
  }
}
