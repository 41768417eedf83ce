# helper-scripts: cluster migration wrappers, modelled in Dafny

This project models the two Ruby wrappers that move Lagoon projects from one
Kubernetes cluster to another:

- `auto-clone.rb` reads a list of projects. For each project it targets the source
  cluster's namespaces named `<project>...` and runs four batches of commands:
  it lists each namespace's contents, clones each namespace with
  `migrate-between-clusters.sh`, points the Lagoon project at the destination
  openshift, and deploys every cloned environment.
- `post-clone-cleanup.rb` runs against the source cluster afterwards. For each
  project it targets the namespaces named `<project>-...` and runs four batches:
  it lists their contents, scales every running deployment to zero, suspends every
  active cronjob, and deletes every `schedules.backup.appuio.ch` object.

Every batch goes through `safe_run_cmds`. It announces the batch, then
`prompt_to_continue` reads operator lines until one reads `y`. Then the commands
run one by one with `system(*cmd, exception: true)`, which raises on the first
command that exits non-zero.

Modules, one per concern of the scripts:

- `Enumerable` (`enumerable.dfy`): Ruby's `select`, `map` and `flatten(1)` over
  sequences.
- `RubyString` (`ruby_string.dfy`): `start_with?`-style prefix tests,
  `delete_prefix` and `chomp`.
- `Namespaces` (`namespaces.dfy`): `namespace/<name>` entries, their names, and the
  `grep(/^namespace\/.../)` prefix filter both scripts apply.
- `Runner` (`runner.dfy`): `prompt_to_continue`, the command loop of
  `safe_run_cmds`, and a whole run of batches.
  - Standard input is a sequence of lines. Each call consumes lines from the front
    and returns the lines it left unread.
  - Whether a command exits with status zero is an oracle `ok`.
  - Each loop is a method proved against a recursive specification function
    (`ConfirmAt`, `FirstFailure`, `Execute`, `RunBatch`, `RunAll`). The properties
    the scripts promise are proved about those functions.
- `PostCloneCleanup` (`post_clone_cleanup.dfy`): the cleanup filter, its four
  planners, its `safe_run_cmds`, the project loop and the script as a whole.
- `AutoClone` (`auto_clone.dfy`): the same parts for the clone script.
  - It also relates its filter to the cleanup filter: every namespace the cleanup
    script targets for a project was targeted by the clone script.

The scripts' planning is pure data transformation, so it is modelled as functions
with lemmas. `prompt_to_continue`, the `each` loop over commands and the loop over
projects are methods with loops. The parts of a script run between the loops are
methods with straight-line code.

The project loop is `CleanProjects` in the cleanup script and `CloneProjects` in
the clone script. Each takes the planning done at the top of each turn as a
function parameter, and `Script` passes `ProjectBatches`.

Three behaviours of the code shape the model:

- In `post-clone-cleanup.rb`, `safe_run_cmds` prompts even when there is nothing to
  do. The prompt (line 39) sits outside the `if`/`else`.
- An exception that ends a script ends it with exit status 1. This covers a failing
  command and a closed standard input at the prompt, where `gets` returns `nil` and
  `nil.chomp` raises.
- Project lines are only chomped (`IO.readlines(..., chomp: true)`), never skipped
  or trimmed.
  - In the clone script, an empty line is the project `""`, and it targets every
    namespace (`AutoClone.EmptyProjectTargetsAll`).

## Model

| member | source | states |
|---|---|---|
| Enumerable.Select | post-clone-cleanup.rb:121-124 | `select` keeps exactly the elements that satisfy the block, and never grows the list |
| Enumerable.Map | post-clone-cleanup.rb:114-116 | `map` gives one result per element, the `i`-th being the block applied to the `i`-th element |
| Enumerable.Flatten | post-clone-cleanup.rb:120-128 | `flatten(1)` holds exactly the elements of the inner lists |
| Enumerable.SelectCount | post-clone-cleanup.rb:121-124 | `select` keeps each kept element as many times as it occurs |
| Enumerable.SelectAppend | post-clone-cleanup.rb:121-124 | `select` keeps list order: selecting from `a + b` is selecting from `a`, then from `b` |
| Enumerable.FlattenAppend | post-clone-cleanup.rb:128 | `flatten(1)` keeps list order across a concatenation |
| RubyString.DeletePrefix | post-clone-cleanup.rb:115 | `delete_prefix` removes the prefix when the string starts with it, and otherwise returns the string unchanged |
| RubyString.StartsWithConcat | auto-clone.rb:93 | a string starts with `p + q` exactly when it starts with `p` and what follows `p` starts with `q` |
| RubyString.Chomp | post-clone-cleanup.rb:28 | `chomp` keeps a prefix of the line and removes at most one trailing `"\r\n"`, `"\n"` or `"\r"`; it always removes one from a line that ends in a line terminator, both characters of `"\r\n"` |
| Runner.ConfirmsIsChompedY | post-clone-cleanup.rb:28-29 | a line read at the prompt confirms exactly when its chomped form is `y` |
| Runner.ConfirmAt | post-clone-cleanup.rb:26-30 | the first confirming line, with no confirming line before it; none exactly when no line confirms |
| Runner.Confirms | post-clone-cleanup.rb:28-29 | the test `prompt == 'y'` on a line read by `gets`; no contract of its own, `ConfirmsIsChompedY` proves it equal to `chomp` followed by the comparison |
| Runner.PromptToContinue | post-clone-cleanup.rb:25-31 | the loop prompts at least once, stops right after the first confirming line, and leaves the lines after it unread; when no line confirms it prompts once more than there are lines and the run ends unconfirmed |
| Runner.FirstFailure | post-clone-cleanup.rb:40-43 | the first command that exits non-zero, every earlier one exiting with zero |
| Runner.Execute | post-clone-cleanup.rb:40-43 | the `each` loop read recursively; no contract of its own, its properties are in `ExecuteUpToFirstFailure`, and `RunEach` is proved against it |
| Runner.RunEach | post-clone-cleanup.rb:40-43 | commands run in list order; if command `i` is the first to fail, exactly `cmds[..i+1]` ran and the run raised for `cmds[i]`; otherwise all ran |
| Runner.ExecuteUpToFirstFailure | post-clone-cleanup.rb:40-43 | the recursive reading of the `each` loop runs exactly the commands up to and including the first failure, or all of them |
| Runner.RunBatchAfterConfirm | post-clone-cleanup.rb:39-43 | a batch runs nothing until the first confirming line and then executes on the lines after it; with no confirming line nothing runs and the input closes |
| Runner.RunBatch | post-clone-cleanup.rb:39-43 | one `safe_run_cmds` call after its announcement; no contract of its own, its properties are in `RunBatchAfterConfirm` and `RunBatchSpec`, and both `SafeRunCmds` methods are proved against it |
| Runner.RunBatchSpec | post-clone-cleanup.rb:39-43 | one batch: the input closes exactly when no line confirms, and then nothing ran; what ran is a prefix of the list; the batch completes exactly when a line confirms and every command succeeds, and then all ran; a failed batch ends with its failing command, all earlier ones having succeeded |
| Runner.ExitStatus | post-clone-cleanup.rb:42 | the script exits with 0 exactly when every batch completed, and with 1 when an exception ended it |
| Runner.RunAll | post-clone-cleanup.rb:106-154 | the batches of a whole script run in order on one input; no contract of its own, its properties are in `RunAllStops`, `RunAllContinues`, `RunAllPrefix`, `RunAllNeedsConfirmation` and `RunAllFailure` |
| Runner.EachProject | post-clone-cleanup.rb:106 | the `IO.readlines(...).each` loop's batches, project by project; no contract of its own, its properties are in `EachProjectMember`, and the project loops are proved against it |
| Runner.EachProjectMember | post-clone-cleanup.rb:106 | every batch of a run was planned for one of the listed projects |
| Runner.RunAllStops | post-clone-cleanup.rb:106-154 | once a batch fails or the input closes, no later batch runs: the run of `a + b` is the run of `a` |
| Runner.RunAllContinues | post-clone-cleanup.rb:106-154 | when every batch of `a` completes, the batches of `b` run next on the remaining input, after what `a` ran |
| Runner.RunAllPrefix | post-clone-cleanup.rb:106-154 | a script run invokes a prefix of all planned commands in plan order, and all of them when it completes |
| Runner.RunAllNeedsConfirmation | post-clone-cleanup.rb:25-31 | no command runs unless the operator entered a confirming line |
| Runner.RunAllFailure | post-clone-cleanup.rb:40-43 | every command a run invoked succeeded except possibly the last; a failed run ends with its failing command |
| Namespaces.Name | post-clone-cleanup.rb:115 | the name of a `namespace/<n>` entry is `n`, and any other entry is its own name |
| Namespaces.Grep | post-clone-cleanup.rb:108 | `grep(/^namespace\/<prefix>/)` as a literal prefix filter; no contract of its own, its properties are in `GrepExact`, `GrepNames`, `GrepNarrow` and `GrepEmptyPrefix` |
| Namespaces.GrepExact | post-clone-cleanup.rb:108 | the filter keeps exactly the entries starting with `namespace/<prefix>`, as often as they are listed, in listing order |
| Namespaces.GrepNames | post-clone-cleanup.rb:108 | a kept entry is `namespace/` followed by its name, and that name starts with the prefix |
| Namespaces.GrepNarrow | auto-clone.rb:71 | filtering kept entries again with a longer prefix is filtering with the longer prefix |
| Namespaces.GrepEmptyPrefix | auto-clone.rb:71 | with an empty prefix the filter keeps a listing of `namespace/` entries whole |
| PostCloneCleanup.TargetsExact | post-clone-cleanup.rb:108 | the targeted namespaces are exactly the entries starting with `namespace/<project>-`, with their multiplicity, in listing order |
| PostCloneCleanup.Targets | post-clone-cleanup.rb:108 | the namespaces of `<project>-` environments; no contract of its own, its properties are in `TargetsExact` and `TargetName` |
| PostCloneCleanup.TargetName | post-clone-cleanup.rb:108 | every targeted name is listed as `namespace/<name>` and starts with `<project>-` |
| PostCloneCleanup.ListCmds | post-clone-cleanup.rb:114-116 | one list command per targeted namespace, in order, each with `-n` followed by the namespace with `namespace/` removed |
| PostCloneCleanup.ListScope | post-clone-cleanup.rb:114-116 | every list command names a listed namespace of the project |
| PostCloneCleanup.PerNamespace | post-clone-cleanup.rb:120-128 | `targets.map { select ... map ... }.flatten(1)`, the shape of the three per-namespace plans; no contract of its own, its properties are in `PerNamespaceSource`, `PerNamespaceComplete`, `PerNamespaceByTarget` and `PerNamespaceByItem` |
| PostCloneCleanup.Block | post-clone-cleanup.rb:121-127 | one namespace's `select` and `map`; no contract of its own, its properties are in `PerNamespaceByItem` |
| PostCloneCleanup.PerNamespaceSource | post-clone-cleanup.rb:120-128 | every command of a per-namespace plan is made from a wanted item of one targeted namespace |
| PostCloneCleanup.PerNamespaceComplete | post-clone-cleanup.rb:120-128 | every wanted item of every targeted namespace gets its command |
| PostCloneCleanup.PerNamespaceByTarget | post-clone-cleanup.rb:120-128 | plans are ordered by targeted namespace first: planning for `t1 + t2` plans `t1`, then `t2` |
| PostCloneCleanup.PerNamespaceByItem | post-clone-cleanup.rb:120-128 | within one namespace, plans follow inventory order, and one item gives its command exactly when it is wanted |
| PostCloneCleanup.ScaleDownCmds | post-clone-cleanup.rb:120-128 | the scale-down plan; no contract of its own, its properties are in `ScaleDownPlan` and `ScaleDownScope` |
| PostCloneCleanup.ScaleDownPlan | post-clone-cleanup.rb:120-128 | a scale-down command is planned exactly for each deployment with replicas above zero in a targeted namespace, and each ends with `--replicas=0` |
| PostCloneCleanup.ScaleDownScope | post-clone-cleanup.rb:120-128 | every scale-down command names a listed namespace of the project |
| PostCloneCleanup.SuspendCmds | post-clone-cleanup.rb:132-140 | the suspend plan; no contract of its own, its properties are in `SuspendPlan`, `SuspendedNeverPatched` and `SuspendScope` |
| PostCloneCleanup.SuspendPlan | post-clone-cleanup.rb:132-140 | a suspend patch is planned exactly for each cronjob of a targeted namespace that is not suspended |
| PostCloneCleanup.SuspendedNeverPatched | post-clone-cleanup.rb:132-140 | an already suspended cronjob is never patched, given that no other cronjob shares its namespace and name |
| PostCloneCleanup.SuspendScope | post-clone-cleanup.rb:132-140 | every suspend command names a listed namespace of the project |
| PostCloneCleanup.ScheduleDeleteCmds | post-clone-cleanup.rb:144-152 | the schedule-delete plan; no contract of its own, its properties are in `ScheduleDeletePlan` and `ScheduleDeleteScope` |
| PostCloneCleanup.ScheduleDeletePlan | post-clone-cleanup.rb:144-152 | a delete command is planned exactly for each backup schedule of a targeted namespace, and every delete names a targeted namespace |
| PostCloneCleanup.ScheduleDeleteScope | post-clone-cleanup.rb:144-152 | every delete command names a listed namespace of the project |
| PostCloneCleanup.ProjectBatches | post-clone-cleanup.rb:108-153 | one project's four batches in script order; no contract of its own, its properties are in `ProjectScope` |
| PostCloneCleanup.ProjectScope | post-clone-cleanup.rb:108-153 | every command planned for a project works with `-n` in a listed namespace named `<project>-...` |
| PostCloneCleanup.InvokedOnlyInProjectNamespaces | post-clone-cleanup.rb:106-154 | every command the script invokes works in a listed namespace named `<project>-...` for one of the listed projects |
| PostCloneCleanup.SafeRunCmds | post-clone-cleanup.rb:33-44 | announces "nothing to do" exactly for an empty list, prompts in every case, then runs the batch as `RunBatch` describes |
| PostCloneCleanup.CleanProject | post-clone-cleanup.rb:117-153 | the four batches of one project run in order, the first that does not complete ending the run |
| PostCloneCleanup.CleanProjects | post-clone-cleanup.rb:106-154 | the project loop runs every project's batches in turn until a batch does not complete |
| PostCloneCleanup.Script | post-clone-cleanup.rb:61-154 | without `-f`: exit 1 before any query; a failing query: exit 2 before any command, after exactly the queries issued so far; otherwise every project is cleaned and the exit status is 0 exactly when every batch completed |
| AutoClone.TargetsExact | auto-clone.rb:71 | the targeted namespaces are exactly the entries starting with `namespace/<project>`, no `-` required, with their multiplicity, in listing order |
| AutoClone.Targets | auto-clone.rb:71 | the namespaces starting with the project, no `-` required; no contract of its own, its properties are in `TargetsExact`, `TargetNames`, `CleanupTargetsCloned` and `EmptyProjectTargetsAll` |
| AutoClone.TargetNames | auto-clone.rb:71 | a name is targeted exactly when `namespace/<name>` is listed and the name starts with the project |
| AutoClone.CleanupTargetsCloned | auto-clone.rb:71 | the cleanup targets are the clone targets that go on with `-`, so every namespace the cleanup targets was targeted by the clone |
| AutoClone.EmptyProjectTargetsAll | auto-clone.rb:69-71 | an empty project line targets every namespace of the source cluster |
| AutoClone.ListCmds | auto-clone.rb:77-79 | the list plan; no contract of its own, its properties are in `ListAndClonePaired` |
| AutoClone.CloneCmds | auto-clone.rb:83-85 | the clone plan; no contract of its own, its properties are in `ListAndClonePaired` and `CloneCoversTargets` |
| AutoClone.ListAndClonePaired | auto-clone.rb:77-85 | the list and clone plans have one command each per targeted namespace, in the same order, the `i`-th of both about the `i`-th target's name |
| AutoClone.CloneCoversTargets | auto-clone.rb:83-85 | a namespace is cloned from source to destination exactly when the source lists it and its name starts with the project |
| AutoClone.Environment | auto-clone.rb:93 | `ns.delete_prefix("namespace/#{project}-")`; no contract of its own, its properties are in `EnvironmentOf` |
| AutoClone.EnvironmentOf | auto-clone.rb:93 | a target named `<project>-<env>` deploys as `<env>`; any other target deploys under its whole entry, `namespace/` included |
| AutoClone.DeployCmds | auto-clone.rb:92-94 | the deploy plan; no contract of its own, its properties are in `DeployPlan` |
| AutoClone.DeployPlan | auto-clone.rb:92-94 | one deploy command per targeted namespace, in order, each for the project and that target's environment |
| AutoClone.RetargetCommand | auto-clone.rb:89 | the `lagoon update project --openshift` command; no contract of its own, its properties are in `RetargetOncePerProject` and `RetargetNotPerNamespace` |
| AutoClone.ProjectBatches | auto-clone.rb:77-95 | one project's four batches in script order; no contract of its own, its properties are in `RetargetOncePerProject`, `ListAndClonePaired` and `DeployPlan` |
| AutoClone.RetargetOncePerProject | auto-clone.rb:89 | each project's commands hold its retarget command exactly once, even when no namespace matched |
| AutoClone.RetargetNotPerNamespace | auto-clone.rb:77-95 | no list, clone or deploy command is a retarget command |
| AutoClone.SafeRunCmds | auto-clone.rb:21-28 | announces the batch, prompts in every case (an empty one included), then runs it as `RunBatch` describes |
| AutoClone.CloneProject | auto-clone.rb:80-95 | the four batches of one project run in order, the first that does not complete ending the run |
| AutoClone.CloneProjects | auto-clone.rb:69-96 | the project loop runs every project's batches in turn until a batch does not complete |
| AutoClone.RequiredOptions | auto-clone.rb:54-57 | the options are rejected exactly when one of `-s`, `-d`, `-f`, `-o` is missing |
| AutoClone.Script | auto-clone.rb:54-96 | a missing option: exit 1 before any query or command; a failing namespace query: exit 2 before any command; otherwise every project is cloned and the exit status is 0 exactly when every batch completed |

## Left out

- Process execution (`system`, `Open3.capture3`) is not modelled.
  - Whether a command exits with status zero is the oracle `ok`. A command is
    assumed to exit the same way each time it runs.
  - Each cluster query is an `Option`: `None` when it exits non-zero.
- `JSON.load` and the JSON shape of `kubectl` output are not modelled. The inventory
  arrives as parsed `Deployment`, `CronJob` and `Schedule` records.
  - A `nil` `replicas` would make `> 0` raise; that crash is not modelled, and
    `replicas` is an integer.
  - A missing `suspend` is read as `false`, as `!nil` is in Ruby.
- The splitting of `kubectl get ns -o name` output into entries (`stdout.split`) is
  not modelled. The entries arrive as a sequence.
- The `SIGINT` trap and its exit status 130 are left out. They are signal handling,
  with no sequential behaviour beyond ending the script.
- `OptionParser` is not modelled; the parsed options arrive as `Option` values.
- `IO.readlines` is not modelled; the project list arrives as a sequence of lines.
  An unreadable project file is left out.
- Console output (`puts`, `print`, `printf`) is left out. Only what `safe_run_cmds`
  announces (the batch, or "nothing to do") and the number of prompts are modelled.
- The current context that `post-clone-cleanup.rb` prints is only printed, so only
  the success or failure of that query is modelled.
- Regular-expression metacharacters in project names are left out. The project is
  interpolated unescaped into the pattern; the filter is modelled as a literal
  prefix test.
  - Namespace entries are taken to be single lines, so `^` anchors at the start of
    the entry.
- A closed standard input is the only way `prompt_to_continue` ends unconfirmed. An
  interrupt at the prompt belongs to the `SIGINT` trap above.
