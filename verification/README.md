# YAPM, modelled and verified in Dafny

YAPM is a process supervisor daemon: it forks children by name, watches them, restarts them within a
budget, keeps their output in bounded log files and starts them behind a system call filter. This project
models that behaviour and proves it correct, or proves exactly when it is.

## The parts

1. **The supervisor as a state machine** (`Machine.dfy`). The state is the process registry, the task
   registry with its three channels, the monitors, the restart channel and its handler, the operations in
   progress, the kernel's children, and a history. `start` and the handler's respawning take one step at the
   fork, at each submission and at the insertion into the registry; `stop`, and giving up after a failed
   submission, take one for the removal and one for the kill (in between, the child is condemned); a monitor
   takes one for reaping its child and one for sending its request. Every other step can come in between:
   another command, a coordinator, an exit. Every foreign call that can fail is an outcome carried by its step. A run is any sequence of enabled
   steps. The only assumption about the kernel is that `fork` returns no pid that is running or not yet
   waited for; pids may be reused after that.
   - `Delivery`, `Admission`, `Children`, `Accounting`, `Budget`: what holds in every run.
   - `Discipline`, `Promises`: when requests and entries correspond. The condition on each step is
     `Discipline.Disciplined`, and it is exact: a run keeps them in correspondence if and only if every step
     of it meets the condition (`Discipline.DisciplineIsExact`).
   - `StopSafety`: what `stop` guarantees with no hypothesis about the rest of the run.
   - `Witnesses`, `Lifetimes`: concrete runs. For each condition there is a run that violates it and fails;
     and the bounds are reached, by disciplined runs.
2. **The objects that change in place** (`Tasks.TaskRegistry`, `Manager.AsyncRuntime`,
   `Manager.CurrentTask`, `Manager.ProcessManager`). Each method is proved to perform exactly the step, or
   the sequence of steps, of the machine that it stands for.
3. **Log retention** (`Logs.dfy`): the truncating write loop over a file opened for append, and the ring of
   recent entries.
4. **Text and policy** (`Text`, `ProcFs`, `Environment`, `Config`, `Seccomp`, `SyscallLists`): the `/proc`
   parsers, `KEY=VALUE` handling and the child's environment, restart and security policies, and the
   compilation of a security policy into filter rules.

## What was found

Each of these is a lemma; the ones that deny a property name a concrete input or run.

- A process that exits before its `start` has entered it makes the handler panic on its request
  (`Witnesses.EarlyExitPanicsTheHandler`). After a disciplined run this is the only request that does
  (`Promises.PanicsIffStillStarting`).
- `stop` can come too early, before the monitor's message is received or its handle registered
  (`Witnesses.StopBeforePickupPanicsTheHandler`, `Witnesses.StopBeforeAttachPanicsTheHandler`), or too late,
  when the child exits between the removal at `src/core/device.rs:174` and the abort at
  `src/core/device.rs:188` (`Witnesses.ExitInsideStopPanicsTheHandler`) or was reaped but not reported yet
  (`Witnesses.StopInsideReportPanicsTheHandler`). Each time a later request finds no entry and the handler
  panics. An uninterrupted `stop` keeps the correspondence exactly if its child is settled: no
  request on its way, its message received and its handle registered (`Promises.StopIsSafeIffSettled`); inside one, exactly the reaping of the condemned child breaks it
  (`Promises.ReapIsSafeIffNotCondemned`).
- `stop` followed by `start` while a request is queued makes the handler drop a live child
  (`Witnesses.StaleRequestDropsALiveChild`), and so does a `start` between the handler's first removal at
  `src/core/device.rs:313` and its second at `src/core/device.rs:325`
  (`Witnesses.SecondRemovalDropsALiveChild`).
- Two concurrent `start`s of one name both pass the check at `src/core/device.rs:75`, and the later insertion
  overwrites a live entry (`Witnesses.SameNameTwiceOrphansAChild`). A `start` is safe exactly if no other
  operation on its name is in progress (`Promises.StartIsSafeIffNameIsFree`).
- A `start` that gives up after its monitor was submitted can leave a request without an entry
  (`Witnesses.LateGiveUpPanicsTheHandler`); giving up is safe exactly if none is on its way
  (`Promises.GivingUpIsSafeIffUnrequested`).
- `stop` reports an error, although the entry is gone, if the process was reaped before the kill
  (`Manager.ProcessManager.StopProcess`).
- If the parent fails to set up its pipes after the fork, the child is neither entered nor killed
  (`Witnesses.FailedPipesOrphanAChild`). There is no other way to lose a child (`Accounting.OrphansAreTheLeaked`,
  `Accounting.LeaksIffStreamsFail`).
- The log loop never resets its size after a truncation, so every line after the first overflow leaves the
  file empty (`Logs.LaterOverflowsEmptyTheFile`). The retention promise holds exactly while no earlier
  iteration overflowed (`Logs.TailIsKeptIffNoEarlierOverflow`); a repaired loop always keeps it.
- `remove_task` drops the pid's whole list from the index; it keeps the registry consistent exactly if the
  task is the pid's only one (`Tasks.RemoveKeepsAgreeIffLast`). No code path of the runtime calls it.
- The `stat` parser counts words, so a command name with a blank in it shifts every field. It is right about
  every record of a process exactly if the command name has no blank (`ProcFs.StatIsReadIffNoBlank`).
- A child reads another environment than the merged one exactly if a configured key, or an inherited key
  that stays, has an equals sign (`Environment.EnvironmentReachesTheChild`). The command line cannot give such
  a key, but a configuration file can (`Environment.FileKeyIsMisread`), and an inherited one may begin with it
  (`Environment.InheritedKeyIsMisread`).
- `no_thread` is documented as preventing thread creation (`src/config.rs:385`); its rule denies only a
  `clone` whose flags are the thread flag alone (`Seccomp.NoThreadDeniesOnlyTheBareFlag`), so the flags of an
  ordinary new thread pass, and so does `clone3` (`SyscallLists.NoThreadLetsThreadsPass`).
- A configuration file's `no_fs` is parsed and never applied, and the command line has no such flag, so no
  policy ever has it (`Config.NoFsIsNeverSet`).
- The labels of standard output and standard error are swapped (`src/threads.rs:632-636`); the model keeps
  them so (`Logs.StreamLabel`). A failed submission of the logging task is ignored (`src/core/logging.rs:193`), so the
  error branches at `src/core/device.rs:116-121` and `src/core/device.rs:380-390` are never taken.

## Model

| member | source | states |
|---|---|---|
| `Tasks.TaskRegistry.Allocate` | src/threads.rs:165-169 | the next id is handed out once and nothing else changes |
| `Tasks.TaskRegistry.RegisterTask` | src/threads.rs:171-183 | the whole new registry: task added as running, without handles, its id at the end of its pid's list |
| `Tasks.TaskRegistry.AddHandle` | src/threads.rs:185-192 | the handle goes to the end of a known task's handles; an unknown task is an error and changes nothing |
| `Tasks.TaskRegistry.UpdateStatus` | src/threads.rs:194-201 | a known task has the new status, its other fields and all other tasks stay; an unknown task is an error and changes nothing |
| `Tasks.TaskRegistry.GetTasksByPid` | src/threads.rs:211-217 | exactly the tasks listed for the pid that exist are returned, in list order; none for an unknown pid |
| `Tasks.TaskRegistry.RemoveTask` | src/threads.rs:219-229 | the task and its pid's whole list disappear; both error cases, and what each leaves behind |
| `Tasks.TaskRegistry.KillByPid` | src/threads.rs:378-396 | every listed task is completed, the handles aborted are exactly theirs, and nothing else changes |
| `Tasks.AdmitKeepsAgree` | src/threads.rs:165-183 | allocate-then-register keeps tasks and pid index in two-way agreement, without duplicates, ids below `next` |
| `Tasks.HandleAndStatusKeepAgree` | src/threads.rs:185-201 | adding a handle and updating a status keep the agreement |
| `Tasks.KillKeepsAgree` | src/threads.rs:378-396 | killing a pid's tasks keeps the agreement |
| `Tasks.ByPidIsFilter` | src/threads.rs:211-217 | under the agreement the lookup through the index returns each task of the pid exactly once and no other |
| `Tasks.DuplicateCheckIsExact` | src/threads.rs:336-346 | the duplicate check finds a task of the type iff any task of that pid and type is registered, whatever its status |
| `Tasks.KillReachesEveryTask` | src/threads.rs:378-396 | killing by pid completes and aborts all tasks of the pid, not only those listed, and no task of another pid |
| `Tasks.RemoveKeepsAgreeIffLast` | src/threads.rs:219-229 | removal keeps the agreement iff the task was its pid's only one |
| `Tasks.RemoveOneKeepsAgree` | src/threads.rs:219-229 | a removal that drops one id from the list always keeps the agreement |
| `Delivery.EveryTaskIsDeliveredOnce` | src/threads.rs:320-376 | in every reachable state a task waits once in its type's channel without handles, or was received once and has 2 or 1 handles, or its send failed; it is never in another channel |
| `Delivery.ChannelsAreInAllocationOrder` | src/threads.rs:325-331 | everything sent over a channel, received or not, is in strictly increasing id order and below `next` |
| `Delivery.AlwaysDelivered` | src/threads.rs:406-592 | registry agreement, delivery and the ownership of aborted handles hold in every reachable state |
| `Admission.PidAdmittedAtMostOnce` | src/threads.rs:353-376 | in no run does a pid become a registry entry twice, even though the kernel may reuse it |
| `Admission.EntriesAreDistinctAndWatched` | src/core/device.rs:128-166 | distinct names hold distinct pids, a key is its configuration's name, and an entry's pid has exactly one process and one metrics task |
| `Admission.MetricsCheckNeverFires` | src/threads.rs:333-346 | the metrics duplicate check can never fail: the process check before it already would have |
| `Admission.ProcessCheckFiresIffSeen` | src/threads.rs:353-371 | the process check fires iff the pid has a process task, so always for a pid entered before |
| `Children.AlwaysSound` | src/core/device.rs:74-171 | in every run entries, operations, messages and monitors name recorded children, each held once |
| `Accounting.AlwaysAccounted` | src/core/device.rs:74-449 | every child the kernel knows is in an operation in progress, was entered, is condemned, was sent SIGKILL, or lost its pipes |
| `Accounting.OrphansAreTheLeaked` | src/core/platform/linux.rs:297-316 | the children nobody ever took charge of are exactly those whose pipes failed after the fork and that no later SIGKILL hit |
| `Accounting.LeaksIffStreamsFail` | src/core/platform/linux.rs:297-316 | a step leaks a child iff it forks one and then fails to set up its pipes |
| `Accounting.FailedSubmissionKills` | src/core/device.rs:128-165 | a failed process or metrics submission condemns the child and ends the handler if it was its own; the kill, carried out at once, hits the child (unless its own monitor reaped it) and completes every task of its pid |
| `Accounting.FinishKills` | src/core/device.rs:187-204 | whenever the kill comes, it hits the condemned child and nobody else unless the child was reaped before, and completes every task of its pid |
| `Accounting.OnlyFinishReleases` | src/core/device.rs:173-204 | a condemned child stays condemned until its kill |
| `Accounting.KillsClearThePid` | src/threads.rs:378-396 | in every reachable state the kill of a condemned child, and the handler's taking of an entry, complete every task of the pid and abort every handle it had |
| `Accounting.FailureIsRecorded` | src/threads.rs:432-440 | a future or monitor that ends with an error marks exactly its own task failed, with the reason; the monitor is gone and nothing is requested |
| `Accounting.ReapedHasExited` | src/core/platform/linux.rs:768-786 | in every run only a process that has exited is reaped and so reported |
| `Accounting.AbandonKills` | src/core/device.rs:92-111 | failing to open metrics or logger sends SIGKILL to the child and nobody else, and leaves the tasks alone |
| `Budget.NeverMoreThanTheBudget` | src/core/task.rs:54-68 | over all interleavings a `Capped(n)` chain has at most max(1, n) incarnations and a `None` chain one |
| `Budget.OnlyTheBudgetChanges` | src/core/device.rs:313-328 | the k-th incarnation carries the first one's configuration, equal in every field but the budget, which is less the restarts already spent |
| `Budget.RefusedExactlyAtTheBudget` | src/core/device.rs:312-328 | the handler refuses a restart iff the chain has used up its policy's incarnations, and otherwise goes on to fork |
| `Lifetimes.AllowedIncarnationsHappen` | src/core/device.rs:312-446 | for any number of incarnations the policy allows and any distinct pids there is a disciplined run in which they follow one another |
| `Lifetimes.CappedProcessUsesItsBudget` | src/core/device.rs:312-446 | for every `Capped(n)` configuration and distinct pids there is a disciplined run in which the process is forked exactly max(1, n) times and then dropped; the bound for all runs is `Budget.NeverMoreThanTheBudget` |
| `Discipline.DisciplineIsExact` | src/core/device.rs:312-316 | for every run: every message, armed monitor, sender and request names the present incarnation in every state, one operation and one request per name, the handler not panicked, iff every step meets its condition |
| `Discipline.NextStepIsExact` | src/core/device.rs:74-449 | after a disciplined run, every enabled step keeps that correspondence iff it meets its condition |
| `Discipline.DisciplineKeepsCorrespondence` | src/core/device.rs:312-316 | a disciplined run ends in a state where requests and entries correspond |
| `Discipline.RequestFindsItsEntry` | src/core/device.rs:312-317 | a request taken in such a state finds its entry, whose child has been reaped |
| `Promises.RequestsMatch` | src/threads.rs:549-591 | in a disciplined run a name has at most one request, queued or about to be sent, for a present incarnation that has exited and been reaped |
| `Promises.TakenRequestIsOfADeadEntry` | src/core/device.rs:312-317 | in a disciplined run the handler never discards a child the kernel still knows |
| `Promises.HandlerNeverPanics` | src/core/device.rs:313 | in a disciplined run the `unwrap` never fails |
| `Promises.PanicsIffStillStarting` | src/core/device.rs:312-313 | after a disciplined run the handler panics on its next request iff a `start` of that name is between fork and insertion |
| `Promises.StartIsSafeIffNameIsFree` | src/core/device.rs:74-89 | after a disciplined run a `start` that forks keeps the correspondence iff no other operation on its name is in progress |
| `Promises.GivingUpIsSafeIffUnrequested` | src/core/device.rs:147-165 | after a disciplined run a lost metrics submission keeps it iff no request for its child is on its way |
| `Promises.StopIsSafeIffSettled` | src/core/device.rs:173-204 | after a disciplined run an uninterrupted `stop` keeps it iff no request is queued or about to be sent, the child's message was received and its handle registered |
| `Promises.ReapIsSafeIffNotCondemned` | src/threads.rs:555-570 | after a disciplined run the reaping of a child keeps it iff the child is not between the removal and the kill of a `stop` or of giving up |
| `Promises.NoChildRunsUnmanaged` | src/core/device.rs:74-449 | in a disciplined run every child the kernel knows is in progress, is a present entry's, is condemned, was sent SIGKILL or lost its pipes |
| `StopSafety.StopNeverCausesARestart` | src/core/device.rs:173-210 | if at the kill of a `stop` the monitor is registered and has not reaped the child, then in no continuation of the run can a monitor of that child reap it or send a request |
| `StopSafety.KillMutesIffReachable` | src/threads.rs:378-396 | in every reachable state the kill silences a condemned child iff its message was received, its handle is registered and it was not reaped |
| `StopSafety.OnlyMonitorsRequest` | src/threads.rs:554-570 | a restart request is queued only by a monitor that has reaped its child, under its own name |
| `Witnesses.UninterruptedStartSucceeds` | src/core/device.rs:74-171 | an uninterrupted `start` of a new name under a new pid ends with exactly that entry added and its three tasks sent |
| `Witnesses.ExitIsReported` | src/threads.rs:549-590 | an exit whose monitor is next in the channel becomes exactly one request at the end of the queue, and the child is reaped |
| `Witnesses.EarlyExitPanicsTheHandler` | src/core/device.rs:313 | a run, for every configuration and pid, in which an exit before insertion panics the handler |
| `Witnesses.StopBeforePickupPanicsTheHandler` | src/core/device.rs:173-210 | a run in which `stop` comes before the monitor is received and its later request panics the handler |
| `Witnesses.StopBeforeAttachPanicsTheHandler` | src/threads.rs:549-591 | a run in which `stop` comes before the received monitor's handle is registered, with the same end |
| `Witnesses.ExitInsideStopPanicsTheHandler` | src/core/device.rs:174-188 | a run in which the child is reaped and reported between the removal and the abort, with the same end |
| `Witnesses.StopInsideReportPanicsTheHandler` | src/threads.rs:555-570 | a run in which the whole `stop` falls between the reaping and the sending, with the same end |
| `Witnesses.LateGiveUpPanicsTheHandler` | src/core/device.rs:147-165 | a run in which a `start` gives up after its process was reported, with the same end |
| `Witnesses.SecondRemovalDropsALiveChild` | src/core/device.rs:313-325 | a run in which the handler's second removal drops a child started after the first |
| `Witnesses.StaleRequestDropsALiveChild` | src/core/device.rs:312-325 | a run in which `stop` and `start` overtake a queued request and the handler drops the new, live child |
| `Witnesses.SameNameTwiceOrphansAChild` | src/core/device.rs:75-166 | a run in which two `start`s of one name leave a live child without an entry |
| `Witnesses.FailedPipesOrphanAChild` | src/core/platform/linux.rs:297-300 | a run in which a fork whose pipes fail leaves a live child nothing knows of |
| `Manager.AsyncRuntime.SubmitLoggingTask` | src/threads.rs:320-331 | registers unconditionally; the result is the new id iff the send succeeded |
| `Manager.AsyncRuntime.SubmitUnique` | src/threads.rs:333-376 | a duplicate changes nothing and is an error; otherwise the task is registered, and the result is the new id iff the send succeeded |
| `Manager.AsyncRuntime.KillTasksByPid` | src/threads.rs:378-396 | the machine's kill step on the runtime |
| `Manager.AsyncRuntime.KillRuntime` | src/threads.rs:398-404 | every handle of every task is aborted and forgotten; statuses and the index stay |
| `Manager.AsyncRuntime.MarkFailed` | src/threads.rs:432-440 | a known task's status becomes failed with the reason |
| `Manager.AsyncRuntime.AttachHandles` | src/threads.rs:481-483 | the coordinator's handles are registered in its order, stderr first |
| `Manager.CurrentTask.RespawnInPlace` | src/core/task.rs:54-68 | the decision and the configuration left behind |
| `Manager.ChecksPassIffUnwatched` | src/threads.rs:333-376 | after the logger's submission, both duplicate checks pass iff the pid never had a process task |
| `Manager.ProcessManager.BeginStart` | src/core/device.rs:75-89 | the name check and the fork, as the machine's first step |
| `Manager.ProcessManager.RegisterUnique` | src/core/device.rs:128-165 | a submission as one machine step; success iff sent and not a duplicate, otherwise the child is condemned |
| `Manager.ProcessManager.FinishKill` | src/core/device.rs:187-204 | aborting a condemned child's tasks and sending it SIGKILL is the machine's step; the signal fails iff the kernel knows nobody under the pid |
| `Manager.ProcessManager.StartProcess` | src/core/device.rs:74-171 | an uninterrupted `start` is a run of the machine, adds exactly its entry iff it reports success, and succeeds iff the name is free, every call but the logger's submission does, and the pid never had a process task |
| `Manager.ProcessManager.RespawnProcess` | src/core/device.rs:326-446 | the handler's respawning is a run of the machine; it succeeds iff every call but the logger's submission does and the pid never had a process task, and its loop survives iff it succeeds |
| `Manager.ProcessManager.StopProcess` | src/core/device.rs:173-210 | an uninterrupted `stop` is the machine's removal and kill; it reports success iff the name was managed and the kernel still knows a process under its pid, and removes the entry either way |
| `Manager.ProcessManager.TakeRequest` | src/core/device.rs:312-326 | taking a request is the machine's step, the panic on a missing entry included |
| `Manager.ProcessManager.DropRefused` | src/core/device.rs:317-325 | the second removal, by name, after a refused respawn |
| `Manager.ProcessManager.MonitorReaps` | src/core/platform/linux.rs:758-787 | reaping the child is the machine's step |
| `Manager.ProcessManager.MonitorSends` | src/threads.rs:568-570 | sending the request is the machine's step, also when the handler is gone |
| `Manager.ProcessManager.StopAll` | src/core/device.rs:285-302 | every handle is aborted, SIGKILL goes to exactly the children the kernel knows under the entries' pids, the failures reported are exactly the entries whose pid it no longer knows, and the entries stay |
| `Logs.LogManager.Push` | src/core/logging.rs:319-321 | the ring is always the last 100 entries of the unbounded history |
| `Logs.LogManager.GetLogs` | src/core/device.rs:451-454 | min(n, 100, total) entries, the k-th being the k-th newest of the history |
| `Logs.LogManager.Displayed` | src/core/logging.rs:328-341 | exactly the last min(n, 100, total) entries of the history, oldest first: `get_logs(n)` reversed |
| `Logs.LinesTellEntriesApart` | src/core/logging.rs:276-288 | two entries with the same formatted line are the same entry, whatever their messages hold |
| `Logs.LineIs` | src/core/logging.rs:276-288 | which parts a line has, in which order and with which marks between them |
| `Logs.TwoDigitsAre` | src/core/logging.rs:276-288 | minutes and seconds are printed as two digits of the same value |
| `Logs.TruncateFile` | src/core/logging.rs:79-91 | seek, read, cut and rewrite leave what lies behind `curr_len - max_len/4`, nothing if that is past the end, or everything if there is no overflow |
| `Logs.StreamToFile` | src/threads.rs:624-653 | the loop over any stream leaves the file of the specification, and the ring's history grows by one labelled entry per line |
| `Logs.LabelledAre` | src/threads.rs:632-645 | the entries kept in the ring have the lines' texts and times, in order, labelled as standard output if they came from standard error and the other way round |
| `Logs.SizeCountsEverything` | src/threads.rs:643 | the loop's `curr_size` is the length of everything ever written, never that of the file |
| `Logs.FileIsABoundedSuffix` | src/threads.rs:637-651 | after every iteration the file is a suffix of initial contents and all lines, at most `max_size` long and no longer than `curr_size` |
| `Logs.NothingIsLostBeforeOverflow` | src/core/logging.rs:81-83 | while everything fits the file is the full history |
| `Logs.FirstOverflowKeepsAQuarter` | src/core/logging.rs:84-89 | at the first overflow the file is exactly the last `max_size / 4` bytes of the history |
| `Logs.LaterOverflowsEmptyTheFile` | src/threads.rs:643-648 | every later iteration leaves the file empty |
| `Logs.TailIsKeptIffNoEarlierOverflow` | src/threads.rs:637-651 | the file keeps min(history, quarter) bytes iff no earlier iteration overflowed, or the quarter is nothing |
| `Logs.RepairedAlwaysKeepsItsTail` | src/threads.rs:637-651 | with the size reset after a truncation the file always keeps at least that tail, as a suffix, within the limit |
| `Logs.RepairChangesNothingBefore` | src/threads.rs:637-651 | the repair agrees with the code up to and including the first overflow |
| `Text.ParseOfDecimal` | src/core/platform/linux.rs:542 | parsing a printed `usize` gives it back |
| `Text.TokensOfJoined` | src/core/platform/linux.rs:600 | splitting words printed with single blanks gives the words back |
| `Text.WhitespaceIsExactly` | src/core/platform/linux.rs:529 | the characters that separate words, by number: tab, newline, vertical tab, form feed, carriage return, space and the others with the White_Space property |
| `Text.WhitespaceSeparates` | src/core/platform/linux.rs:529 | the words of two texts with any such character between them are those of the one, then those of the other |
| `Text.ParseUsizeIsExact` | src/core/platform/linux.rs:542 | a text is read as n iff it is digits of value n, perhaps after one plus sign, and n fits 64 bits |
| `ProcFs.RuntimeMetrics.ParseMemStatus` | src/core/platform/linux.rs:517-548 | on any text each of the seven fields is the number on the last line of its own key that has one, or its old value |
| `ProcFs.LastNumberIsLast` | src/core/platform/linux.rs:527-546 | the last number of a key is that of a line followed by none, and the old value if no line gives one |
| `ProcFs.KernelLineReads` | src/core/platform/linux.rs:529-545 | for every key, number and padding, the line the kernel prints (key, colon, tab, spaces, number, unit) is read as that key and number |
| `ProcFs.ReadStatus` | src/core/platform/linux.rs:517-548 | a status file that has the seven lines, in any order and among any others, sets the seven fields to their values |
| `ProcFs.ReturnsAreDropped` | src/core/platform/linux.rs:525-528 | a carriage return before a newline is no part of the line, one at the end of the text is |
| `ProcFs.RuntimeMetrics.ParseCpuStatus` | src/core/platform/linux.rs:590-618 | on any text: each field's new value, which fields are overwritten before a bad one, and whether that is an error or a panic |
| `ProcFs.FieldsAreExact` | src/core/platform/linux.rs:600-616 | the five fields come from words 13, 14, 15, 16 and 19, each overwritten iff its word and those before it can be read |
| `ProcFs.StatOutcomeIsExact` | src/core/platform/linux.rs:600-617 | it succeeds iff all five can be read, and panics iff the first that cannot lies beyond the line |
| `ProcFs.ReadStat` | src/core/platform/linux.rs:590-618 | for a record with utime, stime, cutime, cstime and num_threads as fields 14 to 17 and 20 and a name without blank, exactly these are left in the five fields |
| `ProcFs.RuntimeMetrics.ParseIoStatus` | src/core/platform/linux.rs:559-588 | on any text: the two numbers, the missing second line, and the panics |
| `ProcFs.StatusRoundTrip` | src/core/platform/linux.rs:517-548 | rendering any values for the seven keys among arbitrary other lines, in any order, and parsing recovers them |
| `ProcFs.StatRoundTrip` | src/core/platform/linux.rs:590-618 | for a record whose command name has no blank the five fields are recovered, whatever they held before |
| `ProcFs.StatFieldsShift` | src/core/platform/linux.rs:600 | for any command name the words of the line are the pid, the words of the name in parentheses, and the rest |
| `ProcFs.StatIsReadIffNoBlank` | src/core/platform/linux.rs:600-616 | for any pid and name: the five fields of every record are recovered iff the name has no blank; otherwise a record of a sleeping process is named that is misread |
| `ProcFs.IoRoundTrip` | src/core/platform/linux.rs:559-588 | a rendered `io` file, whatever follows its first two lines, gives both numbers back |
| `ProcFs.PrefixedIsExact` | src/core/platform/linux.rs:576-585 | a line gives n iff it is the prefix followed by a text that is read as n |
| `Environment.PrintOfParse` | src/config.rs:851-856 | parsing succeeds iff there is an equals sign; printing the result gives the text back, and its key has none |
| `Environment.ParseOfPrint` | src/config.rs:851-856 | a printed pair parses to itself iff its key has no equals sign |
| `Environment.LastPairWins` | src/config.rs:586 | the collected map has the keys given, each with the value given last |
| `Environment.LastTextWins` | src/config.rs:586 | one more `KEY=VALUE` text at the end of the command line sets its key, whatever was given before, and nothing else |
| `Environment.AcceptedIffAllHaveEqualsSigns` | src/config.rs:851-856 | the list of texts is accepted iff every one has an equals sign |
| `Environment.BuildEnvp` | src/core/platform/linux.rs:365-375 | the list prints the configured map over the inherited one, each key once; it panics iff some key or value has an interior NUL |
| `Environment.BuildArgv` | src/core/platform/linux.rs:377-384 | the command and then the arguments; it panics iff one has an interior NUL |
| `Environment.PrintedEnvironmentIsReadBack` | src/core/platform/linux.rs:372-375 | parsing the printed list yields the map iff all its keys are free of equals signs |
| `Environment.EnvironmentReachesTheChild` | src/core/platform/linux.rs:365-375 | for any inherited and configured variables: the child reads exactly the merged map, each key once, iff no configured key and no inherited key that stays has an equals sign |
| `Environment.CommandLineReachesTheChild` | src/config.rs:576-592 | variables from the command line arrive over the inherited ones iff the inherited keys are free of equals signs |
| `Environment.FileKeyIsMisread` | src/utils.rs:236-249 | a configuration file's key `A=B` is read back as `A` |
| `Environment.InheritedKeyIsMisread` | src/core/platform/linux.rs:365-375 | an inherited key `=X` is read back as the empty key |
| `Config.RestartRoundTrip` | src/config.rs:313-328 | every restart policy a `usize` can express has a text that parses to it |
| `Config.RestartTextIsExact` | src/config.rs:313-328 | which texts give which policy: numbers, "none" and "infinite" in any case, and no others |
| `Config.PolicyFromArgs` | src/config.rs:715-751 | the assignments compute the profile with each flag's restriction added, and system manipulation allowed on request |
| `Config.CommandLineMeans` | src/config.rs:715-751 | for each restriction, by which flag or which profiles the command line sets it |
| `Config.PolicyFromFile` | src/config.rs:398-426 | the assignments compute the profile with each given field replaced, `no_fs` excepted |
| `Config.FileMeans` | src/config.rs:398-426 | for each restriction, that a given field decides and otherwise which profiles set it |
| `Config.CommandLineAndFileAgree` | src/config.rs:715-751 | a file that says the same as the flags gives the same policy |
| `Config.NoFsIsNeverSet` | src/config.rs:398-426 | no file and no command line produces `no_fs`, so every policy they produce is valid |
| `Seccomp.InstallFilter` | src/core/platform/linux.rs:332-362 | the imperative construction emits exactly the rules of the policy, in order |
| `Seccomp.FilterContext.AddAll` | src/core/platform/linux.rs:803-809 | the loop over a list adds one unconditional rule per entry |
| `Seccomp.DecisionIsStrictest` | src/core/platform/linux.rs:797-801 | the decision of a filter is the strictest action among the matching rules, or the default |
| `Seccomp.FilterMeansThePolicy` | src/core/platform/linux.rs:332-362 | on every call and all 64-bit arguments the filter answers EPERM iff some flag of the policy forbids the call, and otherwise allows it |
| `Seccomp.DenialIsMonotone` | src/core/platform/linux.rs:340-344 | setting a flag allows nothing new, although `no_fs` replaces the read-only rules |
| `Seccomp.ReadOnlyMeansNoWriteAccess` | src/core/platform/linux.rs:882-925 | under the read-only profile `open` and `openat` are denied iff their flags' access mode is 1 or 2 |
| `Seccomp.NoThreadDeniesOnlyTheBareFlag` | src/core/platform/linux.rs:875-880 | `no_thread` alone denies `clone` iff its flags are the thread flag and nothing else |
| `Seccomp.NoFsTakesPrecedence` | src/config.rs:672-679 | a policy is refused iff it asks for both file system restrictions; compiled all the same it is that of `no_fs` |
| `Seccomp.DefaultAndCustomDeny` | src/config.rs:640-670 | for any lists, these profiles deny exactly the system manipulation list |
| `Seccomp.ReadOnlyDenies` | src/config.rs:640-670 | it denies exactly the file writing list, opening for writing, and system manipulation |
| `Seccomp.IsolatedDenies` | src/config.rs:640-670 | it denies exactly the network, process creation, process control, ipc, file-based ipc and system manipulation lists |
| `Seccomp.SandboxedDenies` | src/config.rs:640-670 | it denies exactly what isolated denies, the file writing list, and opening for writing |
| `SyscallLists.ShippedListsAreUsual` | src/core/platform/consts.rs:3-146 | the shipped lists satisfy what the theorems above require of lists |
| `SyscallLists.ShippedFiltersMeanThePolicy` | src/core/platform/consts.rs:3-146 | the meaning theorem for the shipped lists, without a hypothesis |
| `SyscallLists.ShippedDefaultAndCustomDeny` | src/core/platform/consts.rs:118-129 | call by call, what these profiles deny over the shipped lists |
| `SyscallLists.ShippedReadOnlyDenies` | src/core/platform/consts.rs:26-56 | call by call, what the read-only profile denies |
| `SyscallLists.ShippedIsolatedDenies` | src/core/platform/consts.rs:3-146 | call by call, what the isolated profile denies |
| `SyscallLists.ShippedSandboxedDenies` | src/core/platform/consts.rs:3-146 | call by call, what the sandboxed profile denies |
| `SyscallLists.ShippedNoFsDenies` | src/core/platform/consts.rs:26-76 | call by call, what `no_fs` beside the default denies |
| `SyscallLists.ProfilesAreOrdered` | src/config.rs:640-670 | sandboxed denies what isolated and read-only deny, and those what default denies |
| `SyscallLists.ShippedFiltersAllowExecve` | src/core/platform/consts.rs:3-146 | no policy denies the child its own `execve` |
| `SyscallLists.NoThreadLetsThreadsPass` | src/core/platform/linux.rs:875-880 | `no_thread` without `no_process` allows `clone3`, and `clone` with the flags of an ordinary new thread |

## Left out

- Real fork, exec, pipes, pidfd, cgroups and libseccomp: represented by outcomes of steps; a filter means the strictest matching rule.
- Taking a request (removal, kill, respawn decision) is one step: a step between the handler's removal and its kill is not modelled. In a disciplined run the taken child has been reaped, so no monitor is left for that kill.
- A kill (abort and SIGKILL) is one step, at the time of the abort: `start` giving up sends SIGKILL first, `stop` and the handler abort first. The exit that an earlier SIGKILL would cause is an exit like any other, possible at any time.
- A handler that gives up is recorded as gone at the failed submission, not after its cleanup; it takes no request in between.
- Failures of locking, that is, poisoned mutexes and the order of locks: no deadlock freedom is claimed.
- Liveness: a failed respawn ends the handler, and the proofs say so; that a request is eventually taken is not stated.
- `stop_all` and `kill_runtime` are methods, but not steps of the machine: the daemon ends after them.
- The metrics and streaming futures appear in the machine only by the status they leave when they fail; the values they collect are in `ProcFs` and `Logs`.
- `TaskInfo` without `created` and `desc`, and the log messages of the supervisor itself: nothing decides by them.
- Resource limits, CPU tables, path validation, the client and its socket, `display_process_details`, colours: plumbing or finite tables.
- `PRIVILEGE_ESCALATION_SYSCALLS` and `seccomp_no_escalate`: not reached from a policy.
- That every listed name resolves to a system call on the machine at hand: assumed.
- Text is a sequence of characters of one byte each with ASCII case and the blanks below 128; byte lengths and `split_whitespace` agree there.
- `Logs.StreamToFile`: writes are complete, one writer per file, `curr_size` starts as the file's length and does not overflow; a failing read or write ends the source's loop and is not modelled.
- `Logs.LogManager.Push`: the circular buffer crate is represented by a sequence that drops its front at 100 entries.
- `Logs.Formatted`: the year is not negative.
- `Environment.BuildEnvp`: the map's order of iteration is any order.
