# ENDIT nearline provider: stage task and watch registry

This project models the core of the dCache ENDIT nearline storage provider.
A dCache pool hands stage (recall), flush and remove requests to the
provider. The provider talks to the external ENDIT daemon only through
files:
- it writes a request file;
- the daemon recalls the data into an in-file, or reports a failure in an
  error file;
- the provider moves the in-file into the pool.

Two pieces of sequential logic carry this handshake, and both are modelled
here.

**The stage task** (`Stage.StageTask`, `stage.dfy`) is a two-phase state
machine over four paths: the replica, the in-file, the error file and the
request file.
- `Start` begins the start phase. It succeeds at once if the in-file is
  already there; otherwise it writes the recall request record.
- `Poll` in the start phase waits for the in-file to appear.
- `Complete` begins the complete phase. There `Poll` waits for the in-file to
  reach its full size, then withdraws the request and arms a grace deadline
  one grace period (1000 ms) later. After the deadline it moves the in-file
  into place.
- An error file fails either phase. The in-file, error file and request file
  are removed whether or not the error file could be read.
- `Abort` removes only the request and error files.

The filesystem is a `map<Path, Entry>` held by a `Files.FileSystem` object
that the methods change in place. The clock is a `now` parameter in
milliseconds. `PollStep` is the specification function that `Poll` is proved
against. `stage_runs.dfy` proves, over any sequence of polls, that the
complete phase never succeeds before a grace period has passed since some
poll found the in-file full.

**The watch registry and task futures** (`Watching.WatchingStorage`,
`watching.dfy`) come from `WatchingEnditNearlineStorage`.
- A future wraps one polling task. A task that can be watched has its paths
  registered in a `map<Path, FutureId>` with insert-if-absent. A clash fails
  the new future as a duplicate. As in the code, registration still goes on
  with the remaining paths.
- Any other task is polled on a schedule; the model counts how often it is
  scheduled.
- `Poll` and `Cancel` move a future from Pending to exactly one of Done,
  Failed and Cancelled. Both unregister only the entries the future owns.
- The watch loop (`Run`, whose watching part is `Watch`) polls everything once, then handles a sequence of
  events: a timeout or an overflow polls everything, and a path event polls
  that path's owner. Finally it cancels the owner of every registered path.

The pure parts of the model are in separate modules:
- `registry.dfy`: `Registered`, `FirstClash` and `Unregistered`;
- `futures.dfy`: `AfterPoll`, `AfterCancel` and the at-most-one-transition
  lemmas.

The class invariant `Consistent` states three things:
- every entry belongs to a watching future that lists that path and is
  either pending or failed as a duplicate before it was ever polled or
  aborted (a future that fails later unregisters itself);
- every pending watching future owns all of its paths;
- identifiers are allocated below `nextId`.

The tasks behind the futures are not modelled: `TaskAnswers` is an oracle.
It gives the reply of the n-th `poll` and the answer of the n-th `abort` of
each future's task. Every call asks afresh, so a task may refuse one abort
and accept a later one.

Two points of the code that the model keeps as written:
- `register()` does not stop at a clash
  (`WatchingEnditNearlineStorage.java:212-215`). It keeps inserting the
  remaining paths, so a future failed as a duplicate can still own later
  paths. `ClashStillClaimsLaterPaths` shows this. Such a future also keeps
  the paths it registered before the clash. Because `poll` and `cancel` do
  nothing on a finished future, none of these entries is ever removed.
- `StageTask.java` has a three-argument constructor and waits its constant
  `GRACE_PERIOD` of 1000 ms, while `AbstractEnditNearlineStorage.java:141-142`
  passes a configured grace period as a fourth argument. The model uses the
  constant.

## Model

| member | source | states |
|---|---|---|
| Files.Moved | src/main/java/org/ndgf/endit/StageTask.java:172 | an atomic move puts the source's entry at the target, removes the source, and leaves every other path as it was |
| Files.FileSystem.DeleteIfExists | src/main/java/org/ndgf/endit/StageTask.java:149-151 | the path is absent afterwards, nothing else changes, and the result says whether it existed |
| Files.FileSystem.Write | src/main/java/org/ndgf/endit/StageTask.java:119 | writing creates or replaces exactly that one path |
| Files.FileSystem.AtomicMove | src/main/java/org/ndgf/endit/StageTask.java:172 | the new directory state is the atomic move of the old one |
| Stage.PollStep | src/main/java/org/ndgf/endit/StageTask.java:141-182 | an error file fails with its lines (or the read failure) and removes all three protocol files; a task in no phase reports the internal bug and changes nothing; the start phase is done exactly when the in-file is a regular file and never changes files; in the complete phase nothing changes before the in-file is full, and the first full poll withdraws the request and arms the deadline at now + 1000; success is always `true`, and in the complete phase it needs a passed deadline and is the move of the in-file to the replica; only the arming poll changes a flag; the flag invariant is preserved |
| Stage.StageTask.constructor | src/main/java/org/ndgf/endit/StageTask.java:68-83 | the paths are derived from the pnfs id and the directories; a fresh task has no deadline (-1), no phase and cannot be watched |
| Stage.StageTask.FilesToWatch | src/main/java/org/ndgf/endit/StageTask.java:92-95 | the watched paths are exactly the error file then the in-file, two distinct paths that include neither the request file nor the replica |
| Stage.StageTask.CanWatch | src/main/java/org/ndgf/endit/StageTask.java:86-89 | under the flag invariant, a stage task may be watched exactly when it is in the start phase, and then it is not in the complete phase |
| Stage.StageTask.Request | src/main/java/org/ndgf/endit/StageTask.java:111-117 | the recall record carries the task's size, the pool's pid, its storage class and path, the action "recall", and the time in whole seconds rounded down from the clock's milliseconds |
| Stage.ErrorFileFailure | src/main/java/org/ndgf/endit/StageTask.java:143-153 | the failure raised for an error file carries its lines when it is readable text, and is otherwise the I/O failure of reading the error file |
| Stage.StageTask.Start | src/main/java/org/ndgf/endit/StageTask.java:100-122 | start enters the start phase and makes the stage task watchable; with the in-file present it answers true and writes nothing; otherwise it writes the recall record (size, pid, time in seconds, storage class, "recall", path) to the request file and answers null |
| Stage.StageTask.Complete | src/main/java/org/ndgf/endit/StageTask.java:129-136 | complete enters the complete phase, leaves the stage task unwatchable, and then behaves as one poll |
| Stage.StageTask.Poll | src/main/java/org/ndgf/endit/StageTask.java:141-182 | the reply, new flags and new files are those of `PollStep`, and the class invariant is kept |
| Stage.StageTask.Checksum | src/main/java/org/ndgf/endit/StageTask.java:185-189 | no checksum is reported |
| Stage.StageTask.Abort | src/main/java/org/ndgf/endit/StageTask.java:192-202 | abort always answers true, removes exactly the request and error files, and leaves the in-file as it was |
| StageRuns.DeadlineFollowsArrival | src/main/java/org/ndgf/endit/StageTask.java:161-175 | through any run of the complete phase, the deadline is unarmed or lies one grace period after a poll that found the in-file full with no error file |
| StageRuns.NeverBeforeGrace | src/main/java/org/ndgf/endit/StageTask.java:161-175 | a successful poll of the complete phase comes at least one grace period after an earlier poll that found the in-file full |
| StageRuns.CompletesAfterGrace | src/main/java/org/ndgf/endit/StageTask.java:161-175 | with a full in-file, the first poll withdraws the request; a poll within the grace period waits, and one after it moves the in-file into place and succeeds |
| Registry.Registered | src/main/java/org/ndgf/endit/WatchingEnditNearlineStorage.java:210-217 | registering removes no entry, and the only new owner it introduces is the registering future |
| Registry.FirstClash | src/main/java/org/ndgf/endit/WatchingEnditNearlineStorage.java:212-215 | the duplicate reported, if any, is one of the future's own paths |
| Registry.Unregistered | src/main/java/org/ndgf/endit/WatchingEnditNearlineStorage.java:219-224 | unregistering adds no entry, and changes nothing for a future that owns no entry |
| Registry.RegisteredEntries | src/main/java/org/ndgf/endit/WatchingEnditNearlineStorage.java:210-217 | registering leaves every listed path registered and adds nothing else, never overwrites an existing entry, and gives every new entry to the registering future |
| Registry.FirstClashNone | src/main/java/org/ndgf/endit/WatchingEnditNearlineStorage.java:212-215 | no duplicate is reported exactly when no listed path is already taken, by another future or earlier in the same list |
| Registry.FirstClashIsFirst | src/main/java/org/ndgf/endit/WatchingEnditNearlineStorage.java:212-215 | the duplicate reported is the first taken path; every path before it was free |
| Registry.RegisterOneMore | src/main/java/org/ndgf/endit/WatchingEnditNearlineStorage.java:212-215 | one more `putIfAbsent` inserts the path only if it is free, and reports it as the duplicate only if it is taken and no earlier one was |
| Registry.UnregisteredEntries | src/main/java/org/ndgf/endit/WatchingEnditNearlineStorage.java:219-224 | unregistering removes exactly the listed paths that map to this future, and every other entry keeps its owner |
| Registry.UnregisterUndoesRegister | src/main/java/org/ndgf/endit/WatchingEnditNearlineStorage.java:210-224 | for a future that owned nothing before, unregistering after registering restores the registry, whether or not registration clashed |
| Registry.ClashStillClaimsLaterPaths | src/main/java/org/ndgf/endit/WatchingEnditNearlineStorage.java:210-217 | a future whose first path is taken is reported as a duplicate and still registers its second, free path |
| Futures.AfterPoll | src/main/java/org/ndgf/endit/WatchingEnditNearlineStorage.java:226-248 | a finished future is left alone; a pending one polls once; a value makes it Done; a failure aborts its task once and fails it with that failure; no answer keeps it pending, and only a polling future schedules another run |
| Futures.AfterCancel | src/main/java/org/ndgf/endit/WatchingEnditNearlineStorage.java:256-272 | a finished future is left alone; otherwise abort is called once; a refusal keeps it pending, a clean abort cancels it, and a throwing abort fails it; the status changes exactly when cancel succeeds |
| Futures.DoneIsFinal | src/main/java/org/ndgf/endit/WatchingEnditNearlineStorage.java:228-229 | once finished, a future is unchanged by any sequence of polls and cancels |
| Futures.AtMostOneTransition | src/main/java/org/ndgf/endit/WatchingEnditNearlineStorage.java:226-272 | over any sequence of polls and cancels a future changes status at most once, and only from Pending |
| Watching.Created | src/main/java/org/ndgf/endit/WatchingEnditNearlineStorage.java:198-208 | a new future keeps its task's paths and has polled and aborted nothing; it watches exactly when its task can be watched and is otherwise scheduled once; it is pending unless registration found a taken path, and then it has failed |
| Watching.RegisterKeepsConsistent | src/main/java/org/ndgf/endit/WatchingEnditNearlineStorage.java:198-217 | creating a watching future and registering its paths keeps the registry consistent, duplicate or not |
| Watching.AddPollingKeepsConsistent | src/main/java/org/ndgf/endit/WatchingEnditNearlineStorage.java:204-207 | creating a polling future keeps the registry consistent |
| Watching.EntriesStayOwned | src/main/java/org/ndgf/endit/WatchingEnditNearlineStorage.java:210-217 | after registering, every entry belongs to a watching future that is pending or failed and lists the path |
| Watching.PendingStaysRegistered | src/main/java/org/ndgf/endit/WatchingEnditNearlineStorage.java:210-217 | after registering, a pending watching future (one with no clash) owns all of its paths |
| Watching.SameStatusKeepsConsistent | src/main/java/org/ndgf/endit/WatchingEnditNearlineStorage.java:235-237 | a poll or cancel that leaves a future pending keeps the registry consistent |
| Watching.ReleaseKeepsConsistent | src/main/java/org/ndgf/endit/WatchingEnditNearlineStorage.java:232-246 | finishing a future and unregistering it keeps the registry consistent |
| Watching.ReleaseFreesPaths | src/main/java/org/ndgf/endit/WatchingEnditNearlineStorage.java:219-224 | after a future is unregistered, no entry maps to it |
| Watching.PollRoundTransitive | src/main/java/org/ndgf/endit/WatchingEnditNearlineStorage.java:135-154 | two successive rounds of polls make one round |
| Watching.PollRoundOnlyPolls | src/main/java/org/ndgf/endit/WatchingEnditNearlineStorage.java:173-178 | a round of polls cancels no future, and a future it changed whose task's last reply was a value is done with that value |
| Watching.PollRoundReleases | src/main/java/org/ndgf/endit/WatchingEnditNearlineStorage.java:173-178 | after a round of polls, every entry's owner is either untouched by the round or still pending, so a future the round finished has unregistered all of its paths |
| Watching.PollPathIsRound | src/main/java/org/ndgf/endit/WatchingEnditNearlineStorage.java:165-171 | polling one path adds no entry or future; entries only disappear, and only when their owner finished; a changed future was a pending watching one, has been polled, keeps its mode, and has the status (and, on a failure, the one extra abort) its task's last poll reply decides |
| Watching.PollPathPolls | src/main/java/org/ndgf/endit/WatchingEnditNearlineStorage.java:173-178 | visiting a path in poll-all has polled the owner that path had at the start, if it was pending then |
| Watching.PollPathStep | src/main/java/org/ndgf/endit/WatchingEnditNearlineStorage.java:173-178 | one visit of poll-all continues the round and adds the visited path's owner to the polled ones |
| Watching.CancelRoundTransitive | src/main/java/org/ndgf/endit/WatchingEnditNearlineStorage.java:158-162 | two successive rounds of cancels make one round |
| Watching.CancelRoundReleases | src/main/java/org/ndgf/endit/WatchingEnditNearlineStorage.java:158-162 | after a round of cancels, every entry's owner is either untouched by the round or still pending, so a future the round finished has unregistered all of its paths |
| Watching.PollsThenCancelsRelease | src/main/java/org/ndgf/endit/WatchingEnditNearlineStorage.java:119-163 | after polls followed by cancels, every entry's owner is either untouched by both or still pending |
| Watching.CancelPathIsRound | src/main/java/org/ndgf/endit/WatchingEnditNearlineStorage.java:158-162 | cancelling one path's owner adds no entry or future, polls nothing, and changes a future only by asking its task to abort again, to the status that answer decides |
| Watching.CancelPathDecides | src/main/java/org/ndgf/endit/WatchingEnditNearlineStorage.java:158-162 | visiting a path in the cancel-all loop has asked the owner it had at the start to abort, and leaves that owner finished exactly when the last abort answer lets cancel succeed |
| Watching.CancelPathStep | src/main/java/org/ndgf/endit/WatchingEnditNearlineStorage.java:158-162 | one visit of the cancel-all loop continues the round and decides the visited path's owner |
| Watching.CancelRoundLeavesRefusers | src/main/java/org/ndgf/endit/WatchingEnditNearlineStorage.java:158-162 | after cancelling everything, a registered future is still pending only if its task refused the last abort it was asked for |
| Watching.WatchingStorage.constructor | src/main/java/org/ndgf/endit/WatchingEnditNearlineStorage.java:51 | the registry starts empty and consistent |
| Watching.WatchingStorage.Schedule | src/main/java/org/ndgf/endit/WatchingEnditNearlineStorage.java:198-208 | a new future gets a fresh id; a watchable one registers its paths and fails as a duplicate on the first clash; any other one is scheduled once and registers nothing; consistency is kept |
| Watching.WatchingStorage.Register | src/main/java/org/ndgf/endit/WatchingEnditNearlineStorage.java:210-217 | the registry becomes `Registered` of the future's paths, and the future fails with the first clash, if there is one |
| Watching.WatchingStorage.Unregister | src/main/java/org/ndgf/endit/WatchingEnditNearlineStorage.java:219-224 | the registry becomes `Unregistered` of the future's paths; no future changes |
| Watching.WatchingStorage.Poll | src/main/java/org/ndgf/endit/WatchingEnditNearlineStorage.java:226-248 | the future becomes `AfterPoll` of its task's reply; the registry loses exactly its entries when the poll finishes it, and then no entry maps to it; consistency is kept |
| Watching.WatchingStorage.Cancel | src/main/java/org/ndgf/endit/WatchingEnditNearlineStorage.java:256-272 | the result is whether cancel succeeded; the future becomes `AfterCancel` of its task's answer to this abort call; a successful cancel unregisters it so that no entry maps to it; consistency is kept |
| Watching.WatchingStorage.PollPath | src/main/java/org/ndgf/endit/WatchingEnditNearlineStorage.java:165-171 | an event for an unregistered path changes nothing; otherwise the path's owner is polled |
| Watching.WatchingStorage.PollAll | src/main/java/org/ndgf/endit/WatchingEnditNearlineStorage.java:173-178 | poll-all is a round of polls, and every future that owned a path at its start and was pending then has been polled; every future it changed now has the status `AfterPoll` gives for its task's last poll reply; no future it finished still owns an entry |
| Watching.WatchingStorage.CancelPath | src/main/java/org/ndgf/endit/WatchingEnditNearlineStorage.java:159-161 | one visit of the cancel-all loop continues the round of cancels and decides the visited path's owner; no future the round finished still owns an entry |
| Watching.WatchingStorage.CancelAll | src/main/java/org/ndgf/endit/WatchingEnditNearlineStorage.java:158-162 | cancel-all is a round of cancels, and every future that owned a path at its start and was pending then has been asked to abort and is finished exactly when its task's last abort answer lets cancel succeed; no future it finished still owns an entry |
| Watching.WatchingStorage.Watch | src/main/java/org/ndgf/endit/WatchingEnditNearlineStorage.java:131-152 | the watch loop, from its first poll-all through every delivered event, is a round of polls in which every future that owned a path at its start and was pending then has been polled; the registry stays consistent |
| Watching.WatchingStorage.Run | src/main/java/org/ndgf/endit/WatchingEnditNearlineStorage.java:119-163 | no future is added or loses its paths; entries only disappear; finished futures are untouched; poll counts only grow; with the watcher set up, every future pending and registered at the start has been polled, and without it nothing is polled; at exit only futures whose task refused the last abort stay registered and pending, and no future the run finished still owns an entry |

## Left out

- Real filesystem I/O. Files are a map from path to entry. A failing write, delete, size query or move is not modelled, except a failed read of the error file. The request record is kept as its fields, not as JSON text; its file size is recorded as 0.
- The one-second sleep before reading the error file, and `System.currentTimeMillis()`. The clock is the `now` parameter.
- The JNA `getpid` call: the process id is a parameter of each stage task.
- The Java `assert` statements in `start` and `complete` are modelled as preconditions: calling `complete` after `start` (or the reverse) is a programming error.
- The grace period configured by the caller: the model uses the constant of the `StageTask` source (see above).
- Stage.StageTask.constructor: it requires the replica path to differ from the in-file, request file and error file, and the request directory to differ from the in-file directory. The directories come from `configure`, which resolves them as distinct subdirectories. The replica path is passed unchecked (`AbstractEnditNearlineStorage.java:141`), and the model assumes the deployment never places it on a protocol file.
- Concurrency: `synchronized`, the atomicity of `ConcurrentHashMap`, executors and the scheduler. Scheduling is the counter in `PollMode`. A scheduled run, which calls `poll`, is the same as `Watching.WatchingStorage.Poll`.
- The iteration order of `tasks.values()`. The loops visit a snapshot of the registered paths in an arbitrary order. Each path's current owner is polled or cancelled when the path is visited, so an owner with two paths can be visited twice, as in the code. Entries added during the loop are not visited.
- The `WatchService`, `WatchKey.reset` and thread interruption. Events are a sequence of `Timeout`, `Overflow` and `PathEvent(p)`. An I/O error while setting up the watcher is the `watching == false` case. Interruption or an I/O error in the loop ends the sequence.
- The Guava `AbstractFuture` internals, `mayInterruptIfRunning`, and exceptions suppressed into the original one: only the four-state terminal discipline is modelled.
- `configure`, `start` and `shutdown` of the storage, and all of `AbstractEnditNearlineStorage` (flush, stage and remove chaining on executors).
- `FlushTask`, `RemoveTask`, `PollingTask`, `EnditException` and `GitId` are not part of this model. The tasks behind futures are given by the `TaskAnswers` oracle.
- Watching.WatchingStorage.Watch: like `Run`, its ensures do not state the per-event dispatch described on the next line.
- Watching.WatchingStorage.Run: its ensures do not state the per-event dispatch: that a `Timeout` or an `Overflow` polls everything and a `PathEvent(p)` polls the owner of `p`. A body that ignores every event would still meet them. They state only that poll counts grow, that every registered pending future is polled at least once by the first poll-all, and the outcome of the final cancel-all. The exact number of polls each future receives is not stated either.
