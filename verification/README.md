# Verified models of the concurrent and file-handling programs

This project models eight programs of a Unix programming course and proves what they do over all inputs and all
interleavings.

- `HaltBand`, `HaltBandProgram`: two threads share a counter under two different mutexes; one of them waits while the
  counter is inside a band. The three constants are parameters.
- `BoundedStack`: histories of a bounded last-in-first-out buffer and the orders in which it can be emptied.
- `CondvarBuffer`, `CondvarBufferProgram`: the producer and the consumer that wait on condition variables.
- `SpinBuffer`, `SpinBufferProgram`: the producer and the consumer that test the fill count outside the lock. Capacity,
  number of iterations and the characters produced are parameters of both buffer programs.
- `ForkOutput`, `ForkProgram`: a chain of forked processes printing through stdio buffers, for any depth and any text
  that is still unflushed when the first process forks.
- `ProcessGroups`, `GroupFormation`, `GroupFormationProgram`: six processes that form a process group with a hand-off
  through a FIFO.
- `GroupSignal`, `GroupSignalProgram`, `GroupSignalOutcomes`: the same with a shared cell, an alarm and a group signal.
- `Truncate`: the byte-writing loops of `mytruncate`.
- `LinkChain`, `RealPath`: the link-chasing loops of `myrealpath`.
- `Schedules` and `Counting` hold what the models share: runs under a scheduler, and pigeonhole counting.

Each concurrent program appears twice. As a state machine it is a total step function; a schedule is a sequence of
choices, and choosing somebody who cannot move changes nothing, so that a statement about all schedules is a statement
about all interleavings. As a program it is a class whose methods update shared variables and arrays in place, one atomic
step at a time; each method is proved to be the step of the state machine, and `Execute` runs the class under an
arbitrary scheduler.

## What the model assumes

- Reads and writes of shared variables are sequentially consistent single steps. Each comparison in a condition is a
  separate read, and `count++` is a load followed by a store.
- `pthread_cond_wait` releases the mutex and starts waiting in one step. Spurious wakeups are part of all safety results
  and are excluded only where a run has to end.
- `fork`, `mmap`, `signal`, `alarm` and `sleep` succeed; `mkfifo` fails if the name exists; pids are fresh, so that no
  outside process is in the new group; sleeping processes stay alive; moving the sleeping child with `setpgid` succeeds.
  That process 5's own `setpgid` succeeds, that its read does not meet the end of the file, and that `mkfifo` finds no
  FIFO, is proved.
- A write of one id to the FIFO is atomic. An open of the FIFO completes once the other side has come to open it too.
- The alarm may expire at any moment while it is armed. Its signal may be delivered later, at any instruction of
  process 0, but no system call returns to user code while it is pending. Without a handler it would end process 0.
- One flush of a stdio buffer is one atomic write.
- `lseek` and `write` may fail at any call; a failed call changes nothing.
- `readlink` answers by the spelling of a path, from an arbitrary finite map.

## Where the programs differ from their comments

- The comment in the fork program names one output for line-buffered printing. It is one of several: the outputs are
  exactly the linear extensions described below.
- The comment in the signalling program asks whether process 5 can find -2 in the cell. It can, and the group is still
  signalled if process 5 publishes before process 0 looks. Both values are possible, and no others.
- The same program lets process 5 publish before it installs its handler, and processes 3 and 4 install theirs at any
  time: the signal can find any subset of the group prepared, also none of it.
- `myrealpath` follows links as pathname resolution does only where the guard of its loop body is right; it drops
  directories with a dot, looks up plain targets in the directory it started from, and puts a directory in front of
  absolute targets.
- `mytruncate` leaves a file that is one byte longer than the larger of the old length and the requested one, unless they
  are equal. As a stream of bytes followed by zeros the result is right.

## Model

| member | source | states |
|---|---|---|
| HaltBand.LostWakeupExactly | test_pthreads/condition_variable.c:27-59 | For all integer constants: a schedule without spurious wakeups can leave thread 1 asleep with thread 2 returned if and only if `HALT1 <= HALT2` and `HALT1 <= D <= HALT2 + 1`, where `D = max(DONE, 1)` |
| HaltBand.ClearBandIsSafe | test_pthreads/condition_variable.c:4-6 | The constants of the program (any `0 <= HALT1 <= HALT2`, `HALT2 + 1 < DONE`) lose no wakeup |
| HaltBand.FinalCountsExactly | test_pthreads/condition_variable.c:34-40 | For all integer constants: the values of `count` with which both threads can return, exactly: `D + 1` if 0 is outside the band or `D > HALT2`, and `D` if `D > 1` and 0 is outside the band or `D > HALT2 + 1` |
| HaltBand.SignalWakesPastBand | test_pthreads/condition_variable.c:47-49 | In every reachable state, spurious wakeups included, thread 2 wakes thread 1 only when `count > HALT2` |
| HaltBand.WokenPastBand | test_pthreads/condition_variable.c:30-32 | Without spurious wakeups a woken thread 1 finds `count > HALT2`: it never waits again |
| HaltBand.SignalsOutsideBand | test_pthreads/condition_variable.c:47-52 | Over all schedules: each increment of thread 2 from below the band follows a signal in the same lap, and none from inside it does, but for the lowest value, which thread 1 may have reached after the test |
| HaltBand.CriticalSections | test_pthreads/condition_variable.c:29-53 | Tests of the band, waiting and signalling happen under the condition mutex, increments and printing under the other |
| HaltBand.QuiescentStates | test_pthreads/condition_variable.c:27-59 | Over all schedules, spurious wakeups included, somebody can move unless both threads returned or thread 1 is stranded |
| HaltBand.StrandedOnlyIfBandReachesGoal | test_pthreads/condition_variable.c:30-32 | No schedule at all strands thread 1 outside that condition, although `count` is written under another mutex than the waiter holds |
| HaltBand.StrandingSchedule | test_pthreads/condition_variable.c:44-59 | Builds a stranding schedule for every configuration that satisfies the condition |
| HaltBand.RunsEnd | test_pthreads/condition_variable.c:27-59 | Without spurious wakeups no scheduling makes more than `20 (D + 1) + 21` moves |
| HaltBand.StepLowersRank | test_pthreads/condition_variable.c:27-59 | Every step a thread can take, in every reachable state, lowers the rank behind that bound |
| HaltBand.CompletedRun | test_pthreads/condition_variable.c:34-40 | When nobody can move in a safe configuration, both threads returned, `count` is `D` or `D + 1`, and the printed values are 1, 2, ..., `count` in order, each once |
| HaltBand.PrintedSoFar | test_pthreads/condition_variable.c:34-37 | At every moment the printed values are 1, 2, ... without gap or repetition, at most one behind `count`, and `count <= D + 1` |
| HaltBand.BandWritesOfOne | test_pthreads/condition_variable.c:30-35 | Over a whole run thread 1 performs at most one increment whose old value lies in the band |
| HaltBand.BandIsCrossedByTwo | test_pthreads/condition_variable.c:47-52 | Once the band is crossed, thread 2 has performed all of its increments but at most one |
| HaltBand.StepKeepsWaiting | test_pthreads/condition_variable.c:30-31 | While thread 1 waits, `count` is in the band, or one past it with thread 2 still to notice |
| HaltBand.StepKeepsStopping | test_pthreads/condition_variable.c:38-40 | `count` plus the number of threads committed to another increment never exceeds `D + 1` |
| HaltBandProgram.Counter.ThreadOne | test_pthreads/condition_variable.c:27-42 | One atomic step of thread 1 on the shared variables is the step of the state machine |
| HaltBandProgram.Counter.ThreadTwo | test_pthreads/condition_variable.c:44-59 | One atomic step of thread 2 is the step of the state machine; that the test of line 47 decides when it signals is `HaltBand.SignalsOutsideBand` and `HaltBand.SignalWakesPastBand` |
| HaltBandProgram.Counter.Execute | test_pthreads/condition_variable.c:15-25 | Under any scheduler the program comes to a stop: finished with the promised count and output, or stranded in a configuration that allows it |
| BoundedStack.ReplayOrdered | test_pthreads/condition_variable_mutex_lock_unlock.c:17-19 | In every bounded history the buffer is an increasing stack of item numbers, no larger than the capacity, disjoint from the consumed items and together with them complete |
| BoundedStack.YoungerOutFirst | test_pthreads/condition_variable_mutex_lock_unlock.c:33-35 | Last in, first out: when an item is consumed, all younger items produced before some earlier consumption are out already |
| BoundedStack.NoCABOrder | test_pthreads/condition_variable_mutex_lock_unlock.c:33-35 | No history consumes `c`, then `a`, then `b` with `a < b < c` |
| BoundedStack.FewOlderAfter | test_pthreads/condition_variable_mutex_lock_unlock.c:3-5 | At most `MAX - 1` older items are consumed after any item |
| BoundedStack.ConsumableExactly | test_pthreads/condition_variable_mutex_lock_unlock.c:10-40 | The consumption orders of `n` items are exactly the arrangements without that pattern in which no item overtakes `MAX` or more older ones |
| BoundedStack.FollowsPush | test_pthreads/condition_variable_mutex_lock_unlock.c:17-18 | Storing at index `count` makes the array hold the stack after the push |
| BoundedStack.FollowsPop | test_pthreads/condition_variable_mutex_lock_unlock.c:33-34 | Printing index `count - 1` and shortening leaves the stack after the pop |
| CondvarBuffer.BufferIsReplayedStack | test_pthreads/condition_variable_mutex_lock_unlock.c:10-40 | Over all schedules: no access out of bounds, `0 <= count <= MAX`; outside critical sections `buf[..count]` is the stack replayed from the lock-order history, and the output is what that history pops |
| CondvarBuffer.NoDeadlock | test_pthreads/condition_variable_mutex_lock_unlock.c:10-40 | For every `N` and `MAX >= 1`: if nobody can move, both threads are done, `count == 0`, and the history is complete |
| CondvarBuffer.RunsEnd | test_pthreads/condition_variable_mutex_lock_unlock.c:10-40 | Without spurious wakeups no scheduling makes more than `24 N + 22` moves |
| CondvarBuffer.StepLowersRank | test_pthreads/condition_variable_mutex_lock_unlock.c:14-20 | Every step a thread can take lowers the rank behind that bound, a signal paying for the waiter it wakes |
| CondvarBuffer.StepKeepsSleeping | test_pthreads/condition_variable_mutex_lock_unlock.c:14-16 | A sleeping producer means a full buffer or a consumer about to signal, and dually |
| CondvarBuffer.SignalledThreadProceeds | test_pthreads/condition_variable_mutex_lock_unlock.c:14-20 | Without spurious wakeups a woken producer finds room and a woken consumer an item |
| CondvarBuffer.CriticalSections | test_pthreads/condition_variable_mutex_lock_unlock.c:13-21 | Over all schedules: count and array are used, and the other thread signalled, only with the lock held |
| CondvarBuffer.ScheduleFor | test_pthreads/condition_variable_mutex_lock_unlock.c:10-40 | Builds a schedule that follows any given bounded history |
| CondvarBuffer.HistoriesExactly | test_pthreads/condition_variable_mutex_lock_unlock.c:10-40 | The completed runs produce exactly the sequences of `N` pushes and `N` pops with every prefix between 0 and `MAX` |
| CondvarBuffer.ConsumptionExactly | test_pthreads/condition_variable_mutex_lock_unlock.c:30-38 | The orders in which completed runs consume their items, exactly |
| CondvarBufferProgram.Buffer.ProducerStep | test_pthreads/condition_variable_mutex_lock_unlock.c:10-24 | One atomic step of the producer, on a real array, is the step of the state machine |
| CondvarBufferProgram.Buffer.ConsumerStep | test_pthreads/condition_variable_mutex_lock_unlock.c:26-40 | The same for the consumer |
| CondvarBufferProgram.Buffer.Execute | test_pthreads/condition_variable_mutex_lock_unlock.c:42-55 | Under any scheduler both loops finish with an empty buffer and every item consumed in a bounded stack order |
| SpinBuffer.TestOutsideLockIsSafe | test_pthreads/mutex_lock_unlock.c:11-18 | Over all schedules: the test made outside the lock still holds at the access, no access is out of bounds, the two spin conditions never both hold, array and output follow the history |
| SpinBuffer.ProgressUntilDone | test_pthreads/mutex_lock_unlock.c:10-38 | Some thread can do more than spin until both are done; then the history is complete |
| SpinBuffer.ProgressIsBounded | test_pthreads/mutex_lock_unlock.c:10-38 | Spinning apart, no scheduling makes more than `16 N + 14` moves |
| SpinBuffer.StepKeepsLocking | test_pthreads/mutex_lock_unlock.c:26-33 | A successful spin test stays true until the thread itself stores the count |
| SpinBuffer.CriticalSections | test_pthreads/mutex_lock_unlock.c:13-18 | Over all schedules: array and count are changed only with the lock held, and the spin test runs without it |
| SpinBuffer.HistoriesExactly | test_pthreads/mutex_lock_unlock.c:10-38 | The completed runs produce exactly the complete bounded histories |
| SpinBuffer.SameHistoriesAsCondvar | test_pthreads/mutex_lock_unlock.c:10-38 | Both buffer programs complete exactly the same push/pop histories |
| SpinBufferProgram.Buffer.ProducerStep | test_pthreads/mutex_lock_unlock.c:10-23 | One atomic step of the producer on a real array, vain turns of the spin loop included |
| SpinBufferProgram.Buffer.ConsumerStep | test_pthreads/mutex_lock_unlock.c:25-38 | The same for the consumer |
| SpinBufferProgram.Buffer.Execute | test_pthreads/mutex_lock_unlock.c:40-51 | Under any scheduler that grants finitely many vain turns both loops finish, every item consumed |
| ForkOutput.FullyBufferedOutputsExactly | test_fork_printf_buffering/fork_printf_buffering.c:50-61 | Fully buffered, a chain of any depth has exactly one output over all schedules: bottom-up, each process writes the text that was pending before the first fork and its own tokens |
| ForkOutput.PendingAtFork | test_fork_printf_buffering/fork_printf_buffering.c:50-52 | A fork copies the pending text and nothing else |
| ForkOutput.TailLength | test_fork_printf_buffering/fork_printf_buffering.c:50-52 | So the pending text is written once for each of the `n + 1` processes, every token once |
| ForkOutput.LinesWithPendingExactly | test_fork_printf_buffering/fork_printf_buffering.c:50-52 | Line buffered with pending text, the outputs are exactly the linear extensions with the pending text put before the first token of each process |
| ForkOutput.EmptyAtFork | test_fork_printf_buffering/fork_printf_buffering.c:69-74 | With nothing pending, as in the program, every stdio buffer is empty when its process forks |
| ForkOutput.LineOutputsExactly | test_fork_printf_buffering/fork_printf_buffering.c:68-83 | Line buffered with nothing pending, the outputs are exactly the linear extensions of: 2i before 2i+1, and a child's last token before its parent's second |
| ForkOutput.FinishedLineOutput | test_fork_printf_buffering/fork_printf_buffering.c:68-83 | Every finished line-buffered run printed such an extension, each token once |
| ForkOutput.FullOutputIsLineOutput | test_fork_printf_buffering/fork_printf_buffering.c:9-21 | The one fully buffered output is itself such an extension: buffering neither loses nor repeats a token |
| ForkOutput.PrintAll | test_fork_printf_buffering/fork_printf_buffering.c:68-83 | Builds a schedule for every such extension |
| ForkOutput.RunsEnd | test_fork_printf_buffering/fork_printf_buffering.c:68-83 | No scheduling makes more than `6 (n + 1)` moves, and when nobody can move all processes have exited |
| ForkOutput.DepthTwoFullyBuffered | test_fork_printf_buffering/fork_printf_buffering.c:9-10 | For the program itself the one fully buffered output is 4 2 3 0 1 |
| ForkOutput.DepthTwoTopDown | test_fork_printf_buffering/fork_printf_buffering.c:20-21 | The documented line-buffered output 0 2 4 3 1 is possible |
| ForkOutput.DepthTwoInterleaved | test_fork_printf_buffering/fork_printf_buffering.c:20-29 | It is not the only one: 2 4 3 0 1 is possible too |
| ForkProgram.Processes.Print | test_fork_printf_buffering/fork_printf_buffering.c:7 | What `printf` does to the output and to the process's buffer in each mode |
| ForkProgram.Processes.Step | test_fork_printf_buffering/fork_printf_buffering.c:69-82 | One instruction of a process, on arrays of program counters and buffers, is the step of the state machine |
| ForkProgram.Processes.Execute | test_fork_printf_buffering/fork_printf_buffering.c:68-83 | Under any scheduler all processes exit, with the one buffered output or a linear extension, pending text included |
| GroupFormation.HandOffOrdersGroups | assignment_7/change_process_group.c:36-52 | Process 5 reads the full id that process 3 wrote, and only after processes 3 and 4 are in the new group |
| GroupFormation.GroupForms | assignment_7/change_process_group.c:26-151 | Opens and read never block for ever: when nobody can move all sleep, the new group is exactly processes 3, 4 and 5, and the id has been handed over |
| GroupFormation.NewGroup | assignment_7/change_process_group.c:102-107 | In every reachable state the new group contains nobody but 3, 4 and 5, and all three once 5 has joined |
| GroupFormation.JoinsNewGroup | assignment_7/change_process_group.c:52-55 | When process 5 calls `setpgid` the group exists, so the call succeeds |
| GroupFormation.MkfifoFindsNoFifo | assignment_7/change_process_group.c:111-117 | Over all schedules: `mkfifo` is called only while there is no FIFO, so it succeeds; with a FIFO left behind it is never called, and process 3 never fails |
| GroupFormation.OpensMeet | assignment_7/change_process_group.c:36-46 | Neither process gets past its open before the other has come to open; process 5 opens only an existing FIFO, and never meets the end of the file |
| GroupFormation.EntryOrder | assignment_7/change_process_group.c:102-107 | Processes 0, 1 and 2 stay in their group; 3, 4 and 5 enter the new one in this order |
| GroupFormation.BirthOrder | assignment_7/change_process_group.c:16-79 | The tree of the six processes: 1 before 2 and 5, 2 before 3, 3 before 4 |
| GroupFormation.RunsEnd | assignment_7/change_process_group.c:12-153 | Busy waiting apart, no scheduling makes more than 29 moves |
| GroupFormationProgram.Processes.Turn | assignment_7/change_process_group.c:12-153 | One instruction of a process on the shared state is the step of the state machine |
| GroupFormationProgram.Processes.Turn3 | assignment_7/change_process_group.c:78-141 | One instruction of process 3 on the shared state is the step of the state machine; what the test of line 111 is for is `GroupFormation.MkfifoFindsNoFifo` |
| GroupFormationProgram.Processes.Turn5 | assignment_7/change_process_group.c:26-58 | One instruction of process 5 on the shared state |
| GroupFormationProgram.Processes.ForkChild | assignment_7/change_process_group.c:16 | A fork puts the child into its parent's group |
| GroupFormationProgram.Processes.Execute | assignment_7/change_process_group.c:12-153 | Under any scheduler all processes come to sleep with the group complete |
| GroupSignal.RunErases | assignment_8/signal_process_group.c:62-278 | Every run, with cell, alarm and handler erased, is a run of the group-forming program |
| GroupSignal.KillHitsNewGroup | assignment_8/signal_process_group.c:253 | Over all interleavings with the alarm: at most one group signal, sent to process 3's new group, which at that moment is exactly processes 3, 4 and 5 |
| GroupSignal.CellHistory | assignment_8/signal_process_group.c:21-31 | The cell is set to -1, then at most one -2 and at most one id, in either order; the id is there exactly when process 5 has published |
| GroupSignal.DecisionIsStable | assignment_8/signal_process_group.c:242-253 | If the check against -2 passes, the cell holds the new group's id then and for ever, whether or not the alarm fired before |
| GroupSignal.NoLateTimeout | assignment_8/signal_process_group.c:241 | No -2 is stored after `alarm(0)` has returned |
| GroupSignal.ExpiredAlarmIsNotLost | assignment_8/signal_process_group.c:239-242 | Over all schedules: once the alarm has expired, also during `alarm(0)`, -2 is stored before the program comes to rest |
| GroupSignal.ExpiryAfterPublicationAbandons | assignment_8/signal_process_group.c:240-245 | If it expires after publication, every continuation that comes to rest gives up without a signal |
| GroupSignal.HandlerPrecedesAlarm | assignment_8/signal_process_group.c:235-239 | The handler is installed before the alarm is armed: a delivered signal runs it and never ends process 0 |
| GroupSignal.ShownValues | assignment_8/signal_process_group.c:103-111 | The value of the cell that process 5 prints is -1, or -2 if the handler came first; process 0 prints the id it signals |
| GroupSignal.MkfifoFindsNoFifo | assignment_8/signal_process_group.c:186-192 | The result about `mkfifo`, carried over by refinement |
| GroupSignal.HandOffOrdersGroups | assignment_8/signal_process_group.c:82-102 | The hand-off result of the smaller program, carried over by refinement |
| GroupSignal.GroupIsSignalledOrTimeout | assignment_8/signal_process_group.c:229-276 | When nobody can move the group is complete and published, all handlers are installed, and process 0 has signalled the group or has given up after its alarm |
| GroupSignal.StepErases | assignment_8/signal_process_group.c:62-278 | Each step is the same step of the group-forming program, or is not seen there |
| GroupSignal.SignalledWithoutTimeout | assignment_8/signal_process_group.c:239-253 | If the alarm does not expire the group is always signalled |
| GroupSignal.ProgressIsBounded | assignment_8/signal_process_group.c:33-278 | Busy waiting apart, no scheduling makes more than 79 moves |
| GroupSignalOutcomes.OutcomesExactly | assignment_8/signal_process_group.c:103-119 | The four combinations of cell history and outcome that can occur, exactly: the alarm may fire before publication and the group still be signalled, and the group may be ready and yet abandoned |
| GroupSignalOutcomes.AlarmThenPublished | assignment_8/signal_process_group.c:103-119 | A run in which the alarm fires first, process 5 prints -2, and the group is signalled all the same |
| GroupSignalOutcomes.ShownExactly | assignment_8/signal_process_group.c:103-111 | The values that process 5 can print in runs that end with the signal are exactly -1 and -2, which answers the question in the comment |
| GroupSignalOutcomes.AlarmAtDisarm | assignment_8/signal_process_group.c:240-245 | A run in which the alarm expires when process 0 has seen the id and is about to call `alarm(0)`; it ends abandoned |
| GroupSignalOutcomes.ReadyExactly | assignment_8/signal_process_group.c:119-125 | The members that can have their SIGUSR1 handler installed when the signal is sent: exactly any subset of 3, 4 and 5, the empty one included |
| GroupSignalOutcomes.SignalsReady | assignment_8/signal_process_group.c:168-253 | Builds the run for each subset |
| GroupSignalOutcomes.PublishedThenAlarm | assignment_8/signal_process_group.c:240-245 | A run in which the id is published and the alarm makes process 0 give up |
| GroupSignalProgram.Processes.MainStep | assignment_8/signal_process_group.c:61-276 | One instruction of process 0 on the shared state is the step of the state machine; that `alarm(0)` keeps an expired alarm is `GroupSignal.ExpiredAlarmIsNotLost` |
| GroupSignalProgram.Processes.Prepare | assignment_8/signal_process_group.c:61-239 | Its instructions up to the arming of the alarm |
| GroupSignalProgram.Processes.Handler | assignment_8/signal_process_group.c:21-31 | The alarm handler stores -2 |
| GroupSignalProgram.Processes.StoreCell | assignment_8/signal_process_group.c:119 | A store replaces the value of the shared cell |
| GroupSignalProgram.Processes.Turn3 | assignment_8/signal_process_group.c:147-221 | One instruction of process 3 on the shared state; for the test of line 186 see `GroupSignal.MkfifoFindsNoFifo` |
| GroupSignalProgram.Processes.TurnOther | assignment_8/signal_process_group.c:66-76 | One instruction of process 1, 2 or 4 |
| GroupSignalProgram.Processes.Turn5 | assignment_8/signal_process_group.c:72-128 | One instruction of process 5 on the shared state |
| GroupSignalProgram.Processes.Turn | assignment_8/signal_process_group.c:33-278 | One choice of the scheduler: an instruction of a process, expiry or delivery of the alarm |
| GroupSignalProgram.Processes.Execute | assignment_8/signal_process_group.c:33-278 | Under any scheduler all comes to rest with the group complete, and signalled or abandoned after a timeout |
| Truncate.StreamLikeFtruncate | assignment_1/truncate.c:16-43 | As a zero-padded stream a successful call leaves what POSIX `ftruncate` leaves |
| Truncate.LengthLeft | assignment_1/truncate.c:24-41 | The length left is `max(L, offset) + 1`, or `L` when `L == offset` |
| Truncate.WritesInNumbers | assignment_1/truncate.c:24-41 | Growing takes exactly `offset - L` writes, `k > 0` of which leave length `L + 1 + k`; shrinking takes `L - offset + 1`, and the length stays `L` before the last |
| Truncate.ExactOnlyWhenUnchanged | assignment_1/truncate.c:16-43 | The file itself is what `ftruncate` leaves if and only if `L == offset` |
| Truncate.FailureKeepsPrefix | assignment_1/truncate.c:25-27 | After a failed write the first `min(L, offset)` bytes are intact and every other byte is old or zero |
| Truncate.LengthAfterCalls | assignment_1/truncate.c:9-44 | `k` successful calls leave length `max(L, offset) + k` when `L != offset`; `L == offset` is a fixed point; the stream stays that of `ftruncate` |
| Truncate.File.Seek | assignment_1/truncate.c:10-20 | `lseek` to an absolute position, which fails for a negative one |
| Truncate.File.WriteByte | assignment_1/truncate.c:25 | A one-byte write at the file offset, with the gap before it reading as zeros, or a failure that changes nothing |
| Truncate.File.Truncate | assignment_1/truncate.c:9-44 | When the call succeeds, how many writes it makes, and the exact contents and length after success and after a failure at any write; 32-bit counters do not overflow |
| LinkChain.EndsExactly | assignment_2/realpath.c:93-113 | A chain of links ends if and only if it is acyclic |
| LinkChain.WalkIsShort | assignment_2/realpath.c:93-113 | A walk through links without repetition is no longer than the directory has links |
| LinkChain.EndIsUnique | assignment_2/realpath.c:116 | The name that is no link at the end of a chain is unique |
| RealPath.LastName | assignment_2/realpath.c:60-75 | What `dirname` and `basename` return for every path with a last name, repeated and trailing slashes included |
| RealPath.SplitPath | assignment_2/realpath.c:60-75 | Every path but the empty one and the root has such a last name |
| RealPath.ContainsExactly | assignment_2/realpath.c:59-60 | `strstr` finds exactly the strings with an occurrence somewhere |
| RealPath.ParentTarget | assignment_2/realpath.c:98-105 | A target with `..` is put behind the directory of the link just read, wherever the search started, unless that has a dot or is not spelled out |
| RealPath.PlainTarget | assignment_2/realpath.c:106-110 | Any other target is put behind the directory of the start path, wherever the search has come to |
| RealPath.NextPathExactly | assignment_2/realpath.c:98-110 | For all paths and targets: the loop body computes the path that POSIX pathname resolution gives the link if and only if its guard is right: no directory in front of an absolute target or one in the current directory, and else the directory of the link |
| RealPath.DottedDirectoryFails | assignment_2/realpath.c:107-109 | A directory with a dot is dropped |
| RealPath.LeavingDirectoryFails | assignment_2/realpath.c:106-110 | A plain target is looked up in the directory of the start path even when the chain has left it |
| RealPath.AbsoluteTargetFails | assignment_2/realpath.c:106-110 | An absolute target gets a directory in front |
| RealPath.NextPathFails | assignment_2/realpath.c:98-110 | A concrete input for each of the three |
| RealPath.LoopExactly | assignment_2/realpath.c:96-113 | In any file system the loop is on the real chain for `m` turns if and only if the guard is right at each of its first `m` links |
| RealPath.StopsExactly | assignment_2/realpath.c:96-113 | In any file system the loop stops if and only if it reads no path twice |
| RealPath.NextPathIsSibling | assignment_2/realpath.c:98-111 | In a directory spelled without a dot, both branches lead from bare names to bare targets in the same directory |
| RealPath.LoopFollowsChain | assignment_2/realpath.c:96-113 | There, after `k` turns the loop variable names what `k` links lead to, as pathname resolution has it |
| RealPath.DirectoryResolved | assignment_2/realpath.c:96-124 | There the loop stops if and only if the chain is acyclic, and the result is the name at its end |
| RealPath.Resolver.Prefixed | assignment_2/realpath.c:98-110 | The loop body computes the next path, about which `RealPath.ParentTarget`, `RealPath.PlainTarget` and `RealPath.NextPathExactly` say what it is |
| RealPath.Resolver.Follow | assignment_2/realpath.c:56-71 | In any file system in which it stops, the loop takes exactly as many successful `readlink` calls as there are turns, at most one for each link, and leaves the path where it stops; without any, the buffer is untouched |
| RealPath.Resolver.ResolvePath | assignment_2/realpath.c:90-125 | The result and `strs[0]` are the last name of the path where the loop stops, or of what the fresh buffer held if the path is no link; `pos` is 1 |
| RealPath.Resolver.ResolveEntry | assignment_2/realpath.c:54-78 | An entry has a result if and only if it is a link, whatever an earlier entry left in the buffer |
| RealPath.Resolver.ScanEntry | assignment_2/realpath.c:54-78 | One turn of the scan stores at most one result, at `pos` |
| RealPath.Resolver.ScanDirectory | assignment_2/realpath.c:36-79 | There is a strictly increasing list of positions, of exactly the entries that are links; the scan stores their results from the old `pos` on, advances `pos` by their number, and changes nothing else |
| RealPath.ResultAt | assignment_2/realpath.c:72-78 | The result of an entry is the last name of the path where its loop stops, or none if it is no link |
| RealPath.ListsSize | assignment_2/realpath.c:72-78 | That list is as long as there are links among the entries |

## Left out

- HaltBandProgram.Counter.Execute: the scheduler of this method wakes thread 1 only by signals; runs with spurious wakeups are covered by the safety lemmas of `HaltBand`, and need not end.
- CondvarBufferProgram.Buffer.Execute: likewise without spurious wakeups, which `CondvarBuffer.BufferIsReplayedStack` and `CondvarBuffer.NoDeadlock` include.
- SpinBufferProgram.Buffer.Execute: an unfair scheduler may spin for ever; the method bounds the vain turns.
- Truncate.File.Truncate: files of `INT_MAX` bytes or more, whose size does not fit the program's `int`, are outside the model.
- RealPath.Resolver.ResolvePath: chains that do not end, where the program does not return, are outside the model; the uninitialised buffer that it reads for a path that is no link is an arbitrary string here.
- RealPath.Resolver.ScanDirectory: directories with a chain that does not end, where the scan does not end, or with more than 256 links, where it writes past its array, are outside the model.
- Overflow of `count`: it never exceeds `max(DONE, 1) + 1` (`HaltBand.PrintedSoFar`), so a 32-bit counter suffices whenever `DONE < INT_MAX`.
- Lengths of path buffers, truncated `readlink` results, failures of `pathconf`, `getcwd` and `opendir`, and `malloc`.
- Several producers or consumers: the programs run one of each.
- Effects of compilers and memory models beyond sequential consistency, such as hoisting the load of a spin loop.
- What SIGUSR1 does to the members of the group: which of them are prepared is known (`GroupSignalOutcomes.ReadyExactly`), but steps of the members after the signal are not cut short.
- The order of instructions of one process that nobody else can observe, such as printing its own pid.
- The read of the cell after it has been unmapped: undefined behaviour.
- Error returns of system calls in the process programs, printed diagnostics, and durations of `sleep` and `alarm`.
- The command-line parts, and the other programs of the repository: straight-line demonstrations of single system calls.
