# StatementWarningTailer, modelled in Dafny

This project models `StatementWarningTailer`, a `Runnable` that follows the warning chain of a
running JDBC statement. Its thread polls the statement, hands each new `SQLWarning` to a
`Consumer<SQLWarning>`, sleeps `delayMillis`, and repeats until it is interrupted. The caller
interrupts it once the statement's query has returned (`SampleDao`).

The tailer remembers the last warning it delivered (`lastWarning`). A poll (`readWarnings`)
starts at the chain head through `statement.getWarnings()` while nothing has been delivered yet.
After that it starts at `lastWarning.getNextWarning()`. It then walks to the end of the chain,
delivering each node and moving `lastWarning` onto it. An `SQLException` from the head read is
swallowed. An interrupt that lands during the sleep makes `sleep` throw `InterruptedException`;
`run` then does one more poll (`beforeThreadExit`) and returns. An interrupt seen by the loop
guard `while (!isInterrupted())` ends `run` with no further poll. `TimeUnit.sleep` does not sleep,
and so never throws, when `delayMillis <= 0`. Such a tailer always leaves through the guard and
never makes the final poll.

## Files

- `wrappers.dfy`, module `Wrappers`: `Option` (a Java reference that may be null), `Result` (a
  value or a thrown exception) and `Outcome` (a void call that may throw).
- `jdbc.dfy`, module `Jdbc`: the JDBC side. A warning is its message. A warning chain is the
  sequence of its nodes, and a reference to a node is its index. `Head` and `Next` are
  `getWarnings()` and `getNextWarning()` on that sequence. The class `Statement` owns the chain. It
  has a one-shot fault for its next `getWarnings()` call and a ghost count of those calls.
- `tailer_spec.dfy`, module `TailerSpec`: the tailer and its statement as a state machine on
  values. A `World` holds the chain, the pending head fault, the head-read count, the cursor, the
  warnings delivered, the thread's position in `run`, the number of polls and whether the delay
  is positive. `Drain` is one `readWarnings` whose exception is swallowed, and `Walk` is its loop.
  `Apply` is one event and `Exec` is a schedule of events. The module also holds every property
  proved about them.
- `tailer.dfy`, module `Tailer`: the class `StatementWarningTailer`. It has the fields `statement`,
  `delayMillis` and `lastWarning`, a ghost log `delivered` of what the consumer accepted, the
  thread's position `phase`, and a ghost poll count. `ReadWarnings` is `readWarnings`:
  `FirstWarning` finds the entry node and `FollowChain` is the loop over the chain.
  `BeforeThreadExit` and `Handle` (one event of `run`) are the other steps, and `Run` replays a
  schedule. Each method states its new state as `Drain`, `Walk`, `Apply` or `Exec` of the old one.

The thread's position is `AtGuard` (about to test the loop guard, and also before the first
iteration), `Sleeping` or `Stopped` (`run` has returned). The events are:

- `Appended(ws)`: the driver links new warnings at the end of the chain.
- `HeadFails`: the next `getWarnings()` throws.
- `Tick`: the thread runs on to its next blocking point. From the guard it polls once and enters
  the sleep. From the sleep it returns to the guard.
- `Interrupt`: `Thread.interrupt()`. It ends `run` along the path the thread is on:
  `AtGuard` means the guard exits. `Sleeping` means the sleep throws and a final poll follows,
  provided `delayMillis > 0` (the world's flag `sleeps`). With `delayMillis <= 0` the sleep
  returns at once with the flag still set, and the guard exits without a poll. An interrupt during
  a poll counts as `Sleeping`, because a positive sleep throws at once when the flag is already
  set.

Cursor positions are measured with `Start(cursor)`, the index of the first node not yet
delivered: 0 before any delivery, and `i + 1` once `lastWarning` is node `i`. The central
invariant `Inv` says the consumer has received exactly `chain[..Start(cursor)]`.

## Where the code and the intended design differ

The comments describe the stop as a final poll: "Allow thread to exit" followed by
`beforeThreadExit()` (StatementWarningTailer.java:80-81), and "Wait for tailer thread stop"
before `interrupt` and `join` in the caller (SampleDao.java:55-58). The code makes that final poll
only when the interrupt lands in `sleep` (lines 77-81). If the interrupt arrives after the sleep
has elapsed but before the guard at line 71, `run` returns at once, and so does every stop of a
tailer with `delayMillis <= 0`. Warnings appended during the last sleep are then never delivered.

The model follows the code: `Apply` and `Exec` are what the class does, and
`GuardExitLosesPending` and `GuardExitExample` show the loss. `ApplyIntended` and `ExecIntended`
are the described exit, with a final poll after every interrupt of a running thread.
`IntendedExactlyOnce` and `IntendedStopLosesNothing` prove that this exit keeps the exactly-once
invariant and leaves nothing behind.

## Model

| member | source | states |
|---|---|---|
| `Tailer.StatementWarningTailer.constructor` | src/main/java/com/example/demo/dao/StatementWarningTailer.java:42-46 | binds the statement and the delay; no cursor, nothing delivered, thread before its first guard test; the exactly-once invariant holds |
| `Tailer.StatementWarningTailer.ReadWarnings` | src/main/java/com/example/demo/dao/StatementWarningTailer.java:93-100 | the loop delivers every node from the head (no cursor) or from the node after `lastWarning`, in chain order, and leaves `lastWarning` on the last node; it throws exactly when there is no cursor and the head read fails, and then changes neither cursor nor consumer; the new state is `Drain` of the old one and keeps the invariant |
| `Tailer.StatementWarningTailer.FirstWarning` | src/main/java/com/example/demo/dao/StatementWarningTailer.java:94 | the node after `lastWarning` when there is one; otherwise `statement.getWarnings()`, which throws exactly when the head read fails; only a head read changes the statement |
| `Tailer.StatementWarningTailer.FollowChain` | src/main/java/com/example/demo/dao/StatementWarningTailer.java:95-99 | from the node after the cursor, delivers every remaining node in chain order and leaves `lastWarning` on the last; the new state is `Walk` of the old one |
| `Tailer.StatementWarningTailer.BeforeThreadExit` | src/main/java/com/example/demo/dao/StatementWarningTailer.java:85-91 | one more poll with its `SQLException` swallowed; the new state is `Drain` of the old one |
| `Tailer.StatementWarningTailer.Handle` | src/main/java/com/example/demo/dao/StatementWarningTailer.java:69-83 | one step of `run`: guard, poll with the exception swallowed, sleep, and the two interrupt exits, the sleep's exit only when `delayMillis > 0`; the new state is `Apply` of the old one and keeps the invariant |
| `Tailer.StatementWarningTailer.Run` | src/main/java/com/example/demo/dao/StatementWarningTailer.java:69-83 | the loop of `run` against a schedule; the new state is `Exec` of the old one and keeps the invariant |
| `Jdbc.Statement.GetWarnings` | src/main/java/com/example/demo/dao/StatementWarningTailer.java:94 | `statement.getWarnings()` returns the chain head, or null for an empty chain, unless a fault is pending, in which case it throws; every call is counted |
| `TailerSpec.EntryIsFirstUndelivered` | src/main/java/com/example/demo/dao/StatementWarningTailer.java:94 | a poll starts at the head when nothing was delivered and at the node after `lastWarning` otherwise; it finds a node exactly when an undelivered one exists |
| `TailerSpec.WalkEnds` | src/main/java/com/example/demo/dao/StatementWarningTailer.java:95-99 | when the walk stops, no node follows the cursor, the consumer holds the chain up to the cursor, and the cursor is the last node, or unchanged if nothing was new |
| `TailerSpec.DrainDeliversPending` | src/main/java/com/example/demo/dao/StatementWarningTailer.java:94-98 | a poll that does not throw appends exactly the undelivered nodes, in chain order, so the consumer then holds the whole chain |
| `TailerSpec.DrainMovesCursorToLast` | src/main/java/com/example/demo/dao/StatementWarningTailer.java:95-99 | after a poll that delivered something, `lastWarning` is the last node of the chain; a poll that found nothing leaves cursor and consumer unchanged |
| `TailerSpec.HeadFailureSwallowed` | src/main/java/com/example/demo/dao/StatementWarningTailer.java:72-76 | a failing head read leaves cursor, consumer and chain unchanged; it still counts as one poll and one head read |
| `TailerSpec.DrainPreservesInv` | src/main/java/com/example/demo/dao/StatementWarningTailer.java:93-100 | every poll keeps "the consumer has exactly the chain up to the cursor" |
| `TailerSpec.ApplyPreservesInv` | src/main/java/com/example/demo/dao/StatementWarningTailer.java:69-100 | every event, appends included, keeps that invariant |
| `TailerSpec.IterationDrainsThenSleeps` | src/main/java/com/example/demo/dao/StatementWarningTailer.java:71-77 | a loop iteration polls exactly once and then sleeps; a head-read failure leaves cursor and consumer as they were and the loop goes on; otherwise everything in the chain is delivered |
| `TailerSpec.SleepElapses` | src/main/java/com/example/demo/dao/StatementWarningTailer.java:77-78 | a sleep that elapses only brings the thread back to the guard |
| `TailerSpec.InterruptInSleepDrainsOnce` | src/main/java/com/example/demo/dao/StatementWarningTailer.java:77-91 | with `delayMillis > 0`, an interrupt during the sleep causes exactly one more poll and then `run` returns; that poll's failure is swallowed too; without a failure nothing in the chain is left undelivered |
| `TailerSpec.InterruptAtGuardSkipsDrain` | src/main/java/com/example/demo/dao/StatementWarningTailer.java:71-83 | an interrupt seen by the loop guard ends `run` with no poll: the poll count, cursor and consumer are unchanged |
| `TailerSpec.NoDelayNeverDrainsOnExit` | src/main/java/com/example/demo/dao/StatementWarningTailer.java:71-81 | with `delayMillis <= 0` the sleep never throws, so an interrupt ends `run` through the guard with no poll: the poll count, cursor and consumer are unchanged |
| `TailerSpec.InterruptStopsOnce` | src/main/java/com/example/demo/dao/StatementWarningTailer.java:69-83 | an interrupt always ends `run`, so the caller's `join` returns; a second interrupt changes nothing |
| `TailerSpec.ExactlyOnceInChainOrder` | src/main/java/com/example/demo/dao/StatementWarningTailer.java:94-98 | over any schedule of polls and appends, the consumer holds exactly the chain up to the cursor: in order, no warning twice, none skipped |
| `TailerSpec.DeliveredIsChainPrefix` | src/main/java/com/example/demo/dao/StatementWarningTailer.java:93-100 | starting from a new tailer, whatever happens, what the consumer received is a prefix of the chain |
| `TailerSpec.OnlyForward` | src/main/java/com/example/demo/dao/StatementWarningTailer.java:95-98 | over any schedule the chain only grows, the consumer's record only grows, and the cursor only moves forward |
| `TailerSpec.NoHeadReadOnceCursorSet` | src/main/java/com/example/demo/dao/StatementWarningTailer.java:94 | once `lastWarning` is set it stays set, and `getWarnings()` is never called again |
| `TailerSpec.StoppedIsFinal` | src/main/java/com/example/demo/dao/StatementWarningTailer.java:69-83 | after `run` has returned, no further poll happens and cursor and consumer are final, whatever else happens |
| `TailerSpec.GuardExitLosesPending` | src/main/java/com/example/demo/dao/StatementWarningTailer.java:71-81 | if the guard sees the interrupt while warnings are pending, those warnings are never delivered |
| `TailerSpec.IntendedExactlyOnce` | src/main/java/com/example/demo/dao/StatementWarningTailer.java:79-91 | with a final poll after every interrupt, as the comments describe the exit, the consumer still holds exactly the chain up to the cursor over any schedule |
| `TailerSpec.IntendedStopLosesNothing` | src/main/java/com/example/demo/dao/StatementWarningTailer.java:79-91 | with that exit, after any schedule an interrupt of the running thread stops it and leaves the consumer holding the whole chain, unless the final head read throws |
| `TailerSpec.GuardExitExample` | src/main/java/com/example/demo/dao/StatementWarningTailer.java:71-81 | a warning appended during the last sleep before a guard-seen interrupt is lost |
| `TailerSpec.FinalDrainExample` | src/main/java/com/example/demo/dao/StatementWarningTailer.java:79-98 | three warnings appended during the first sleep are all delivered, in order, by the final poll after an interrupt in that sleep |
| `TailerSpec.TransientHeadFailureExample` | src/main/java/com/example/demo/dao/StatementWarningTailer.java:72-77 | the head read fails on two polls and succeeds on the third; both queued warnings are then delivered and `run` goes on polling |

## Left out

- Threads and timing: `create` with its `Thread`, `setDaemon` and `start` (lines 55-61) is not modelled. Neither is the real duration of `TimeUnit.MILLISECONDS.sleep(delayMillis)` (line 77): only the sign of `delayMillis` matters, as the flag `sleeps`. Concurrency is replaced by a schedule of events, and Java's interrupt flag by two interrupt exits the schedule selects.
- Run: it replays a finite schedule. A schedule without an interrupt leaves the thread still in its loop, which stands for a `run` that has not returned yet. The model does not state that a thread that is never interrupted polls forever.
- The JDBC objects: a warning is its message only (no SQL state or vendor code). The statement is a chain of messages and a one-shot head-read failure. `getNextWarning()` never fails. A read that overlaps an append is not modelled: appends and polls are serialized as events.
- The consumer: it is the ghost log `delivered`. Its own side effects, and any runtime exception it throws (not caught at line 96), are not modelled.
- `DEFAULT_DELAY_MILLIS` (1000, line 16) is not modelled; it is a configuration value, and the caller passes its own delay.
- SampleDao.java is not part of this model: it is transaction, session and statement handling around the tailer, followed by start, `executeQuery`, `interrupt` and `join` (lines 46-61). Two of its facts relate to the tailer. A missing result row returns `false` rather than a distinct failure (lines 63-66). An exception from `executeQuery` skips `interrupt` and `join` altogether (lines 54-58), so the tailer thread then keeps polling.
- DemoApplication.java is not part of this model: it is Spring Boot wiring and console printing.
