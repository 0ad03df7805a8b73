# Syncle, verified

Syncle copies rows from one database into others: by replaying a table, by following its change log, or by
polling it. This project models the parts of it that keep its promises when something goes wrong (crashes,
failed deliveries, replays, concurrent runs) and proves those promises, or shows where they break and under
which condition they hold.

`dafny verify dfyconfig.toml` checks everything.

| file | what it is about |
|---|---|
| `Changes.dfy` | a change log, what applying it to a keyed table means, and why a replay changes nothing |
| `StreamProtocol.dfy` | one live bridge as a transition system: log, pending batch, one delivery in flight, durable cursor and sequence, dead-letter queue, crashes |
| `StreamNoLoss.dfy` | no row is lost, in any run |
| `StreamConvergence.dfy`, `StreamTheorems.dfy` | the destination converges on the source |
| `StreamQueue.dfy` | no row waits twice in the dead-letter queue |
| `StreamStaleTakes.dfy`, `StreamRetries.dfy` | what a change taken twice, and a dead letter replayed as recorded, do to the destination: exactly when they do harm |
| `StreamRuns.dfy`, `StreamFindings.dfy` | building runs; runs in which the stream does not do what it promises |
| `StreamService.dfy` | the stream as the object it is in the code; every method takes exactly the transition system's step |
| `Batching.dfy`, `Isolation.dfy`, `IsolationInTheStream.dfy` | forming batches and runs; narrowing a failed batch down to its bad rows; that search as a run of the stream |
| `Spool.dfy`, `SpoolNoLoss.dfy`, `SpoolLoss.dfy` | the path through the Redis spool; exactly which rows a crash can cost there |
| `FanOut.dfy`, `DeadLetters.dfy` | delivery to several targets; parking, and a retry that re-reads the source |
| `KeysetPages.dfy`, `TableReader.dfy` | reading a table in pages; picking an order that makes that exact |
| `Verify.dfy` | verification and reconciliation |
| `ReplayJob.dfy`, `Counters.dfy` | the replay worker, its records, its counters, and pruning them |
| `EchoLoop.dfy`, `EchoQueue.dfy` | bridges that feed each other; recognising one's own writes |
| `RowCodec.dfy`, `Limiter.dfy`, `Lease.dfy`, `Watch.dfy` | parked rows as JSON, the login limiter, the leader's lease, the polling bridge |

A method of a class is proved equal to a function of the state before it, or states its whole new state; the
lemmas are about those functions. A log position stands for a change, and a cursor for the number of positions
behind it.

## Where the code does less than it says

Each of these comes with a run or an input that shows it, with a theorem that says exactly when it happens, or with
both.

- **An older change can overwrite a newer one.** `accept` compares a change with the watermark before it waits
  for a flush, and not again afterwards. If the provider reconnects meanwhile, an old version joins the batch
  after the newer one has left. From every converging state with nothing failed in flight in which such a take is
  made there is a way on that ends caught up, with the old change put on top of what was under way and the unread
  rest of the log on top of that. A row is right there if and only if the rest of the log throws away, or writes
  over, all that the change alters of the source's row; a reader at the end of the log has no such rest
  (`StreamStaleTakes.StaleTakeLandsOnTop`). No row is lost by it in the sense of `StreamNoLoss.NothingIsLost`, and
  a take at or beyond the pending batch's end, the test `notePosition` makes, never does it
  (`StreamTheorems.Converges`).
- **A crash can lose spooled rows.** The spool is trimmed before the sequence number is saved. After a crash in
  between, the next batch is parked under the sequence that the parked rows already have, and replaces them, so
  README.md:134 does not hold there. `SpoolLoss.ACrashLosesExactly` says which rows: those that nothing but
  pending letters at or above the saved sequence still holds, and there are none unless the crash falls there.
- **A row can wait twice** after a crash between parking and the checkpoint and then a smaller batch that lands
  (`StreamFindings.ARowMayWaitTwice`): exactly when rows are parked that an entry `park` keeps already holds
  (`StreamQueue.NeverTwiceIffFresh`).
- **A parked truncate, retried, empties the destination** of everything delivered since, where README.md:136-137
  says a retry can never overwrite a newer version. `StreamRetries.TruncateRetryIsHarmlessIff` says for which rows
  that does no harm; caught up, only for an empty source. Retries that re-read the source do converge.
- **A parked row can overwrite a newer one** as well, when its retry does not find the source's key. Each retry
  looks the key up for itself, and an error there counts as "no key": the row is replayed as it was parked, on a
  bridge with a key too, over a newer version delivered since (`StreamFindings.RetryWithoutTheKeyOverwritesANewerRow`).
  `StreamRetries.RecordedRetryIsHarmlessIff` says exactly when a retry as recorded, of whatever letter, does no harm.
- **Counters drift** when a delivery is recorded again with another row count, and when a notice is written over
  a cell that counts rows, exactly then (`Counters.RecordKeepsAgreement`, `Counters.NoticeKeepsAgreement`).
- **Seeking an offset beyond the end of a table** starts over from the top, exactly then
  (`KeysetPages.SeekIsExactWithinTheTable`).
- **Target keys are not quoted**, so two different tables may share one (`FanOut.DifferentTablesMayShareAKey`).
  Exactly where a target the operation applies to shares its key with another one, be it one with nothing to do,
  a retry can pass it over and report a success (`FanOut.OnceForEachIffAlone`).
- **A table that already holds a value blocks it** from travelling on through it. `EchoLoop.HoldersAreExact` says
  who gets it: whoever bridges lead to through tables that did not hold it.
- **The user-name limiter admits 1,452 attempts a day**, where its comment says 1,440, and no more
  (`Limiter.AtMost1452ADay`, `Limiter.TheBoundIsReached`). `Limiter.ANewcomerIsKept` says when a full table
  forgets a new key at once.
- **There can be two leaders** for a while, whatever the timing (`Lease.TwoLeadersAtOnce`), and
  `Lease.OverlapIsBounded` says for how long.
- **A codec that loses** `undefined`, `-0`, invalid dates, driver wrapper values, plain byte arrays (they come
  back as buffers) and a `__proto__` key, and nothing else (`RowCodec.ExactlyTheLossless`).
- **The mark of a source read to its end does not last.** It shares a column with the keyset checkpoint: a retry
  of the failed rows clears it, and so does the next checkpoint of an attempt that then stops early
  (`ReplayJob.Job.Execute`). The coverage it stood for lasts (`ReplayJob.History`).

## Premises

- One live reader a bridge. Writing a batch to a target is atomic, as is each transaction of the metadata store.
- Convergence of the stream: the source key is known, targets are upserted by it, deletes are propagated, and a
  refresh reads and writes in one step. A letter is discarded, or replayed as recorded (on a bridge with a key too),
  only where its rows are then on course; on the spooled path, where what the spool still holds keeps them so.
- Reading by keyset: no column of a primary key is NULL. SQLite lets one be, in a key that is not an INTEGER, and
  `resolveOrder` does not look.
- Replays: the batch size and the source's order are the same in every attempt (`resume` refreshes the snapshot
  that holds the batch size).
- Verification: both ends are static but for the repairs, keys are not null and distinct, and the target is read
  by keyset while extras are being removed.
- Several targets: exactly-once for `insert` targets holds for retries that pass the checkpoint on, as a replay
  and a dead-letter retry do. A stream that restarts does not.
- Loops: identity mappings, upserts, and every write of this instance recognised when it comes back.
- The lease: one clock, and a heartbeat that begins ends within the slack, the listeners it waits for included.

## Model

| member | source | states |
|---|---|---|
| `Changes.ApplyIsPerKey` | `apps/api/src/bridges/bridge-cdc.service.ts:1401-1409` | Applying a log to a table acts on every key independently: the row under a key is the fold of the changes that touch it |
| `Changes.ApplyConcat` | `apps/api/src/bridges/bridge-cdc.service.ts:1401-1409` | Applying a log in two parts is applying it whole |
| `Changes.AbsorbKey` | `apps/api/src/bridges/bridge-cdc.service.ts:1042-1064` | Any changes already in a log, applied beforehand in any order and any number of times, make no difference to a row once the log is applied, rows with columns left out as unchanged included |
| `Changes.Absorb` | `README.md:436-440` | The same for whole tables, truncates included |
| `Changes.ReplayIsHarmless` | `README.md:436-440` | Re-applying any suffix of a log to the result of the whole log changes nothing |
| `Changes.SameAfterIffHidden` | `apps/api/src/bridges/bridge-cdc.service.ts:1401-1409` | Two rows come to the same through a log if and only if the log throws the row away or writes every column in which they differ |
| `Changes.OnlyChange` | `apps/api/src/bridges/bridge-cdc.service.ts:1326-1331` | In a batch with no key twice, the row under a key is decided by the one change that touches it |
| `Changes.AnyOrder` | `apps/api/src/bridges/bridge-cdc.service.ts:1326-1331` | Two orders of the rows of one batch land the same table |
| `StreamNoLoss.NothingIsLost` | `README.md:132-139` | After any run (deliveries, failures, parking, store errors, in-process replays, retries, discards, crashes) every position behind the saved cursor, or acked to the source, was delivered, deliberately passed over, or has a dead letter with a sequence below the saved one |
| `StreamNoLoss.ParkRemovesNothingBehindTheCursor` | `apps/api/src/bridges/dead-letter.service.ts:112-158` | Handling a failed batch, with the deletion parking starts from, leaves every position behind the cursor safe |
| `StreamNoLoss.Step` | `apps/api/src/bridges/bridge-cdc.service.ts:1225-1618` | Each of the eighteen steps keeps the inductive invariant: behind the cursor safe; up to the reach of the batch in flight, the tail, the change in hand and the provider's place, nothing dropped |
| `StreamNoLoss.RunKeepsInv` | `apps/api/src/bridges/bridge-cdc.service.ts:1225-1618` | The invariant over whole runs |
| `StreamNoLoss.CheckpointStep` | `apps/api/src/bridges/bridge-cdc.service.ts:1569-1582` | Saving cursor and sequence in one write turns everything the settled batch held into safe positions |
| `StreamNoLoss.HandleStep` | `apps/api/src/bridges/bridge-cdc.service.ts:1654-1788` | Whatever isolation found, and whether it stops or parks, a failed batch is accounted for |
| `StreamNoLoss.EntriesHold` | `apps/api/src/bridges/bridge-cdc.service.ts:1716-1769` | The entries made of failed rows hold each of them, and nothing else |
| `StreamNoLoss.ParkedQueue` | `apps/api/src/bridges/dead-letter.service.ts:123-158` | Deleting from a sequence on and adding the new entries keeps every letter below it and parks every failed row |
| `StreamNoLoss.RestartStep` | `apps/api/src/bridges/bridge-cdc.service.ts:858-960` | A restart from the saved cursor keeps the invariant |
| `StreamConvergence.GoalLeads` | `apps/api/src/bridges/bridge-cdc.service.ts:1401-1409` | The source's own row stays the source's row under a replay of the log from any cursor |
| `StreamConvergence.PartLeads` | `apps/api/src/bridges/bridge-cdc.service.ts:1444-1499` | Writing any part of what is ahead of the cursor, in any order, leaves a row on course to the source's |
| `StreamConvergence.PartOfBatchLeads` | `apps/api/src/bridges/bridge-cdc.service.ts:1690-1740` | A batch delivered only in part is as good as a whole one for the keys the part touches |
| `StreamConvergence.CarriersCarryTheSlice` | `apps/api/src/bridges/bridge-cdc.service.ts:1410-1441` | The positions of a batch without gaps carry exactly the log's changes between its two ends |
| `StreamTheorems.Converges` | `apps/api/src/bridges/bridge-cdc.service.ts:1225-1499` | In every state of an orderly run (nothing taken again that is behind the pending batch, and letters replayed as recorded, on a keyed bridge too, or discarded only where that is harmless), for a key with no pending dead letter, applying the rest of the log from the saved cursor to the destination gives the row that the whole log applied to an empty table gives |
| `StreamTheorems.DrainedRowIsTheSourceRow` | `apps/api/src/bridges/dead-letter.service.ts:395-500` | Once nothing waits for a key and no change of it is ahead of the cursor, its row is the source's, whatever older changes a refresh ran between |
| `StreamTheorems.CaughtUp` | `apps/api/src/bridges/bridge-cdc.service.ts:1569-1582` | With the cursor at the end of the log and no pending letter, the destination is the source's table |
| `StreamTheorems.CursorNeverMovesBack` | `apps/api/src/bridges/bridge-cdc.service.ts:1203-1209` | With positions taken in order the saved cursor never decreases |
| `StreamTheorems.Step` | `apps/api/src/bridges/bridge-cdc.service.ts:1225-1618` | Every orderly step keeps the layers (saved, in flight, pending, in hand) gap-free and every row that does not wait on course |
| `StreamTheorems.LettersAfterSettling` | `apps/api/src/bridges/dead-letter.service.ts:573-600` | Settling a letter leaves every key waiting that the letter is not about |
| `StreamTheorems.SettledStep` | `apps/api/src/bridges/dead-letter.service.ts:222-236` | Discarding a letter, or replaying it as recorded, keeps everything converging if its rows then differ from the source's only in what is ahead of the cursor, and of the batch in flight, anyway |
| `StreamTheorems.RetryStep` | `apps/api/src/bridges/dead-letter.service.ts:395-500` | A refresh, as one step, keeps every row converging |
| `StreamQueue.NoRowWaitsTwice` | `apps/api/src/bridges/dead-letter.service.ts:112-158` | Such is every parking in a run where no batch lands over entries a crash left behind: no position is then held twice |
| `StreamQueue.EntriesHoldOnce` | `apps/api/src/bridges/bridge-cdc.service.ts:1716-1769` | The entries made of failed rows hold each row exactly as often as it failed |
| `StreamQueue.KeptHoldsNoMore` | `apps/api/src/bridges/dead-letter.service.ts:123-158` | What parking keeps holds no row more often than before |
| `StreamQueue.ParkedOnceIffFresh` | `apps/api/src/bridges/dead-letter.service.ts:123-158` | Parking makes no row wait twice if and only if no row is listed twice and none is held by what the deletion leaves |
| `StreamQueue.NeverTwiceIffFresh` | `apps/api/src/bridges/dead-letter.service.ts:112-158` | Over every run whatever, no state has a row waiting twice if and only if every parking on it was of such rows |
| `StreamStaleTakes.StaleTakeLandsOnTop` | `apps/api/src/bridges/bridge-cdc.service.ts:1225-1364` | From every converging state, with nothing failed in flight, in which, anywhere in the log, a change in flight or buffered is taken again, the stream gets, without crash or failure, to a caught-up state: each row no letter waits for is the source's with that change and then the log ahead of the pending batch put on top, and is the source's own if and only if that part of the log hides all that the change alters of it |
| `StreamFindings.ReplayedChangeMayOverwriteANewerOne` | `apps/api/src/bridges/bridge-cdc.service.ts:1238-1353` | Such a run from the start: an older change lands after a newer one and the cursor is saved beyond both |
| `StreamFindings.ARowMayWaitTwice` | `apps/api/src/bridges/bridge-cdc.service.ts:1741-1787` | A run in which a crash between parking and checkpoint, then a smaller batch, leaves one row waiting in two entries |
| `StreamRetries.RecordedRetryIsHarmlessIff` | `apps/api/src/bridges/dead-letter.service.ts:308-388` | After a retry as recorded, of any letter on any bridge, a row leads to the source's if and only if the log ahead of the cursor hides all that tells it, with the changes applied again, from the source's row |
| `StreamRetries.TruncateRetryIsHarmlessIff` | `apps/api/src/bridges/dead-letter.service.ts:308-388` | For a truncate: if and only if it hides all that the source has written there since, as far as the cursor has come |
| `StreamRetries.NothingSinceIsHarmless` | `apps/api/src/bridges/dead-letter.service.ts:308-388` | It does where nothing was written between the truncate and the cursor |
| `StreamRetries.CaughtUpTruncateRetry` | `apps/api/src/bridges/dead-letter.service.ts:308-388` | Caught up, the destination is the source's table after it if and only if the source is empty |
| `StreamFindings.RetriedTruncateWipesNewerRows` | `apps/api/src/bridges/dead-letter.service.ts:308-388` | A run from the start in which it is not |
| `StreamFindings.RetryWithoutTheKeyOverwritesANewerRow` | `apps/api/src/bridges/dead-letter.service.ts:548-567` | A run from the start, on a bridge with a key: a letter replayed as recorded, its key not found, leaves the older version, caught up and with nothing pending |
| `StreamService.Stream.NotePosition` | `apps/api/src/bridges/bridge-cdc.service.ts:1203-1209` | The tail moves to the cursor exactly if the stream is not halted and the cursor is beyond the tail, or beyond the watermark with no tail |
| `StreamService.Stream.Take` | `apps/api/src/bridges/bridge-cdc.service.ts:1232-1321` | The fields after the replay check and what is passed over are the transition system's |
| `StreamService.Stream.Put` | `apps/api/src/bridges/bridge-cdc.service.ts:1324-1364` | The same for joining the batch |
| `StreamService.Stream.Flush` | `apps/api/src/bridges/bridge-cdc.service.ts:1410-1441` | The same for handing the batch over; nothing happens without a tail or once halted |
| `StreamService.Stream.PendingRowCount` | `apps/api/src/bridges/dead-letter.service.ts:186-192` | The sum of the pending entries' rows |
| `StreamService.Stream.EntriesFor` | `apps/api/src/bridges/bridge-cdc.service.ts:1716-1768` | The loop makes one entry a row when isolated, otherwise chunks of 500 |
| `StreamService.Stream.Park` | `apps/api/src/bridges/dead-letter.service.ts:123-158` | The queue without the pending entries from a sequence on, plus the new ones |
| `StreamService.Stream.HandleFailedBatch` | `apps/api/src/bridges/bridge-cdc.service.ts:1654-1788` | Failure count, halt, queue and phase after a failed batch, and the sequence it goes on from or none |
| `StreamService.Stream.Checkpoint` | `apps/api/src/bridges/bridge-cdc.service.ts:1569-1582` | One write moves cursor and sequence; a batch with no rows moves the cursor alone |
| `StreamService.Stream.Begin` | `apps/api/src/bridges/bridge-cdc.service.ts:858-960` | A start keeps what is stored and forgets what was in memory |
| `StreamService.SettleFailedBatch` | `apps/api/src/bridges/bridge-cdc.service.ts:1591-1618` | A failed batch is handled, and unless that stopped the stream, put behind the cursor |
| `Batching.AcceptKeepsMeaning` | `apps/api/src/bridges/bridge-cdc.service.ts:1242-1364` | Accepting a change adds exactly it to the concatenation of all batches; every batch has one operation, no key twice, a truncate alone, and the buffer stays under its limit |
| `Batching.Collector.Accept` | `apps/api/src/bridges/bridge-cdc.service.ts:1225-1364` | The buffer, its operation and the batches sent are the specification's, and what was taken is the old plus the change |
| `Batching.Collector.Flush` | `apps/api/src/bridges/bridge-cdc.service.ts:1410-1441` | A buffer that holds something is sent whole, and is then empty |
| `Batching.DeliverableRuns` | `apps/api/src/bridges/bridge-cdc.service.ts:1890-1918` | The runs concatenate to the input, each fits one delivery, and every cut was needed |
| `Batching.RunIsIndependent` | `apps/api/src/bridges/bridge-cdc.service.ts:1890-1918` | A run can be written as one statement: no key twice, a truncate alone |
| `Batching.WrittenAsSets` | `apps/api/src/bridges/bridge-cdc.service.ts:1410-1441` | Writing each batch as a set in any row order gives the table of the changes one at a time |
| `Batching.RunsKeepMeaning` | `apps/api/src/bridges/bridge-cdc.service.ts:1890-1918` | The same for the runs cut from the spool |
| `Isolation.IsolateFailures` | `apps/api/src/bridges/cdc/isolate-failures.ts:117-213` | Unless systemic, delivered and poisoned rows together are the batch; delivered rows are those of attempts that succeeded, each poisoned row failed alone, no row is written to a target twice, and the attempt, poison and systemic limits hold |
| `Isolation.Settle` | `apps/api/src/bridges/cdc/isolate-failures.ts:175-209` | One attempt's outcome keeps the search sound and leaves less of it |
| `Isolation.Halves` | `apps/api/src/bridges/cdc/isolate-failures.ts:90-110` | The two halves are not empty and concatenate to the group, with its skipped targets |
| `Isolation.MarkBadKeeps` | `apps/api/src/bridges/cdc/isolate-failures.ts:178-182` | Marking the sibling of a group that went through changes no row |
| `IsolationInTheStream.Isolate` | `apps/api/src/bridges/bridge-cdc.service.ts:1690-1740` | Isolating the failed batch in flight is a run of the stream, to a state in which the batch may be handled with exactly what was found |
| `IsolationInTheStream.AttemptsAreSteps` | `apps/api/src/bridges/bridge-cdc.service.ts:1697-1708` | Attempt after attempt the stream knows exactly the rows delivered so far |
| `Spool.SpoolConverges` | `apps/api/src/bridges/bridge-cdc.service.ts:1821-1883` | After any careful run, applying the spool and then the log from the saved cursor leads every row that does not wait to the source's, with appends repeated by crashes any number of times |
| `Spool.DrainedSpool` | `apps/api/src/bridges/bridge-cdc.service.ts:1965-2027` | Spool empty, cursor at the end, nothing parked: the destination is what applying the log once, in order, gives |
| `Spool.Collapse` | `apps/api/src/bridges/bridge-cdc.service.ts:1821-1883` | A queue of repeated suffixes does to a row what the log does from the queue's lowest position |
| `Spool.GoalLeadsBy` | `apps/api/src/bridges/bridge-cdc.service.ts:1821-1883` | The source's own row stays where it is, whatever the spool still repeats |
| `Spool.InsertedLeadsBy` | `apps/api/src/bridges/bridge-cdc.service.ts:1821-1883` | Entries that follow again later may be appended in between |
| `Spool.RunKeepsDraining` | `apps/api/src/bridges/bridge-cdc.service.ts:1925-2027` | Every careful step keeps the spool's invariant, over whole runs |
| `Spool.CrashStep` | `apps/api/src/bridges/bridge-cdc.service.ts:1925-2027` | A crash outside the window between trim and sequence save keeps the spool converging |
| `SpoolNoLoss.NothingSpooledIsLost` | `README.md:132-139` | With no crash in that window: each position behind the saved cursor was passed over, delivered, parked, or is in the spool, and the source was told no more |
| `SpoolLoss.ACrashLosesExactly` | `apps/api/src/bridges/bridge-cdc.service.ts:1999-2027` | After any run with no such crash before, with room and onError=continue: a crash now leaves a way, free of another, to a state where a row behind the cursor is nowhere, if and only if only pending letters at or above the saved sequence still hold it; and no row is like that outside that window |
| `SpoolLoss.LostAfterACrashIff` | `apps/api/src/bridges/bridge-cdc.service.ts:1925-2027` | The same for every state a crash may leave |
| `SpoolLoss.ParkingLosesIff` | `apps/api/src/bridges/dead-letter.service.ts:123-158` | Parking leaves a row in no letter if and only if it is not parked itself and only letters that are replaced held it |
| `SpoolLoss.CrashBetweenTrimAndSequenceLosesARow` | `apps/api/src/bridges/bridge-cdc.service.ts:1999-2027` | A run from the start that loses a row so |
| `SpoolNoLoss.CrashKept` | `apps/api/src/bridges/bridge-cdc.service.ts:1999-2027` | A crash outside the window between trim and sequence save gives up no position that was accounted for |
| `FanOut.DatabaseSink.Deliver` | `apps/api/src/bridges/database-sink.service.ts:96-205` | Commits of one attempt target by target; ok if and only if every target is fine; the keys reported on failure are the fine ones |
| `FanOut.DeliverUntilDone` | `apps/api/src/bridges/bridge-job.service.ts:919-934` | The loop of attempts with the stored checkpoint commits and reports what the specification does |
| `FanOut.ReceivedOnce` | `apps/api/src/bridges/database-sink.service.ts:96-205` | In one attempt a target receives the batch once if it is tried and does not fail, and otherwise not |
| `FanOut.OncePerTarget` | `apps/api/src/bridges/database-sink.service.ts:96-205` | Over any series of attempts a target whose key is its own commits the batch at most once, not at all if it was in the checkpoint, and exactly once when the delivery succeeds, insert targets included |
| `FanOut.OnceForEachIffAlone` | `apps/api/src/bridges/database-sink.service.ts:96-205` | Every series of attempts that succeeds gives each target the batch exactly once if and only if no target the operation applies to shares its key with another one |
| `FanOut.ASharedKeyLosesATarget` | `apps/api/src/bridges/database-sink.service.ts:838-840` | For any targets, batch and operation, a target that shares its key with any other can miss a batch reported as delivered |
| `FanOut.DifferentTablesMayShareAKey` | `apps/api/src/bridges/database-sink.service.ts:838-840` | Two different tables of one connection whose keys are equal |
| `FanOut.KeysTellTablesApart` | `apps/api/src/bridges/database-sink.service.ts:838-840` | Without a colon in connection, database or schema, one key is one table |
| `DeadLetters.DeadLetterQueue.Park` | `apps/api/src/bridges/dead-letter.service.ts:123-158` | Leftovers gone and new entries there, in one transaction |
| `DeadLetters.ParkingTwiceIsParkingOnce` | `apps/api/src/bridges/dead-letter.service.ts:112-158` | Parking the same batch again leaves the queue as the first time did |
| `DeadLetters.KeptIsTheRest` | `apps/api/src/bridges/dead-letter.service.ts:123-158` | Parking removes exactly the job's own pending entries at or above the sequence |
| `DeadLetters.PageIsComplete` | `apps/api/src/bridges/dead-letter.service.ts:503-545` | A page limited to as many rows as keys asked for holds every row asked for |
| `DeadLetters.ReadSourceRows` | `apps/api/src/bridges/dead-letter.service.ts:503-545` | Read in chunks by key, or row by row for a composite key, the result is the source restricted to the keys |
| `DeadLetters.DeadLetterQueue.Refresh` | `apps/api/src/bridges/dead-letter.service.ts:395-500` | Which commits a refresh makes, when it asks for force and then touches nothing, when the entry resolves, and exactly which targets are checkpointed when it does not |
| `DeadLetters.DeadLetterQueue.Sorted` | `apps/api/src/bridges/dead-letter.service.ts:425-436` | Rows split into those the source has in scope and those it no longer has |
| `DeadLetters.DeadLetterQueue.Checkpoint` | `apps/api/src/bridges/dead-letter.service.ts:483-492` | A keyed target counts as done only if both the upsert and the removal went through |
| `DeadLetters.RefreshConverges` | `apps/api/src/bridges/dead-letter.service.ts:395-500` | A keyed target a refresh reports as done holds the source's current row under each of the entry's keys, or none; rows out of scope and all others are as they were |
| `DeadLetters.RefreshIsTheStreamsRetry` | `apps/api/src/bridges/dead-letter.service.ts:395-500` | With all rows in scope and read whole, that is the retry step of the stream's transition system |
| `KeysetPages.Rows` | `apps/api/src/bridges/table-reader.service.ts:297-470` | Keys strictly increase; a row present throughout and beyond the start is yielded; a static table is yielded exactly; each item carries its own checkpoint; for every page size, with changes between any two pages |
| `KeysetPages.ResumeIsExact` | `apps/api/src/bridges/table-reader.service.ts:320-456` | Resuming from any row's checkpoint of a static table starts exactly at the row after it |
| `KeysetPages.SeekIsExactWithinTheTable` | `apps/api/src/bridges/table-reader.service.ts:320-456` | Without a checkpoint, seeking an offset is exact if and only if the table still has that many rows or is empty |
| `KeysetPages.RestIsBeyond` | `apps/api/src/bridges/table-reader.service.ts:352-456` | What is left behind a key is exactly the rows beyond it |
| `KeysetPages.SuffixAfter` | `apps/api/src/bridges/table-reader.service.ts:352-456` | Beyond the key of row n - 1 is everything from row n on |
| `KeysetPages.PageTakesTheFront` | `apps/api/src/bridges/table-reader.service.ts:352-456` | On a static table a page takes its rows off the front of the rest |
| `TableReader.KeysetIsTotal` | `apps/api/src/bridges/table-reader.service.ts:116-239` | Whenever a keyset is picked, the sort is a strict total order of the rows and the compared columns are the sorted ones |
| `TableReader.Transitive` | `apps/api/src/bridges/table-reader.service.ts:352-403` | The tuple comparison is transitive |
| `TableReader.Total` | `apps/api/src/bridges/table-reader.service.ts:352-403` | The tuple comparison orders any two different tuples |
| `TableReader.PickedOrderListsInOrder` | `apps/api/src/bridges/table-reader.service.ts:116-219` | Whenever a keyset is picked, the table listed by it has strictly increasing keys under a strict order: what reading by pages needs |
| `TableReader.KeyMakesTotal` | `apps/api/src/bridges/table-reader.service.ts:160-219` | Sorting by columns that include an identifying key is a strict total order |
| `TableReader.UsableIsKnown` | `apps/api/src/bridges/table-reader.service.ts:160-219` | The unique key that is picked is one of the table's, with no nullable column |
| `Verify.Run` | `apps/api/src/bridges/bridge-verify.service.ts:385-427` | Missing, different and extra are the exact set differences between the mapped source and the target as it was, for every page size and recheck batch; a verify writes nothing; a reconcile with deleteExtra and no failed write leaves the target repaired |
| `Verify.RepairedIsClean` | `apps/api/src/bridges/bridge-verify.service.ts:385-427` | A second verification of a repaired target finds nothing |
| `Verify.FetchByKeys` | `apps/api/src/bridges/bridge-verify.service.ts:903-959` | The rows of exactly these keys, although the column-wise filters of a composite key let more through |
| `Verify.MissingIsADifference` | `apps/api/src/bridges/bridge-verify.service.ts:547-578` | Counting missing rows one by one counts the keys of a set difference |
| `Verify.DifferentIsADifference` | `apps/api/src/bridges/bridge-verify.service.ts:547-578` | The same for differing rows |
| `Verify.WrongCounts` | `apps/api/src/bridges/bridge-verify.service.ts:597-707` | Only wrong rows count, and a row is wrong exactly if the target does not hold it as it should be |
| `Verify.WrittenIsGood` | `apps/api/src/bridges/bridge-verify.service.ts:597-707` | A repaired row is as it should be, whatever other rows are written with it |
| `Verify.PageKeysAreNext` | `apps/api/src/bridges/bridge-verify.service.ts:741-853` | A page read behind a key from the table as it is now holds every old key between there and its end |
| `Verify.TargetRun.FindWrong` | `apps/api/src/bridges/bridge-verify.service.ts:547-578` | Which rows are wrong and how many are missing or different |
| `Verify.TargetRun.Compare` | `apps/api/src/bridges/bridge-verify.service.ts:547-578` | What looks wrong joins the suspects |
| `Verify.TargetRun.SecondLook` | `apps/api/src/bridges/bridge-verify.service.ts:597-707` | Counts, writes and failures of the second look |
| `Verify.TargetRun.FirstPass` | `apps/api/src/bridges/bridge-verify.service.ts:385-413` | Pass 1 over pages and recheck batches keeps the comparison exact |
| `Verify.TargetRun.SourceKeys` | `apps/api/src/bridges/bridge-verify.service.ts:860-893` | Exactly the candidates the source has, compared as they would be written |
| `Verify.TargetRun.Settle` | `apps/api/src/bridges/bridge-verify.service.ts:741-853` | Extras are counted and, in a reconcile, removed |
| `Verify.TargetRun.NextPage` | `apps/api/src/bridges/bridge-verify.service.ts:741-853` | One page of the target, swept |
| `Verify.TargetRun.FindExtras` | `apps/api/src/bridges/bridge-verify.service.ts:710-853` | The extra count is the set difference, and what a clean removal leaves is the rest; not counted where deleted rows are kept or the key is transformed |
| `Verify.ExtrasAreExact` | `apps/api/src/bridges/bridge-verify.service.ts:710-853` | Repairs made in pass 1 neither add to nor take from the extras |
| `ReplayJob.History` | `apps/api/src/bridges/bridge-job.processor.ts:158-281` | Over any history of attempts, crashes, retries and skips: every batch has its place, the offset is batch-aligned and nothing below it is without a record, the keyset checkpoint names the row before it; once an attempt has read to the end, each row lies in exactly one recorded batch |
| `ReplayJob.Job.Execute` | `apps/api/src/bridges/bridge-job.processor.ts:182-271` | An attempt sends batches in order at their own offsets, none whose sequence was settled before it started; a completed one is marked streamed, and another keeps an earlier mark only if it writes no keyset checkpoint |
| `ReplayJob.Job.Flush` | `apps/api/src/bridges/bridge-job.processor.ts:284-314` | Sent and recorded unless settled; a crash leaves no record |
| `ReplayJob.Job.FullBatch` | `apps/api/src/bridges/bridge-job.processor.ts:236-249` | Delivered, recorded, then the cursor behind it |
| `ReplayJob.Job.Finish` | `apps/api/src/bridges/bridge-job.processor.ts:251-271` | The last, smaller batch and the mark |
| `ReplayJob.Job.RecordDelivery` | `apps/api/src/bridges/bridge-job.service.ts:937-1023` | A delivery that exists keeps its row index and row count |
| `ReplayJob.Job.SkipDeliveries` | `apps/api/src/bridges/bridge-job.service.ts:777-822` | Only sequences without a delivery become skipped |
| `ReplayJob.Job.RetryFailedRows` | `apps/api/src/bridges/bridge-job.service.ts:571-599` | Cursor, keyset checkpoint and mark are cleared, and the records stay |
| `ReplayJob.Job.SetCursor` | `apps/api/src/bridges/bridge-job.service.ts:886-900` | The offset is stored and, by keyset, the row before it, which overwrites the mark |
| `ReplayJob.StreamedCovers` | `apps/api/src/bridges/bridge-job.service.ts:331-350` | Once read to its end, every row index of the source is in exactly one recorded sequence |
| `ReplayJob.BatchCount` | `apps/api/src/bridges/bridge-job.processor.ts:182-271` | The number of batches of full batches and a remainder |
| `Counters.RecordKeepsAgreement` | `apps/api/src/bridges/bridge-job.service.ts:937-1023` | A record or re-record keeps counters equal to the row sums if and only if it brings the stored row count |
| `Counters.NoticeKeepsAgreement` | `apps/api/src/bridges/bridge-job.service.ts:1034-1054` | A notice keeps them equal if and only if its cell is new, skipped already, or counts no rows |
| `Counters.SkipsSumToTheTotal` | `apps/api/src/bridges/bridge-job.service.ts:790-820` | The row counts of all sequences skipped sum to the total |
| `Counters.PruneKeepsAgreement` | `apps/api/src/bridges/retention.service.ts:343-375` | Retained plus pruned sums stay equal to the counters through a prune |
| `Counters.RowsSplit` | `apps/api/src/bridges/retention.service.ts:343-375` | The rows of a set of deliveries and of the rest add up to all |
| `Counters.Job.RecordDelivery` | `apps/api/src/bridges/bridge-job.service.ts:937-1023` | Counters and deliveries after one record of any row count; they still agree if and only if it brings the stored one |
| `Counters.Job.SkipDeliveries` | `apps/api/src/bridges/bridge-job.service.ts:777-822` | Exactly the sequences asked for and not there yet are added, with their row counts |
| `Counters.Job.Prune` | `apps/api/src/bridges/retention.service.ts:343-375` | The batch is gone, counted, and lies below the prune boundary, which never falls |
| `Counters.DeleteWhere` | `apps/api/src/bridges/retention.service.ts:343-375` | Deletes the oldest matches first, exactly as many as it spends of the budget, and all of them if any budget is left |
| `Counters.TrimLiveJob` | `apps/api/src/bridges/retention.service.ts:267-299` | The newest stay, as do those with rows in the dead-letter queue; with budget left no more than the cap remain beside those |
| `EchoLoop.Terminates` | `apps/api/src/bridges/echo-guard.service.ts:360-415` | In any graph and order of reading: at most one change is read a bridge, and nothing has been through as many tables as there are |
| `EchoLoop.EntersOnce` | `apps/api/src/bridges/echo-guard.service.ts:360-415` | One change enters each table that is read at most once, and never one that held the value |
| `EchoLoop.ReachesEveryone` | `apps/api/src/bridges/echo-guard.service.ts:650-663` | In particular every table bridges lead to from the user's, if the tables that held the value feed nobody new |
| `EchoLoop.HoldersAreExact` | `apps/api/src/bridges/echo-guard.service.ts:650-663` | Once nothing waits, a table holds the value if and only if it held it before, or bridges lead to it from the user's table through tables that did not |
| `EchoLoop.UnreadTablesAreWrittenBlindly` | `apps/api/src/bridges/echo-guard.service.ts:360-415` | A table no bridge reads is written exactly as often as changes are delivered into it |
| `EchoLoop.RouteIsShort` | `apps/api/src/bridges/echo-guard.service.ts:650-663` | Even with nothing looked up, a change goes through no table twice, in fewer hops than tables |
| `EchoLoop.AHolderInTheMiddleBlocks` | `apps/api/src/bridges/echo-guard.service.ts:360-415` | A table in mid-chain that already holds the value is not written, and the chain behind it never gets it |
| `EchoQueue.EchoesAreExact` | `apps/api/src/bridges/echo-guard.service.ts:571-629` | With one writer, in order, at most twenty writes outstanding and no foreign change equal to one of them: a change is taken for an echo if and only if it is one, and the memory is empty after the last |
| `EchoQueue.RecognisedUpToTwenty` | `apps/api/src/bridges/echo-guard.service.ts:397-417` | Of different writes to a row, the oldest is still recognised if and only if at most twenty are outstanding |
| `EchoQueue.EchoMemory.Announce` | `apps/api/src/bridges/echo-guard.service.ts:397-417` | The value joins the row's list, which keeps its newest twenty |
| `EchoQueue.EchoMemory.Retract` | `apps/api/src/bridges/echo-guard.service.ts:551-562` | The last entry of that value goes |
| `EchoQueue.EchoMemory.Recognise` | `apps/api/src/bridges/echo-guard.service.ts:571-629` | The first match goes, with everything before it, and is an echo |
| `RowCodec.ExactlyTheLossless` | `apps/api/src/bridges/row-codec.ts:34-97` | Decoding an encoded value gives it back if and only if it is lossless, at any depth |
| `RowCodec.RoundTrip` | `apps/api/src/bridges/row-codec.ts:34-97` | Bytes, dates, bigints, non-finite numbers, unchanged marks, arrays, objects and objects that look like tags come back |
| `RowCodec.Lossy` | `apps/api/src/bridges/row-codec.ts:34-97` | Undefined, -0, invalid dates, driver wrappers, plain byte arrays and a `__proto__` key, at any depth, do not |
| `RowCodec.Injective` | `apps/api/src/bridges/row-codec.ts:34-64` | No two lossless values are written alike |
| `RowCodec.RowsRoundTrip` | `apps/api/src/bridges/row-codec.ts:100-113` | A row list comes back if and only if its rows are lossless |
| `Limiter.AttemptLimiter.RetryAfter` | `apps/api/src/common/attempt-limiter.ts:29-34` | A later attempt is let through if and only if it comes no sooner than this long from now |
| `Limiter.AttemptLimiter.Fail` | `apps/api/src/common/attempt-limiter.ts:36-49` | The key becomes the newest, with its new count and lock, and at most `maxKeys` keys stay |
| `Limiter.AttemptLimiter.Forget` | `apps/api/src/common/attempt-limiter.ts:51-66` | The loops remove the oldest unlocked keys, then the oldest |
| `Limiter.AttemptLimiter.Succeed` | `apps/api/src/common/attempt-limiter.ts:68-70` | The key's next failure is its first, and no other key's count, lock or place changes |
| `Limiter.ForgettingIsFair` | `apps/api/src/common/attempt-limiter.ts:51-66` | Exactly as many keys stay as fit, and a locked one goes only when no unlocked one is left |
| `Limiter.NthFailure` | `apps/api/src/common/attempt-limiter.ts:36-49` | The n-th admitted failure comes no earlier than the sum of all locks before it |
| `Limiter.LocksGrow` | `apps/api/src/common/attempt-limiter.ts:36-49` | A later failure never sets a shorter lock |
| `Limiter.AtMost1452ADay` | `apps/api/src/auth/auth.service.ts:92-104` | With (10, 5 s, 60 s) no 24 hours admit more than 1,452 attempts |
| `Limiter.TheBoundIsReached` | `apps/api/src/auth/auth.service.ts:92-104` | 1,452 attempts do fit into 24 hours |
| `Limiter.ANewcomerIsKept` | `apps/api/src/common/attempt-limiter.ts:51-66` | A key that has just failed is remembered if and only if there is room, or another key is unlocked, or it is itself locked |
| `Limiter.AFullTableForgetsNewcomers` | `apps/api/src/common/attempt-limiter.ts:51-66` | So with every remembered key locked and no room, an unlocked new key is forgotten as soon as it fails |
| `Lease.OnlyItsHolderTouchesALease` | `apps/api/src/common/instance.service.ts:53-54` | Over any run in which its holder neither serves a heartbeat nor shuts down, a lease that has not run out stays exactly as it is |
| `Lease.LeaderStopsInTime` | `apps/api/src/common/instance.service.ts:181-266` | A process calls itself leader at most one period and twice the slack beyond the end of its last lease |
| `Lease.OverlapIsBounded` | `apps/api/src/common/instance.service.ts:181-266` | So two leaders overlap at most that long after the second one set the lease |
| `Lease.TwoLeadersAtOnce` | `apps/api/src/common/instance.service.ts:190-240` | For every timing there is a run in which two processes call themselves leader at once |
| `Lease.RunKeeps` | `apps/api/src/common/instance.service.ts:134-266` | The timed invariant over whole runs |
| `Lease.Instance.OnReply` | `apps/api/src/common/instance.service.ts:190-240` | Who leads after an answer, and when the lease was last seen |
| `Lease.Instance.OnError` | `apps/api/src/common/instance.service.ts:226-239` | An unanswered leader stands down once its lease could have run out |
| `Watch.Polls` | `apps/api/src/bridges/bridge-watch.service.ts:212-457` | Over any history of polls stopped or crashed anywhere, every new row of a page whose cursor was saved was delivered, was an echo, or is parked below the saved sequence, and a saved sequence keeps its delivery |
| `Watch.Watcher.Poll` | `apps/api/src/bridges/bridge-watch.service.ts:285-447` | The same for one poll, whatever pages it reads |
| `Watch.Watcher.HandlePage` | `apps/api/src/bridges/bridge-watch.service.ts:304-423` | If the page goes on, each of its new rows is safe |
| `Watch.Watcher.HandleRow` | `apps/api/src/bridges/bridge-watch.service.ts:304-423` | If the row goes on it is safe, and nothing that was safe is given up |
| `Watch.Watcher.SaveCursor` | `apps/api/src/bridges/bridge-watch.service.ts:304-447` | The cursor moves over rows that are safe only |

## Left out

- StreamTheorems.Converges: says nothing of a run in which something is taken again behind the pending batch; `StreamStaleTakes.StaleTakeLandsOnTop` gives the harm one such take can do, but a run with several may heal itself. There is one destination: a fan-out stream's retries pass over targets already done (`FanOut`, `DeadLetters`), and convergence target by target is not stated.
- StreamTheorems.CursorNeverMovesBack: with positions taken in order only; after a take behind the pending batch the code can move the cursor back.
- StreamStaleTakes.StaleTakeLandsOnTop: not for a state with a failed batch in flight, whose handling may stop the stream or park rows.
- StreamQueue.NoRowWaitsTwice: one way only; the exact condition, parking by parking, is `StreamQueue.NeverTwiceIffFresh`.
- Spool.SpoolConverges: needs that no crash falls between trim and sequence save while rows are parked, and that letters are discarded or replayed as recorded only where their rows stay on course; which rows such a crash costs is `SpoolLoss.ACrashLosesExactly`.
- Spool.DrainedSpool: the same premise.
- Spool.RunKeepsDraining: the same premise, step by step.
- Spool.CrashStep: a crash outside that window only; one inside it is `SpoolLoss.ACrashLosesExactly`.
- SpoolNoLoss.CrashKept: as `Spool.CrashStep`.
- SpoolNoLoss.NothingSpooledIsLost: the same premise on crashes; with onError=abort, or no room in the dead-letter queue, such a crash costs nothing at once, and that case is not stated.
- SpoolLoss.ACrashLosesExactly: for onError=continue with room in the queue; in the other cases nothing is parked at once.
- SpoolLoss.LostAfterACrashIff: the same.
- FanOut.KeysTellTablesApart: one way only; names with colons need not collide.
- EchoLoop.ReachesEveryone: a premise that suffices; who gets the value in every case is `EchoLoop.HoldersAreExact`.
- FanOut.OncePerTarget: does not model a crash between a target's commit and the record of it; there an `insert` target does commit twice.
- EchoLoop.EntersOnce: is about tables some bridge reads; for the others `EchoLoop.UnreadTablesAreWrittenBlindly` counts the writes, and gives no bound.
- EchoQueue.EchoesAreExact: the foreign change that equals an outstanding write is left out; the code cannot tell the two apart.
- Verify.Run: does not model a target that moves during the run, soft-deleted rows, or reading the target by offset.
- Lease.OverlapIsBounded: bounds the belief `isLeader()` returns, not work already started under it.
- Watch.Polls: a crash between recording a delivery and saving its sequence reuses that sequence; only deliveries below the saved sequence keep theirs.
- Announcing a write and making it are one step in `EchoLoop`; their order, and the memory of twenty, are in `EchoQueue`.
- Fan-out bridges in a loop: several targets are written, but `route` drops for all or none, so only tables that hold the value are passed over.
- HTTP destinations, payload templates, idempotency keys, rate limits, delays, lingering, back-off between attempts.
- Schema drift, readiness, replication slots and the held-back position.
- Completing a row with unchanged columns, column transforms, type translation, value comparison: parameters, or rows as they are.
- Redis: stream ids, expiry of the echo memory, entries the spool cannot decode, notices in the spool.
- Reading a table by offset or a Redis keyspace by its cursor, for which the code promises nothing.
- `resendFailed` and single-delivery retries, and retention of finished jobs and resolved dead letters.
- JSON as text: the codec is modelled between values and JSON trees, with the platform's printing and parsing as an inverse pair; integer-like names, which JavaScript moves to the front of an object, keep their place here.
- Tie-breaking inside the database: sorting compares values by one total order of the server.
- Alerts, audit, metrics, logs, users, keys and cookies.
