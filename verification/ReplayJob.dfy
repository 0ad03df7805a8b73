/** The replay worker over any history of attempts: crashes at every point between two stores, cancellations,
onError=abort, sequences skipped while it runs, resumes, and retries of what failed. The source's row order
and the batch size are the same in every attempt. */
module ReplayJob {
  import opened Changes

  datatype Status = Success | Failed | Skipped

  datatype Delivery = Delivery(rowIndex: nat, rowCount: nat, status: Status)

  datatype Ended = Completed | Canceled | Aborted | Crashed

  /** What happens to the worker from outside at one point of its run. */
  datatype Control = Control(
    crash: bool,
    stop: bool, // a cancellation is seen
    poll: bool, // the throttled look for newly skipped sequences
    skip: set<nat>) // sequences another process marks as skipped just now

  datatype Sent = Sent(sequence: nat, first: nat, count: nat)

  datatype Operation =
    | Attempt(control: nat -> Control, goes: nat -> bool, abort: bool)
    | RetryFailed
    | Skip(sequences: set<nat>, total: Option<nat>)

  function Least(a: nat, b: nat): nat {
    if a < b then a else b
  }

  /* ----- batch arithmetic ----- */

  lemma {:induction false} Multiples(n: int, d: nat)
    requires d > 0
    ensures (n >= 1 ==> n * d >= d) && (n <= -1 ==> n * d + d <= 0)
    decreases if n < 0 then -n else n
  {
    if n > 1 {
      Multiples(n - 1, d);
      assert n * d == (n - 1) * d + d;
    } else if n < -1 {
      Multiples(n + 1, d);
      assert n * d == (n + 1) * d - d;
    }
  }

  lemma UniqueQuotient(x: nat, q: nat, r: nat, d: nat)
    requires d > 0 && x == q * d + r && r < d
    ensures x / d == q && x % d == r
  {
    var p := x / d;
    assert x == p * d + x % d;
    assert (q - p) * d == q * d - p * d == x % d - r;
    Multiples(q - p, d);
    assert q == p;
  }

  lemma Remainder(x: nat, d: nat)
    requires d > 0
    ensures x == (x / d) * d + x % d && x % d < d
  {
  }

  lemma WholeBatches(k: nat, size: nat)
    requires size > 0
    ensures (k * size) / size == k && (k * size) % size == 0 && (k + 1) * size == k * size + size
  {
    UniqueQuotient(k * size, k, 0, size);
  }

  /** How many batches `total` rows make. */
  function Batches(total: nat, size: nat): nat
    requires size > 0
  {
    (total + size - 1) / size
  }

  lemma BatchCount(k: nat, n: nat, size: nat)
    requires n < size
    ensures Batches(k * size + n, size) == if n == 0 then k else k + 1
  {
    if n == 0 {
      UniqueQuotient(k * size + n + size - 1, k, size - 1, size);
    } else {
      assert (k + 1) * size == k * size + size;
      UniqueQuotient(k * size + n + size - 1, k + 1, n - 1, size);
    }
  }

  lemma RowInABatch(row: nat, total: nat, size: nat)
    requires size > 0 && row < total
    ensures row / size < Batches(total, size)
  {
    var s, t := row / size, Batches(total, size);
    Remainder(row, size);
    Remainder(total + size - 1, size);
    assert (t - s) * size == t * size - s * size;
    Multiples(t - s, size);
  }

  /* ----- skipped sequences ----- */

  /** How many rows a skipped sequence stands for: a whole batch's, or the remainder at the end. */
  function SkipCount(s: nat, size: nat, total: Option<nat>): nat
    requires size > 0
  {
    if total.Some? && s + 1 == Batches(total.value, size) then total.value - s * size else size
  }

  function WithSkipped(records: map<nat, Delivery>, skipped: set<nat>, size: nat, total: Option<nat>): map<nat, Delivery>
    requires size > 0
  {
    records + map s | s in skipped && s !in records :: Delivery(s * size, SkipCount(s, size, total), Skipped)
  }

  /* ----- the job ----- */

  /** Every batch has its place, and nothing behind the cursor is without a record. */
  ghost predicate Consistent(records: map<nat, Delivery>, cursor: nat, everRead: bool, size: nat, total: nat)
    requires size > 0
  {
    && cursor % size == 0 && cursor <= total
    && (forall s: nat :: s < cursor / size ==> s in records)
    && (forall s :: s in records ==> records[s].rowIndex == s * size)
    && (everRead ==> forall s: nat :: s < Batches(total, size) ==> s in records)
  }

  predicate Holds(records: map<nat, Delivery>, s: nat, row: nat, size: nat) {
    s in records && records[s].rowIndex <= row < records[s].rowIndex + size
  }

  /** The row lies in exactly one recorded batch. */
  ghost predicate InOneBatch(records: map<nat, Delivery>, row: nat, size: nat) {
    exists s: nat :: Holds(records, s, row, size) && forall other: nat :: Holds(records, other, row, size) ==> other == s
  }

  ghost predicate CoversEveryRow(records: map<nat, Delivery>, size: nat, total: nat) {
    forall row: nat :: row < total ==> InOneBatch(records, row, size)
  }

  lemma StreamedCovers(records: map<nat, Delivery>, cursor: nat, size: nat, total: nat, row: nat)
    requires size > 0 && Consistent(records, cursor, true, size, total) && row < total
    ensures InOneBatch(records, row, size)
  {
    var s := row / size;
    RowInABatch(row, total, size);
    Remainder(row, size);
    assert Holds(records, s, row, size);
    forall other: nat | Holds(records, other, row, size) ensures other == s {
      UniqueQuotient(row, other, row - other * size, size);
    }
  }

  predicate Settled(d: Delivery) {
    d.status.Success? || d.status.Skipped?
  }

  function SettledIn(records: map<nat, Delivery>): set<nat> {
    set s | s in records && Settled(records[s])
  }

  /** A later state of the delivery table: no record is lost, and those of `settled` are as they were. */
  predicate Grows(was: map<nat, Delivery>, now: map<nat, Delivery>, settled: set<nat>) {
    forall s :: s in was ==> s in now && now[s].rowIndex == was[s].rowIndex && (s in settled ==> now[s] == was[s])
  }

  /** One attempt sends each batch at most once, whole, and none of `settled`. */
  predicate SentInOrder(sent: seq<Sent>, next: nat, size: nat, total: nat, settled: set<nat>) {
    && (forall i :: 0 <= i < |sent| ==>
          sent[i].sequence < next && sent[i].sequence !in settled
          && sent[i].first == sent[i].sequence * size && sent[i].first < total
          && sent[i].count == Least(size, total - sent[i].first))
    && (forall i, j :: 0 <= i < j < |sent| ==> sent[i].sequence < sent[j].sequence)
  }

  class Job {
    const size: nat
    const total: nat
    const byKeyset: bool // the rows are read by keyset, not by offset
    var records: map<nat, Delivery>
    var cursor: nat
    // one column of the job's row: the row the keyset checkpoint names, and the mark of a source read to its end
    var keyset: Option<nat>
    var streamed: bool
    ghost var everRead: bool // some attempt read the source to its end, whether or not the mark is still there

    ghost predicate Valid()
      reads this
    {
      && size > 0 && Consistent(records, cursor, everRead, size, total)
      && keyset == (if byKeyset && cursor > 0 then Some(cursor - 1) else None)
      && (streamed ==> everRead)
    }

    constructor (size: nat, total: nat, byKeyset: bool)
      requires size > 0
      ensures Valid() && this.size == size && this.total == total && this.byKeyset == byKeyset
      ensures records == map[] && cursor == 0 && !streamed && !everRead
    {
      this.size, this.total, this.byKeyset := size, total, byKeyset;
      records, cursor, keyset, streamed, everRead := map[], 0, None, false, false;
    }

    /** Mark sequences as skipped; one that has a delivery already is left as it is. */
    method SkipDeliveries(sequences: set<nat>, known: Option<nat>)
      requires Valid()
      modifies this`records
      ensures Valid() && records == WithSkipped(old(records), sequences, size, known)
    {
      records := WithSkipped(records, sequences, size, known);
    }

    /** The cursor goes back to the start, and the keyset checkpoint with it: kept, it would have the next attempt
    read on from the middle. The column also holds the mark, so that goes too. */
    method RetryFailedRows()
      requires Valid()
      modifies this`cursor, this`keyset, this`streamed
      ensures Valid() && cursor == 0 && keyset == None && !streamed
    {
      cursor, keyset, streamed := 0, None, false;
    }

    method SettledSequences() returns (done: set<nat>)
      ensures done == SettledIn(records)
    {
      done := SettledIn(records);
    }

    method SkippedSequences() returns (done: set<nat>)
      ensures done == set s | s in records && records[s].status.Skipped?
    {
      done := set s | s in records && records[s].status.Skipped?;
    }

    /** Persist a delivery. One that exists keeps its row index and row count. */
    method RecordDelivery(sequence: nat, rowIndex: nat, rowCount: nat, ok: bool)
      modifies this`records
      ensures records == old(records)[sequence :=
                (if sequence in old(records) then old(records)[sequence] else Delivery(rowIndex, rowCount, Failed)).(
                  status := if ok then Success else Failed)]
    {
      var status := if ok then Success else Failed;
      if sequence in records {
        records := records[sequence := records[sequence].(status := status)];
      } else {
        records := records[sequence := Delivery(rowIndex, rowCount, status)];
      }
    }

    /** Deliver one batch and record it, unless its sequence is settled. */
    method Flush(start: nat, count: nat, done: set<nat>, goes: nat -> bool, crash: bool, ghost k: nat)
      returns (failed: bool, crashed: bool, sent: seq<Sent>)
      requires Valid() && start == k * size && k < Batches(total, size) && forall s :: s in done ==> s in records
      modifies this`records
      ensures Valid() && Grows(old(records), records, done)
      ensures sent == if k in done then [] else [Sent(k, start, count)]
      ensures crashed ==> crash && k !in done && records == old(records)
      ensures !crashed ==> k in records
      ensures k !in done && !crashed ==> failed == !goes(k)
      ensures k in done ==> !failed && records == old(records)
      ensures forall s :: s in old(records) && s != k ==> records[s] == old(records[s])
    {
      WholeBatches(k, size);
      var sequence := start / size;
      if sequence in done {
        return false, false, [];
      }
      sent := [Sent(sequence, start, count)];
      if crash { // sent, and not recorded: the next attempt sends it again
        return false, true, sent;
      }
      var ok := goes(sequence);
      RecordDelivery(sequence, start, count, ok);
      return !ok, false, sent;
    }

    /** What happens at one point of the run: sequences may be skipped, and the worker may see it. */
    method LookUp(c: Control, done: set<nat>) returns (now: set<nat>)
      requires Valid() && forall s :: s in done ==> s in records
      modifies this`records
      ensures Valid() && Grows(old(records), records, old(records).Keys)
      ensures done <= now && forall s :: s in now ==> s in records
    {
      SkipDeliveries(c.skip, None);
      now := done;
      if c.poll {
        var skips := SkippedSequences();
        now := now + skips;
      }
    }

    /** Checkpoint behind batch `k - 1`. With a keyset the whole column is rewritten, and the mark is gone. */
    method SetCursor(offset: nat, last: Option<nat>, ghost k: nat)
      requires Valid() && 0 < offset == k * size <= total && forall s: nat :: s < k ==> s in records
      requires last == if byKeyset then Some(offset - 1) else None
      modifies this`cursor, this`keyset, this`streamed
      ensures Valid() && cursor == offset && streamed == (old(streamed) && last.None?)
      ensures last.Some? ==> keyset == last
    {
      WholeBatches(k, size);
      cursor := offset;
      if last.Some? {
        keyset, streamed := last, false;
      }
    }

    /** A full buffer: deliver it, record it, move the cursor behind it. */
    method FullBatch(start: nat, done: set<nat>, goes: nat -> bool, crash: bool, crashBeforeCursor: bool, ghost k: nat)
      returns (failed: bool, crashed: bool, sent: seq<Sent>)
      requires Valid() && start == k * size == cursor && (k + 1) * size <= total && forall s :: s in done ==> s in records
      modifies this`records, this`cursor, this`keyset, this`streamed
      ensures Valid() && Grows(old(records), records, done) && sent == (if k in done then [] else [Sent(k, start, size)])
      ensures if crashed then cursor == old(cursor) && streamed == old(streamed)
              else cursor == (k + 1) * size && streamed == (old(streamed) && !byKeyset)
    {
      WholeBatches(k, size);
      NotBeyond(k, size, size, total);
      failed, crashed, sent := Flush(start, size, done, goes, crash, k);
      if crashed || crashBeforeCursor { // recorded, and the cursor not moved: the next attempt passes it over
        return failed, true, sent;
      }
      SetCursor(start + size, if byKeyset then Some(start + size - 1) else None, k + 1);
    }

    /** The same, with what the attempt sent before. */
    method SendFull(before: seq<Sent>, start: nat, done: set<nat>, goes: nat -> bool, crash: bool, crashBeforeCursor: bool,
                    ghost k: nat, ghost settled: set<nat>)
      returns (failed: bool, crashed: bool, sent: seq<Sent>)
      requires Valid() && start == k * size == cursor && start + size <= total && forall s :: s in done ==> s in records
      requires SentInOrder(before, k, size, total, settled) && settled <= done
      modifies this`records, this`cursor, this`keyset, this`streamed
      ensures Valid() && Grows(old(records), records, done)
      ensures SentInOrder(sent, k + 1, size, total, settled) && SentInOrder(sent, Batches(total, size), size, total, settled)
      ensures if crashed then cursor == old(cursor) && streamed == old(streamed)
              else cursor == start + size == (k + 1) * size && streamed == (old(streamed) && !byKeyset)
    {
      WholeBatches(k, size);
      NotBeyond(k, size, size, total);
      failed, crashed, sent := FullBatch(start, done, goes, crash, crashBeforeCursor, k);
      OneMoreSent(before, sent, k, start, size, total, settled, done);
      sent := before + sent;
    }

    /** The rows from the checkpoint on, numbered from the cursor on, in batches. `control(n)` is what happens at the
    n-th point where the worker can be interrupted, `goes(s)` whether batch `s` is delivered. An attempt that does
    not get to the end loses an earlier one's mark as soon as it writes a keyset checkpoint. */
    method Execute(control: nat -> Control, goes: nat -> bool, abort: bool) returns (ended: Ended, sent: seq<Sent>)
      requires Valid()
      modifies this`records, this`cursor, this`keyset, this`streamed, this`everRead
      ensures Valid() && Grows(old(records), records, SettledIn(old(records)))
      ensures SentInOrder(sent, Batches(total, size), size, total, SettledIn(old(records)))
      ensures (ended == Completed ==> streamed) && (old(everRead) ==> everRead)
      ensures ended != Completed ==> streamed == (old(streamed) && (!byKeyset || cursor == old(cursor)))
    {
      var done := SettledSequences();
      ghost var settled := done;
      var over, tick, n;
      ghost var k;
      over, sent, tick, done, n, k := ReadRows(control, goes, abort, done);
      if over.Some? {
        return over.value, sent;
      }
      ended, sent := Finish(sent, control, tick, goes, abort, done, cursor, n, k, settled);
    }

    /** The full batches. Rows left over at the end are in the buffer, n of them. */
    method ReadRows(control: nat -> Control, goes: nat -> bool, abort: bool, settled: set<nat>)
      returns (over: Option<Ended>, sent: seq<Sent>, tick: nat, done: set<nat>, n: nat, ghost k: nat)
      requires Valid() && forall s :: s in settled ==> s in records
      modifies this`records, this`cursor, this`keyset, this`streamed
      ensures Valid() && Grows(old(records), records, settled)
      ensures streamed == (old(streamed) && (!byKeyset || cursor == old(cursor)))
      ensures if over.Some? then over.value != Completed && SentInOrder(sent, Batches(total, size), size, total, settled)
              else cursor == k * size && cursor + n == total && n < size && SentInOrder(sent, k, size, total, settled)
      ensures settled <= done && forall s :: s in done ==> s in records
    {
      over, sent, tick, done, n := None, [], 0, settled, 0; // n rows are in the buffer
      var bufferStart, i := cursor, if keyset.Some? then keyset.value + 1 else cursor;
      k := cursor / size;
      Remainder(cursor, size);
      while i < total
        invariant Valid() && Grows(old(records), records, settled) && old(cursor) <= cursor
        invariant streamed == (old(streamed) && (!byKeyset || cursor == old(cursor)))
        invariant bufferStart == k * size == cursor && i == bufferStart + n && n < size && i <= total
        invariant settled <= done && forall s :: s in done ==> s in records
        invariant over.None? && SentInOrder(sent, k, size, total, settled) && SentInOrder(sent, Batches(total, size), size, total, settled)
      {
        var c := control(tick);
        done := LookUp(c, done);
        if c.crash || c.stop {
          over := Some(if c.crash then Crashed else Canceled);
          return;
        }
        n, i := n + 1, i + 1;
        if n == size {
          var failed, crashed;
          failed, crashed, sent := SendFull(sent, bufferStart, done, goes, control(tick + 1).crash, control(tick + 2).crash, k, settled);
          if crashed || (failed && abort) {
            over := Some(if crashed then Crashed else Aborted);
            return;
          }
          n, bufferStart, k := 0, i, k + 1;
        }
        tick := tick + 3;
      }
    }

    /** The last, smaller batch, if there is one; the cursor stays in front of it. */
    method LastBatch(control: nat -> Control, tick: nat, goes: nat -> bool, abort: bool, done: set<nat>, start: nat, n: nat, ghost k: nat)
      returns (over: Option<Ended>, sent: seq<Sent>)
      requires Valid() && start == k * size && start + n == total && 0 < n < size
      requires forall s :: s in done ==> s in records
      modifies this`records
      ensures Valid() && Grows(old(records), records, done)
      ensures sent == [] || (k !in done && sent == [Sent(k, start, n)])
      ensures if over.Some? then over.value != Completed else k in records
    {
      NotBeyond(k, n, size, total);
      var c := control(tick);
      var now := LookUp(c, done);
      if c.crash || c.stop {
        return Some(if c.crash then Crashed else Canceled), [];
      }
      var failed, crashed;
      failed, crashed, sent := Flush(start, n, now, goes, control(tick + 1).crash, k);
      over := if crashed then Some(Crashed) else if failed && abort then Some(Aborted) else None;
    }

    /** The end of the source: what is left in the buffer, and the mark. */
    method Finish(before: seq<Sent>, control: nat -> Control, tick: nat, goes: nat -> bool, abort: bool, done: set<nat>,
                  start: nat, n: nat, ghost k: nat, ghost settled: set<nat>)
      returns (ended: Ended, sent: seq<Sent>)
      requires Valid() && start == k * size == cursor && start + n == total && n < size
      requires SentInOrder(before, k, size, total, settled) && settled <= done && forall s :: s in done ==> s in records
      modifies this`records, this`streamed, this`everRead
      ensures Valid() && Grows(old(records), records, done) && SentInOrder(sent, Batches(total, size), size, total, settled)
      ensures everRead == (old(everRead) || ended == Completed)
      ensures streamed == (old(streamed) || ended == Completed)
    {
      BatchCount(k, n, size);
      WholeBatches(k, size);
      sent := before;
      if n > 0 {
        var over, it := LastBatch(control, tick, goes, abort, done, start, n, k);
        if it != [] {
          OneMoreSent(before, it, k, start, size, total, settled, done);
          sent := before + it;
        }
        if over.Some? {
          return over.value, sent;
        }
      }
      var c := control(tick + 2);
      var _ := LookUp(c, done);
      if c.crash || c.stop {
        ended := if c.crash then Crashed else Canceled;
        return;
      }
      MarkStreamed();
      ended := Completed;
    }

    /** Set the mark; the keyset checkpoint in the same column stays. */
    method MarkStreamed()
      requires Valid() && forall s: nat :: s < Batches(total, size) ==> s in records
      modifies this`streamed, this`everRead
      ensures Valid() && streamed && everRead
    {
      streamed, everRead := true, true;
    }
  }

  lemma NotBeyond(k: nat, n: nat, size: nat, total: nat)
    requires size > 0 && k * size + n <= total
    ensures k <= Batches(total, size) && (n > 0 ==> k < Batches(total, size))
  {
    var b := Batches(total, size);
    Remainder(total + size - 1, size);
    assert (b - k) * size == b * size - k * size;
    Multiples(b - k, size);
  }

  lemma OneMoreSent(sent: seq<Sent>, it: seq<Sent>, k: nat, start: nat, size: nat, total: nat, settled: set<nat>, done: set<nat>)
    requires SentInOrder(sent, k, size, total, settled) && settled <= done
    requires start == k * size < total && it == (if k in done then [] else [Sent(k, start, Least(size, total - start))])
    ensures SentInOrder(sent + it, k + 1, size, total, settled)
  {
    if k in done {
      assert sent + it == sent;
    }
  }

  /** Any history of attempts, retries of what failed and skips. In every state it passes through, each batch
  has its place, none behind the cursor is without a record, and the keyset checkpoint names the row in front of
  the cursor (`Valid`); and once an attempt has read the source to its end every row lies in exactly one recorded
  batch, also when the mark of that has been overwritten since. */
  method History(job: Job, operations: seq<Operation>)
    requires job.Valid()
    modifies job
    ensures job.Valid() && (old(job.everRead) ==> job.everRead)
    ensures forall s :: s in old(job.records) ==> s in job.records
    ensures job.streamed ==> job.everRead
    ensures job.everRead ==> CoversEveryRow(job.records, job.size, job.total)
  {
    var i := 0;
    while i < |operations|
      invariant 0 <= i <= |operations| && job.Valid() && (old(job.everRead) ==> job.everRead)
      invariant forall s :: s in old(job.records) ==> s in job.records
    {
      match operations[i] {
        case Attempt(control, goes, abort) =>
          var ended, sent := job.Execute(control, goes, abort);
        case RetryFailed => job.RetryFailedRows();
        case Skip(sequences, known) => job.SkipDeliveries(sequences, known);
      }
      i := i + 1;
    }
    if job.everRead {
      forall row: nat | row < job.total ensures InOneBatch(job.records, row, job.size) {
        StreamedCovers(job.records, job.cursor, job.size, job.total, row);
      }
    }
  }
}
