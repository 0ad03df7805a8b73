/** The counters of a job against its delivery table, through first records, re-records, skips, notices and
pruning; and the pruning itself, which is budgeted and never loses track of what it removed. */
module Counters {
  import opened Changes
  import opened ReplayJob

  datatype Cell = Cell(rowCount: nat, status: Status)

  /** Deliveries by sequence; the sequence -1 is for notices that belong to no batch. */
  type Deliveries = map<int, Cell>

  const BATCH: nat := 2000

  function Part(d: Cell, status: Status): nat {
    if d.status == status then d.rowCount else 0
  }

  lemma HasElement(s: set<int>)
    requires s != {}
    ensures exists k: int :: k in s
  {
    assert (forall k: int :: k !in s) ==> s == {};
  }

  ghost function SomeKey(m: Deliveries): (k: int)
    requires m.Keys != {}
    ensures k in m
  {
    HasElement(m.Keys);
    var k: int :| k in m.Keys;
    k
  }

  /** The rows of the deliveries with this status. */
  ghost function Rows(m: Deliveries, status: Status): nat
    decreases |m|
  {
    if m.Keys == {} then 0
    else
      var k := SomeKey(m);
      Shrinks(m, k);
      Part(m[k], status) + Rows(m - {k}, status)
  }

  lemma Shrinks(m: Deliveries, k: int)
    requires k in m
    ensures |m - {k}| == |m| - 1
  {
    assert (m - {k}).Keys == m.Keys - {k};
    assert |m.Keys - {k}| == |m.Keys| - 1;
  }

  lemma Swapped(m: Deliveries, j: int, k: int)
    ensures (m - {j}) - {k} == (m - {k}) - {j}
  {
  }

  /** Any delivery can be taken out of the sum first. */
  lemma {:induction false} TakeOut(m: Deliveries, status: Status, k: int)
    requires k in m
    ensures Rows(m, status) == Part(m[k], status) + Rows(m - {k}, status)
    decreases |m|
  {
    var j := SomeKey(m);
    if j != k {
      Shrinks(m, j);
      Shrinks(m, k);
      TakeOut(m - {j}, status, k);
      TakeOut(m - {k}, status, j);
      Swapped(m, j, k);
    }
  }

  lemma PutIn(m: Deliveries, status: Status, k: int, d: Cell)
    ensures Rows(m[k := d], status) == Rows(m, status) - (if k in m then Part(m[k], status) else 0) + Part(d, status)
  {
    TakeOut(m[k := d], status, k);
    if k in m {
      TakeOut(m, status, k);
      assert m[k := d] - {k} == m - {k};
    } else {
      assert m[k := d] - {k} == m;
    }
  }

  /** The three counters, as the job's row holds them. */
  datatype Counts = Counts(sent: int, failed: int, skipped: int)
  {
    function Of(status: Status): int {
      match status
      case Success => sent
      case Failed => failed
      case Skipped => skipped
    }
  }

  /** Every counter is what the retained deliveries and the pruned ones come to. */
  ghost predicate Agree(counts: Counts, kept: Deliveries, pruned: Counts) {
    forall status :: counts.Of(status) == Rows(kept, status) + pruned.Of(status)
  }

  /** What `recordDelivery` does to the counters: the old contribution goes, the new one comes. */
  function Recorded(counts: Counts, kept: Deliveries, sequence: int, rowCount: nat, ok: bool): Counts {
    var was := if sequence in kept then kept[sequence] else Cell(0, Failed);
    Counts(counts.sent - Part(was, Success) + (if ok then rowCount else 0),
           counts.failed - Part(was, Failed) + (if ok then 0 else rowCount),
           counts.skipped - Part(was, Skipped))
  }

  /** The stored row: the update branch does not write the row count. */
  function Stored(kept: Deliveries, sequence: int, rowCount: nat, ok: bool): Cell {
    Cell(if sequence in kept then kept[sequence].rowCount else rowCount, if ok then Success else Failed)
  }

  lemma RecordedBy(counts: Counts, kept: Deliveries, pruned: Counts, sequence: int, rowCount: nat, ok: bool, status: Status)
    requires Agree(counts, kept, pruned)
    ensures var d := Stored(kept, sequence, rowCount, ok);
            Recorded(counts, kept, sequence, rowCount, ok).Of(status)
              == Rows(kept[sequence := d], status) + pruned.Of(status) + (if d.status == status then rowCount - d.rowCount else 0)
  {
    PutIn(kept, status, sequence, Stored(kept, sequence, rowCount, ok));
    assert counts.Of(status) == Rows(kept, status) + pruned.Of(status);
  }

  /** A re-record keeps the counters right if and only if it brings the row count that is stored. */
  lemma RecordKeepsAgreement(counts: Counts, kept: Deliveries, pruned: Counts, sequence: int, rowCount: nat, ok: bool)
    requires Agree(counts, kept, pruned)
    ensures Agree(Recorded(counts, kept, sequence, rowCount, ok), kept[sequence := Stored(kept, sequence, rowCount, ok)], pruned) <==>
            (sequence in kept ==> kept[sequence].rowCount == rowCount)
  {
    forall status ensures var d := Stored(kept, sequence, rowCount, ok);
            Recorded(counts, kept, sequence, rowCount, ok).Of(status)
              == Rows(kept[sequence := d], status) + pruned.Of(status) + (if d.status == status then rowCount - d.rowCount else 0) {
      RecordedBy(counts, kept, pruned, sequence, rowCount, ok, status);
    }
    var d := Stored(kept, sequence, rowCount, ok);
    var after := Recorded(counts, kept, sequence, rowCount, ok);
    assert Agree(after, kept[sequence := d], pruned) ==>
             after.Of(d.status) == Rows(kept[sequence := d], d.status) + pruned.Of(d.status);
  }

  /** A notice touches no counter, and leaves the row count of a cell that is there: right if and only if that
  cell is new, is a skip already, or counts no rows. */
  lemma NoticeKeepsAgreement(counts: Counts, kept: Deliveries, pruned: Counts, sequence: int)
    requires Agree(counts, kept, pruned)
    ensures Agree(counts, kept[sequence := Noticed(kept, sequence)], pruned) <==>
            (sequence in kept ==> kept[sequence].status.Skipped? || kept[sequence].rowCount == 0)
  {
    var d := Noticed(kept, sequence);
    forall status ensures Rows(kept[sequence := d], status) ==
        Rows(kept, status) - (if sequence in kept then Part(kept[sequence], status) else 0) + Part(d, status) {
      PutIn(kept, status, sequence, d);
    }
    assert forall status :: counts.Of(status) == Rows(kept, status) + pruned.Of(status);
    assert Agree(counts, kept[sequence := d], pruned) ==>
             counts.Of(Skipped) == Rows(kept[sequence := d], Skipped) + pruned.Of(Skipped);
  }

  function Noticed(kept: Deliveries, sequence: int): Cell {
    Cell(if sequence in kept then kept[sequence].rowCount else 0, Skipped)
  }

  /* ----- skips ----- */

  function SkipRows(sequences: seq<nat>, size: nat, total: Option<nat>): nat
    requires size > 0
  {
    if sequences == [] then 0
    else ReplayJob.SkipCount(sequences[0], size, total) + SkipRows(sequences[1..], size, total)
  }

  /** The row counts of the first `n` sequences, were all of them skipped. */
  function SkipSum(n: nat, size: nat, total: nat): nat
    requires size > 0
  {
    if n == 0 then 0 else SkipSum(n - 1, size, total) + ReplayJob.SkipCount(n - 1, size, Some(total))
  }

  lemma {:induction false} SkipSumBefore(n: nat, size: nat, total: nat)
    requires size > 0 && n < ReplayJob.Batches(total, size)
    ensures SkipSum(n, size, total) == n * size
    decreases n
  {
    if n > 0 {
      SkipSumBefore(n - 1, size, total);
      ReplayJob.WholeBatches(n - 1, size);
    }
  }

  /** Skipped one by one, the sequences of a source account for each of its rows once. */
  lemma SkipsSumToTheTotal(size: nat, total: nat)
    requires size > 0
    ensures SkipSum(ReplayJob.Batches(total, size), size, total) == total
  {
    var n := ReplayJob.Batches(total, size);
    ReplayJob.Remainder(total + size - 1, size);
    if n > 0 {
      SkipSumBefore(n - 1, size, total);
      ReplayJob.WholeBatches(n - 1, size);
    }
  }

  /* ----- pruning ----- */

  /** The oldest `n` of a set of sequences, as the database hands them over. */
  ghost predicate Oldest(all: set<int>, n: nat, taken: set<int>) {
    && taken <= all && |taken| == (if |all| < n then |all| else n)
    && forall a, b :: a in taken && b in all - taken ==> a < b
  }

  predicate Highest(s: set<int>, below: int) {
    below - 1 in s && forall k :: k in s ==> k < below
  }

  lemma {:induction false} HasHighest(s: set<int>)
    requires s != {}
    ensures exists below :: Highest(s, below)
    decreases |s|
  {
    HasElement(s);
    var k: int :| k in s;
    if s == {k} {
      assert Highest(s, k + 1);
    } else {
      HasHighest(s - {k});
      var b: int :| Highest(s - {k}, b);
      assert forall j :: j in s ==> j == k || j in s - {k};
      if k < b {
        assert Highest(s, b);
      } else {
        assert Highest(s, k + 1);
      }
    }
  }

  ghost function Picked(m: Deliveries, some: set<int>): Deliveries {
    map k | k in m && k in some :: m[k]
  }

  ghost function Taken(m: Deliveries, gone: set<int>): Counts {
    Counts(Rows(Picked(m, gone), Success), Rows(Picked(m, gone), Failed), Rows(Picked(m, gone), Skipped))
  }

  lemma OneLess(m: Deliveries, gone: set<int>, k: int)
    requires gone <= m.Keys && k in gone
    ensures (m - {k}) - (gone - {k}) == m - gone && Picked(m, gone) - {k} == Picked(m - {k}, gone - {k})
    ensures k in Picked(m, gone) && Picked(m, gone)[k] == m[k]
  {
  }

  lemma SplitOnce(m: Deliveries, gone: set<int>, status: Status, k: int)
    requires gone <= m.Keys && k in gone
    ensures Rows(m - {k}, status) == Rows((m - {k}) - (gone - {k}), status) + Rows(Picked(m - {k}, gone - {k}), status) ==>
            Rows(m, status) == Rows(m - gone, status) + Rows(Picked(m, gone), status)
  {
    OneLess(m, gone, k);
    TakeOut(m, status, k);
    TakeOut(Picked(m, gone), status, k);
  }

  lemma SplitNothing(m: Deliveries)
    ensures m - {} == m && Picked(m, {}) == map[]
  {
  }

  lemma {:induction false} RowsSplit(m: Deliveries, gone: set<int>, status: Status)
    requires gone <= m.Keys
    ensures Rows(m, status) == Rows(m - gone, status) + Rows(Picked(m, gone), status)
    decreases |gone|
  {
    if gone == {} {
      SplitNothing(m);
    } else {
      HasElement(gone);
      var k: int :| k in gone;
      RowsSplit(m - {k}, gone - {k}, status);
      SplitOnce(m, gone, status, k);
    }
  }

  lemma PruneKeepsAgreement(counts: Counts, kept: Deliveries, pruned: Counts, gone: set<int>)
    requires Agree(counts, kept, pruned) && gone <= kept.Keys
    ensures var t := Taken(kept, gone);
            Agree(counts, kept - gone, Counts(pruned.sent + t.sent, pruned.failed + t.failed, pruned.skipped + t.skipped))
  {
    forall status ensures Rows(kept, status) == Rows(kept - gone, status) + Rows(Picked(kept, gone), status) {
      RowsSplit(kept, gone, status);
    }
    assert forall status :: counts.Of(status) == Rows(kept, status) + pruned.Of(status);
  }

  class Job {
    var counts: Counts
    var deliveries: Deliveries
    var prunedDeliveries: nat
    var prunedBelow: Option<int>
    ghost var pruned: Counts
    ghost var gone: set<int>

    ghost predicate Valid()
      reads this
    {
      && Agree(counts, deliveries, pruned)
      && (forall s :: s in gone ==> prunedBelow.Some? && s < prunedBelow.value)
    }

    constructor ()
      ensures Valid() && deliveries == map[] && gone == {}
    {
      counts, deliveries, prunedDeliveries, prunedBelow := Counts(0, 0, 0), map[], 0, None;
      pruned, gone := Counts(0, 0, 0), {};
    }

    /** One delivery is stored and the counters move by what it changes; they still agree with the deliveries
    afterwards if and only if a cell that was there already had this many rows. */
    method RecordDelivery(sequence: int, rowCount: nat, ok: bool)
      requires Valid()
      modifies this`counts, this`deliveries
      ensures counts == Recorded(old(counts), old(deliveries), sequence, rowCount, ok)
      ensures deliveries == old(deliveries)[sequence := Stored(old(deliveries), sequence, rowCount, ok)]
      ensures Valid() <==> (sequence in old(deliveries) ==> old(deliveries)[sequence].rowCount == rowCount)
    {
      RecordKeepsAgreement(counts, deliveries, pruned, sequence, rowCount, ok);
      var sent, failed, skipped := 0, 0, 0;
      if sequence in deliveries {
        var existing := deliveries[sequence];
        match existing.status
        case Success => sent := sent - existing.rowCount;
        case Failed => failed := failed - existing.rowCount;
        case Skipped => skipped := skipped - existing.rowCount;
      }
      if ok {
        sent := sent + rowCount;
      } else {
        failed := failed + rowCount;
      }
      counts := Counts(counts.sent + sent, counts.failed + failed, counts.skipped + skipped);
      var status := if ok then Success else Failed;
      deliveries := deliveries[sequence := if sequence in deliveries then deliveries[sequence].(status := status)
                                           else Cell(rowCount, status)];
    }

    /** Sequences without a cell get a skipped one; the others are left alone. */
    method SkipDeliveries(sequences: seq<nat>, size: nat, total: Option<nat>) returns (n: nat)
      requires Valid() && size > 0
      modifies this`counts, this`deliveries
      ensures Valid() && forall s :: s in old(deliveries) ==> s in deliveries && deliveries[s] == old(deliveries)[s]
      ensures forall s :: s in sequences ==> s in deliveries
      ensures forall s :: s in deliveries && s !in old(deliveries) ==>
                s >= 0 && s in sequences && deliveries[s] == Cell(ReplayJob.SkipCount(s, size, total), Skipped)
      ensures counts.sent == old(counts).sent && counts.failed == old(counts).failed
    {
      n := 0;
      var i := 0;
      while i < |sequences|
        invariant 0 <= i <= |sequences| && Valid()
        invariant forall s :: s in old(deliveries) ==> s in deliveries && deliveries[s] == old(deliveries)[s]
        invariant forall s :: s in sequences[..i] ==> s in deliveries
        invariant forall s :: s in deliveries && s !in old(deliveries) ==>
                    s >= 0 && s in sequences && deliveries[s] == Cell(ReplayJob.SkipCount(s, size, total), Skipped)
        invariant counts.sent == old(counts).sent && counts.failed == old(counts).failed
      {
        var s := sequences[i];
        if s !in deliveries { // also drops a sequence named twice
          SkipOne(s, ReplayJob.SkipCount(s, size, total));
          n := n + 1;
        }
        i := i + 1;
      }
    }

    method SkipOne(s: nat, rowCount: nat)
      requires Valid() && s !in deliveries
      modifies this`counts, this`deliveries
      ensures Valid() && deliveries == old(deliveries)[s := Cell(rowCount, Skipped)]
      ensures counts == old(counts).(skipped := old(counts).skipped + rowCount)
    {
      ghost var was := deliveries;
      deliveries := deliveries[s := Cell(rowCount, Skipped)];
      counts := counts.(skipped := counts.skipped + rowCount);
      forall status ensures counts.Of(status) == Rows(deliveries, status) + pruned.Of(status) {
        PutIn(was, status, s, Cell(rowCount, Skipped));
        assert old(counts).Of(status) == Rows(was, status) + pruned.Of(status);
      }
    }

    /** One batch of a sweep: the deletion and its bookkeeping are one transaction. */
    method Prune(batch: set<int>, below: int)
      requires Valid() && batch <= deliveries.Keys && Highest(batch, below)
      modifies this`deliveries, this`prunedDeliveries, this`prunedBelow, this`pruned, this`gone
      ensures Valid() && deliveries == old(deliveries) - batch && gone == old(gone) + batch
      ensures prunedDeliveries == old(prunedDeliveries) + |batch|
      ensures prunedBelow.Some? && (old(prunedBelow).Some? ==> old(prunedBelow).value <= prunedBelow.value)
    {
      PruneKeepsAgreement(counts, deliveries, pruned, batch);
      ghost var t := Taken(deliveries, batch);
      deliveries := deliveries - batch;
      prunedDeliveries := prunedDeliveries + |batch|;
      var floor := if prunedBelow.Some? then prunedBelow.value else 0;
      prunedBelow := Some(if floor < below then below else floor); // never lowered
      pruned := Counts(pruned.sent + t.sent, pruned.failed + t.failed, pruned.skipped + t.skipped);
      gone := gone + batch;
    }
  }

  /** The matching deliveries that are still there. */
  function Matching(deliveries: Deliveries, doomed: set<int>): set<int> {
    set k | k in deliveries && k in doomed
  }

  /** Older than every matching delivery that is still there. */
  ghost predicate AllOlder(removed: set<int>, matching: set<int>) {
    forall a, b :: a in removed && b in matching ==> a < b
  }

  /** The database's answers: the oldest of some sequences, and the highest of a batch. */
  ghost predicate Answers(take: (set<int>, nat) -> set<int>, top: set<int> -> int) {
    (forall all, n :: Oldest(all, n, take(all, n))) && forall s :: s != {} ==> Highest(s, top(s))
  }

  ghost predicate IsBatch(deliveries: Deliveries, doomed: set<int>, n: nat, batch: set<int>) {
    && batch <= deliveries.Keys && batch <= doomed && |batch| <= n
    && (|batch| < n ==> batch == Matching(deliveries, doomed))
    && AllOlder(batch, Matching(deliveries, doomed) - batch)
  }

  /** The oldest matching deliveries, at most `n` of them, and the sequence they lie below. */
  method NextBatch(deliveries: Deliveries, doomed: set<int>, n: nat, take: (set<int>, nat) -> set<int>, top: set<int> -> int)
    returns (batch: set<int>, below: int)
    requires Answers(take, top)
    ensures IsBatch(deliveries, doomed, n, batch)
    ensures batch != {} ==> Highest(batch, below)
  {
    var matching := Matching(deliveries, doomed);
    batch := take(matching, n);
    assert Oldest(matching, n, batch);
    below := top(batch);
    if |batch| < n {
      WholeSet(batch, matching);
    }
  }

  lemma BatchGone(was: Deliveries, doomed: set<int>, removed: set<int>, n: nat, batch: set<int>)
    requires IsBatch(was, doomed, n, batch) && AllOlder(removed, Matching(was, doomed))
    ensures |was - batch| == |was| - |batch|
    ensures AllOlder(removed + batch, Matching(was - batch, doomed))
    ensures |batch| < n ==> Matching(was - batch, doomed) == {}
  {
    assert Matching(was - batch, doomed) == Matching(was, doomed) - batch;
    assert was.Keys == (was - batch).Keys + batch;
    assert |was.Keys| == |(was - batch).Keys| + |batch|;
  }

  lemma MinusTwice(m: Deliveries, a: set<int>, b: set<int>)
    ensures (m - a) - b == m - (a + b)
  {
  }

  /** One round: the oldest matching deliveries go, if there are any. */
  method PruneOldest(job: Job, doomed: set<int>, n: nat, take: (set<int>, nat) -> set<int>, top: set<int> -> int)
    returns (batch: set<int>)
    requires job.Valid() && Answers(take, top)
    modifies job
    ensures job.Valid() && job.counts == old(job.counts) && IsBatch(old(job.deliveries), doomed, n, batch)
    ensures job.deliveries == old(job.deliveries) - batch && job.gone == old(job.gone) + batch
  {
    var below;
    batch, below := NextBatch(job.deliveries, doomed, n, take, top);
    if batch == {} {
      assert job.deliveries - {} == job.deliveries;
    } else {
      job.Prune(batch, below);
    }
  }

  /** Prune the doomed deliveries from the low sequences up, spending at most the budget. `top` is the highest
  sequence of a batch. */
  method DeleteWhere(job: Job, doomed: set<int>, budget: nat, take: (set<int>, nat) -> set<int>, top: set<int> -> int)
    returns (total: nat, left: nat, ghost removed: set<int>)
    requires job.Valid()
    requires Answers(take, top)
    modifies job
    ensures job.Valid() && total + left == budget && job.counts == old(job.counts)
    ensures job.deliveries == old(job.deliveries) - removed && removed <= doomed && job.gone == old(job.gone) + removed
    ensures total == |old(job.deliveries)| - |job.deliveries| && AllOlder(removed, Matching(job.deliveries, doomed))
    ensures left > 0 ==> Matching(job.deliveries, doomed) == {}
  {
    total, left, removed := 0, budget, {};
    var more := true;
    while left > 0 && more
      invariant job.Valid() && total + left == budget && job.counts == old(job.counts)
      invariant job.deliveries == old(job.deliveries) - removed && removed <= doomed && job.gone == old(job.gone) + removed
      invariant total == |old(job.deliveries)| - |job.deliveries| && AllOlder(removed, Matching(job.deliveries, doomed))
      invariant !more && left > 0 ==> Matching(job.deliveries, doomed) == {}
      decreases more, left
    {
      var n := if BATCH < left then BATCH else left;
      ghost var was := job.deliveries;
      var batch := PruneOldest(job, doomed, n, take, top);
      BatchGone(was, doomed, removed, n, batch);
      MinusTwice(old(job.deliveries), removed, batch);
      removed := removed + batch;
      total, left := total + |batch|, left - |batch|;
      if |batch| < BATCH { // an empty batch, the last one, or the end of the budget
        more := false;
      }
    }
  }

  lemma WholeSet(part: set<int>, all: set<int>)
    requires part <= all && |part| == |all|
    ensures part == all
  {
    assert all == part + (all - part);
    assert |all| == |part| + |all - part|;
  }

  /** Prune all but the `cap` highest sequences, sparing those with parked rows. `newest` is the
  sequence the newest `cap` start at. */
  method TrimLiveJob(job: Job, cap: nat, budget: nat, parked: set<int>, newest: (set<int>, nat) -> int,
                     take: (set<int>, nat) -> set<int>, top: set<int> -> int)
    returns (total: nat, left: nat)
    requires job.Valid() && cap > 0
    requires Answers(take, top)
    requires forall all: set<int>, n: nat :: 0 < n <= |all| ==> |From(all, newest(all, n))| == n
    modifies job
    ensures job.Valid() && total + left == budget && job.counts == old(job.counts)
    ensures job.deliveries.Keys <= old(job.deliveries).Keys
    ensures |job.deliveries| >= (if |old(job.deliveries)| < cap then |old(job.deliveries)| else cap)
    ensures forall s :: s in old(job.deliveries) && s in parked ==> s in job.deliveries
    ensures left > 0 ==> |job.deliveries.Keys - parked| <= cap
  {
    total, left := 0, budget;
    if |job.deliveries| <= cap {
      assert |job.deliveries.Keys| == |job.deliveries|;
      Fewer(job.deliveries.Keys - parked, job.deliveries.Keys);
      return;
    }
    ghost var keys := job.deliveries.Keys;
    assert |keys| == |job.deliveries|;
    var boundary := newest(job.deliveries.Keys, cap);
    var doomed := set k | k in job.deliveries && k < boundary && k !in parked;
    ghost var removed;
    total, left, removed := DeleteWhere(job, doomed, budget, take, top);
    Fewer(From(keys, boundary), job.deliveries.Keys);
    if left > 0 {
      assert forall k :: k in job.deliveries.Keys - parked ==> k !in Matching(job.deliveries, doomed);
      Fewer(job.deliveries.Keys - parked, From(keys, boundary));
    }
  }

  function From(all: set<int>, boundary: int): set<int> {
    set k | k in all && k >= boundary
  }

  lemma Fewer(a: set<int>, b: set<int>)
    requires a <= b
    ensures |a| <= |b|
  {
    assert b == a + (b - a);
    assert |b| == |a| + |b - a|;
  }
}
