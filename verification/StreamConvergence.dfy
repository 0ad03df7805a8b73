/** The destination converges on the source: a strengthening of the no-loss invariant from "the row went
somewhere" to "the row that is there is the right one", and the theorem it carries. */
module StreamConvergence {
  import opened Changes
  import opened StreamProtocol

  /* ----- slices of the log ----- */

  lemma {:induction false} SliceConcat(log: seq<Entry>, a: nat, b: nat, c: nat)
    requires a <= b <= c <= |log|
    ensures Slice(log, a, c) == Slice(log, a, b) + Slice(log, b, c)
    decreases b - a
  {
    if a < b {
      SliceConcat(log, a + 1, b, c);
    }
  }

  lemma {:induction false} SliceKeeps(log: seq<Entry>, longer: seq<Entry>, a: nat, b: nat)
    requires a <= b <= |log| && log <= longer
    ensures Slice(longer, a, b) == Slice(log, a, b)
    decreases b - a
  {
    if a < b {
      SliceKeeps(log, longer, a + 1, b);
    }
  }

  lemma {:induction false} SliceHolds(log: seq<Entry>, a: nat, b: nat, c: Change)
    requires a <= b <= |log|
    ensures c in Slice(log, a, b) <==> exists p: nat :: a <= p < b && IsChange(log, p) && log[p].change == c
    decreases b - a
  {
    if a < b {
      SliceHolds(log, a + 1, b, c);
      assert a <= a && (IsChange(log, a) <==> log[a].Carried?);
    }
  }

  /** The positions of the changes in `lo .. hi`, in order. */
  function Carriers(log: seq<Entry>, lo: nat, hi: nat): (ps: seq<nat>)
    requires lo <= hi <= |log|
    ensures AllChanges(log, ps)
    ensures forall p :: p in ps <==> lo <= p < hi && IsChange(log, p)
    decreases hi - lo
  {
    if lo == hi then []
    else (if log[lo].Carried? then [lo] else []) + Carriers(log, lo + 1, hi)
  }

  lemma {:induction false} CarriersConcat(log: seq<Entry>, a: nat, b: nat, c: nat)
    requires a <= b <= c <= |log|
    ensures Carriers(log, a, c) == Carriers(log, a, b) + Carriers(log, b, c)
    decreases b - a
  {
    if a < b {
      CarriersConcat(log, a + 1, b, c);
    }
  }

  lemma {:induction false} CarriersKeep(log: seq<Entry>, longer: seq<Entry>, a: nat, b: nat)
    requires a <= b <= |log| && log <= longer
    ensures Carriers(longer, a, b) == Carriers(log, a, b)
    decreases b - a
  {
    if a < b {
      CarriersKeep(log, longer, a + 1, b);
    }
  }

  lemma ChangesOfCons(log: seq<Entry>, p: nat, ps: seq<nat>)
    requires AllChanges(log, [p] + ps)
    ensures AllChanges(log, ps) && IsChange(log, p)
    ensures ChangesOf(log, [p] + ps) == [log[p].change] + ChangesOf(log, ps)
  {
    assert forall q :: q in ps ==> q in [p] + ps;
    assert p in [p] + ps;
  }

  lemma {:induction false} CarriersCarryTheSlice(log: seq<Entry>, lo: nat, hi: nat)
    requires lo <= hi <= |log|
    ensures ChangesOf(log, Carriers(log, lo, hi)) == Slice(log, lo, hi)
    decreases hi - lo
  {
    if lo < hi {
      CarriersCarryTheSlice(log, lo + 1, hi);
      var rest := Carriers(log, lo + 1, hi);
      if log[lo].Carried? {
        ChangesOfCons(log, lo, rest);
      } else {
        assert Carriers(log, lo, hi) == rest;
      }
    }
  }

  /* ----- what converging means, one key at a time ----- */

  function Rest(log: seq<Entry>, cursor: nat): seq<Change>
    requires cursor <= |log|
  {
    Slice(log, cursor, |log|)
  }

  /** The source's row, or none. */
  function Goal(log: seq<Entry>, k: Key): Option<Row> {
    Fold(None, Slice(log, 0, |log|), k)
  }

  lemma GoalIsTheSourceRow(log: seq<Entry>, k: Key)
    ensures Lookup(SourceTable(log), k) == Goal(log, k)
  {
    ApplyIsPerKey(map[], Slice(log, 0, |log|), k);
  }

  /** From this row, the rest of the log leads to the source's. */
  predicate Leads(row: Option<Row>, log: seq<Entry>, cursor: nat, k: Key)
    requires cursor <= |log|
  {
    Fold(row, Rest(log, cursor), k) == Goal(log, k)
  }

  lemma GoalLeads(log: seq<Entry>, cursor: nat, k: Key)
    requires cursor <= |log|
    ensures Leads(Goal(log, k), log, cursor, k)
  {
    var before, rest := Slice(log, 0, cursor), Rest(log, cursor);
    SliceConcat(log, 0, cursor, |log|);
    FoldConcat(None, before, rest, k);
    AbsorbKey(Fold(None, before, k), rest, rest, k);
  }

  lemma LongerLogLeads(row: Option<Row>, log: seq<Entry>, e: Entry, cursor: nat, k: Key)
    requires cursor <= |log| && Leads(row, log, cursor, k)
    ensures Leads(row, log + [e], cursor, k)
  {
    var longer := log + [e];
    var last := Slice(longer, |log|, |longer|);
    SliceConcat(longer, 0, |log|, |longer|);
    SliceConcat(longer, cursor, |log|, |longer|);
    SliceKeeps(log, longer, 0, |log|);
    SliceKeeps(log, longer, cursor, |log|);
    FoldConcat(None, Slice(log, 0, |log|), last, k);
    FoldConcat(row, Rest(log, cursor), last, k);
  }

  /** Writing any part of what is ahead of the cursor, in any order, leaves the row on course. */
  lemma PartLeads(row: Option<Row>, log: seq<Entry>, cursor: nat, part: seq<nat>, k: Key)
    requires cursor <= |log| && Leads(row, log, cursor, k)
    requires AllChanges(log, part) && forall p :: p in part ==> cursor <= p
    ensures Leads(Fold(row, ChangesOf(log, part), k), log, cursor, k)
  {
    var cs := ChangesOf(log, part);
    forall c | c in cs ensures c in Rest(log, cursor) {
      var i :| 0 <= i < |cs| && cs[i] == c;
      assert part[i] in part;
      SliceHolds(log, cursor, |log|, c);
    }
    AbsorbKey(row, cs, Rest(log, cursor), k);
  }

  /** Writing all of a contiguous batch moves the row past it. */
  lemma BatchLeads(row: Option<Row>, log: seq<Entry>, cursor: nat, reach: nat, k: Key)
    requires cursor <= reach <= |log| && Leads(row, log, cursor, k)
    ensures Leads(Fold(row, Slice(log, cursor, reach), k), log, reach, k)
  {
    SliceConcat(log, cursor, reach, |log|);
    FoldConcat(row, Slice(log, cursor, reach), Rest(log, reach), k);
  }

  predicate TouchesKey(log: seq<Entry>, p: nat, k: Key)
    requires IsChange(log, p)
  {
    log[p].change.Touches(k)
  }

  predicate Batchable(log: seq<Entry>, ps: seq<nat>) {
    AllChanges(log, ps) && Independent(ChangesOf(log, ps))
  }

  lemma {:induction false} OneTouch(row: Option<Row>, cs: seq<Change>, c: Change, k: Key)
    requires c.Touches(k) && forall d :: d in cs && d.Touches(k) ==> d == c
    ensures Fold(row, cs, k) == if c in cs then FoldOne(row, c, k) else row
    decreases |cs|
  {
    if cs != [] {
      assert cs[0] in cs;
      assert forall d :: d in cs <==> d == cs[0] || d in cs[1..];
      OneTouch(FoldOne(row, cs[0], k), cs[1..], c, k);
      if c.Write? {
        assert c.cells + c.cells == c.cells;
        assert row.Some? ==> (row.value + c.cells) + c.cells == row.value + c.cells;
      }
    }
  }

  /** Part of a batch, for a key the part touches: as good as the whole batch. */
  lemma PartOfBatchLeads(row: Option<Row>, log: seq<Entry>, cursor: nat, reach: nat, part: seq<nat>, p: nat, k: Key)
    requires cursor <= reach <= |log| && Leads(row, log, cursor, k)
    requires Batchable(log, Carriers(log, cursor, reach))
    requires PartOf(part, Carriers(log, cursor, reach)) && p in part && TouchesKey(log, p, k)
    ensures Leads(Fold(row, ChangesOf(log, part), k), log, reach, k)
  {
    var items := Carriers(log, cursor, reach);
    var batch, cs, c := ChangesOf(log, items), ChangesOf(log, part), log[p].change;
    CarriersCarryTheSlice(log, cursor, reach);
    forall d | d in batch && d.Touches(k) ensures d == c {
      var i :| 0 <= i < |batch| && batch[i] == d;
      assert p in items;
      var j :| 0 <= j < |items| && items[j] == p;
      assert batch[j] == c;
    }
    forall d | d in cs ensures d in batch {
      var i :| 0 <= i < |cs| && cs[i] == d;
      assert part[i] in part;
      var j :| 0 <= j < |items| && items[j] == part[i];
      assert batch[j] == d;
    }
    var i :| 0 <= i < |part| && part[i] == p;
    assert cs[i] == c;
    OneTouch(row, batch, c, k);
    OneTouch(row, cs, c, k);
    BatchLeads(row, log, cursor, reach, k);
  }

  /** A batch that does not touch the key is passed without being written. */
  lemma UntouchedLeads(row: Option<Row>, log: seq<Entry>, cursor: nat, reach: nat, k: Key)
    requires cursor <= reach <= |log| && Leads(row, log, cursor, k)
    requires forall p :: p in Carriers(log, cursor, reach) ==> !TouchesKey(log, p, k)
    ensures Leads(row, log, reach, k)
  {
    forall c | c in Slice(log, cursor, reach) ensures !c.Touches(k) {
      SliceHolds(log, cursor, reach, c);
      var p: nat :| cursor <= p < reach && IsChange(log, p) && log[p].change == c;
      assert p in Carriers(log, cursor, reach);
    }
    UntouchedKey(row, Slice(log, cursor, reach), k);
    BatchLeads(row, log, cursor, reach, k);
  }

  lemma PartUntouched(row: Option<Row>, log: seq<Entry>, part: seq<nat>, k: Key)
    requires AllChanges(log, part) && forall p :: p in part ==> !TouchesKey(log, p, k)
    ensures Fold(row, ChangesOf(log, part), k) == row
  {
    forall c | c in ChangesOf(log, part) ensures !c.Touches(k) {
      var i :| 0 <= i < |part| && ChangesOf(log, part)[i] == c;
      assert part[i] in part;
    }
    UntouchedKey(row, ChangesOf(log, part), k);
  }

  /* ----- the stream in order ----- */

  /** Behind which position is everything taken from the provider? */
  function Base(s: State): nat {
    if s.inflight.Some? then s.inflight.value.reach else s.saved
  }

  function Frontier(s: State): nat {
    if s.tail.Some? then s.tail.value else Base(s)
  }

  predicate LetterTouches(log: seq<Entry>, l: Letter, k: Key)
    requires AllChanges(log, l.positions)
  {
    exists p :: p in l.positions && TouchesKey(log, p, k)
  }

  /** With `cs` applied to it, does each row of letter `i` differ from the source's only in what is written over
  or thrown away ahead of the cursor, and ahead of what is in flight? */
  ghost predicate LeavesOnCourse(s: State, i: nat, cs: seq<Change>)
    requires WellFormed(s) && i < |s.letters| && s.letters[i] in s.letters
  {
    forall k :: LetterTouches(s.log, s.letters[i], k) ==>
      var row := Fold(Lookup(s.dest, k), cs, k);
      && Hides(Rest(s.log, s.saved), k, row, Goal(s.log, k))
      && (s.inflight.Some? ==> Hides(Rest(s.log, s.inflight.value.reach), k, row, Goal(s.log, k)))
  }

  /** The premise of convergence. A position at or behind the pending batch is not taken a second time
  (the check `notePosition` makes against the tail, which `accept` makes against the watermark only), and a
  letter that is replayed as recorded, or discarded, leaves its rows on course. */
  ghost predicate Orderly(cfg: Config, s: State, a: Action)
    requires WellFormed(s) && Enabled(cfg, s, a)
  {
    match a
    case Take => s.next + 1 > s.watermark ==> s.next >= Frontier(s)
    case Retry(i, asRecorded) =>
      assert s.letters[i] in s.letters;
      asRecorded ==> LeavesOnCourse(s, i, ChangesOf(s.log, s.letters[i].positions))
    case ReplayFails(i, part) => // the letter goes on waiting, which says all of rows behind the cursor
      assert s.letters[i] in s.letters;
      s.letters[i].sequence >= s.savedSeq ==> LeavesOnCourse(s, i, ChangesOf(s.log, part))
    case Discard(i) => assert s.letters[i] in s.letters; LeavesOnCourse(s, i, [])
    case _ => true
  }

  predicate SameOperation(log: seq<Entry>, ps: seq<nat>)
    requires AllChanges(log, ps)
  {
    forall p, q :: p in ps && q in ps ==> log[p].change.Operation() == log[q].change.Operation()
  }

  /** Layer upon layer: behind the cursor, in flight, in the buffer, in hand; no gap and no overlap. */
  ghost predicate Ordered(s: State) {
    && WellFormed(s)
    && s.saved <= Base(s) <= Frontier(s) <= |s.log|
    && (s.inflight.Some? ==> s.inflight.value.items == Carriers(s.log, s.saved, s.inflight.value.reach))
    && (s.inflight.Some? ==> Batchable(s.log, s.inflight.value.items))
    && s.buffer == Carriers(s.log, Base(s), Frontier(s))
    && Batchable(s.log, s.buffer) && SameOperation(s.log, s.buffer)
    && (s.hand.Some? ==> s.hand.value == Frontier(s))
    && s.next <= Frontier(s) + (if s.hand.Some? then 1 else 0)
  }

  /** A pending dead letter with a sequence behind `below` holds a change of the row under `k`. */
  predicate Waiting(s: State, below: nat, k: Key)
    requires WellFormed(s)
  {
    exists l :: l in s.letters && l.status.Pending? && l.sequence < below && LetterTouches(s.log, l, k)
  }

  predicate On(s: State, cursor: nat, k: Key)
    requires cursor <= |s.log|
  {
    Leads(Lookup(s.dest, k), s.log, cursor, k)
  }

  /** Which rows are on course beyond the batch in flight. */
  ghost predicate PhaseConverges(s: State)
    requires Ordered(s)
  {
    s.inflight.Some? ==>
      var b := s.inflight.value;
      match b.phase
      case Sending => true
      case Landed => forall k :: !Waiting(s, s.savedSeq, k) ==> On(s, b.reach, k)
      case Recovered => forall k :: !Waiting(s, s.savedSeq, k) ==> On(s, b.reach, k)
      case Failed(touched) =>
        forall k :: !Waiting(s, s.savedSeq, k) && (forall p :: p in b.items && TouchesKey(s.log, p, k) ==> p in touched)
          ==> On(s, b.reach, k)
      case SetAside(n) => s.savedSeq < n && forall k :: !Waiting(s, n, k) ==> On(s, b.reach, k)
  }

  ghost predicate Converging(s: State) {
    && Ordered(s)
    && (forall k :: !Waiting(s, s.savedSeq, k) ==> On(s, s.saved, k))
    && PhaseConverges(s)
  }
}
