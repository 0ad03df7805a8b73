/** What comes of taking a change again that is already behind the pending batch. `accept` compares a change with
the watermark alone, so a provider that reconnects while rows are under way can get one through. */
module StreamStaleTakes {
  import opened Changes
  import opened StreamProtocol
  import opened StreamConvergence
  import opened StreamRuns
  import StreamTheorems

  /** The provider hands over a change beyond the watermark that is in flight, or in the buffer, already; nothing in
  flight has failed. */
  ghost predicate Stale(s: State)
    requires Ordered(s)
  {
    && !s.halted && s.hand.None? && s.watermark <= s.next < Frontier(s) && s.log[s.next].Carried?
    && (s.inflight.Some? ==> !s.inflight.value.phase.Failed?)
  }

  /** The same state with a change in hand. */
  function Holding(s: State, q: nat): State {
    s.(hand := Some(q), next := q + 1)
  }

  /** A delivery step is blind to what is in hand. */
  lemma BlindStep(cfg: Config, s: State, a: Action, q: nat)
    requires WellFormed(s) && IsChange(s.log, q) && Enabled(cfg, s, a) && (a.Deliver? || a.Checkpoint? || a.Flush?)
    ensures WellFormed(Holding(s, q)) && Enabled(cfg, Holding(s, q), a)
    ensures Do(cfg, Holding(s, q), a) == Holding(Do(cfg, s, a), q)
  {
  }

  lemma StepWhileHolding(cfg: Config, from: State, s: State, a: Action, q: nat) returns (t: State)
    requires cfg.keyed && Converging(s) && IsChange(s.log, q) && LeadsTo(cfg, from, Holding(s, q))
    requires (a.Deliver? || a.Checkpoint? || a.Flush?) && Enabled(cfg, s, a)
    ensures t == Do(cfg, s, a) && Converging(t) && LeadsTo(cfg, from, Holding(t, q))
  {
    t := Do(cfg, s, a);
    BlindStep(cfg, s, a, q);
    var _ := Go(cfg, from, Holding(s, q), a, Holding(t, q));
    StreamTheorems.Step(cfg, s, a);
  }

  /** What is in flight lands. */
  lemma Settle(cfg: Config, from: State, s: State, q: nat) returns (t: State)
    requires cfg.keyed && Converging(s) && IsChange(s.log, q) && LeadsTo(cfg, from, Holding(s, q))
    requires !s.halted && (s.inflight.Some? ==> !s.inflight.value.phase.Failed?)
    ensures Converging(t) && LeadsTo(cfg, from, Holding(t, q)) && t.inflight.None? && t.saved == Base(s) && !t.halted
    ensures t.log == s.log && t.letters == s.letters && t.tail == s.tail && t.buffer == s.buffer
  {
    t := s;
    if s.inflight.Some? {
      if s.inflight.value.phase.Sending? {
        t := StepWhileHolding(cfg, from, t, Deliver, q);
      }
      t := StepWhileHolding(cfg, from, t, Checkpoint, q);
    }
  }

  /** And so does the pending batch, with the change still in hand. */
  lemma Drain(cfg: Config, from: State, s: State, q: nat) returns (t: State)
    requires cfg.keyed && Converging(s) && IsChange(s.log, q) && LeadsTo(cfg, from, Holding(s, q))
    requires !s.halted && (s.inflight.Some? ==> !s.inflight.value.phase.Failed?)
    ensures Converging(t) && LeadsTo(cfg, from, Holding(t, q)) && !t.halted && t.saved == Frontier(s)
    ensures t.inflight.None? && t.tail.None? && t.log == s.log && t.letters == s.letters
  {
    t := Settle(cfg, from, s, q);
    if t.tail.Some? {
      t := StepWhileHolding(cfg, from, t, Flush, q);
      t := StepWhileHolding(cfg, from, t, Deliver, q);
      t := StepWhileHolding(cfg, from, t, Checkpoint, q);
    }
  }

  /** Positions up to the watermark are passed over. */
  lemma {:induction false} PassOver(cfg: Config, from: State, u: State, n: nat)
    requires LeadsTo(cfg, from, u) && WellFormed(u) && !u.halted && u.hand.None? && u.next <= n <= u.watermark
    ensures LeadsTo(cfg, from, u.(next := n))
    decreases n - u.next
  {
    if u.next < n {
      var t := Go(cfg, from, u, Take, u.(next := u.next + 1));
      PassOver(cfg, from, t, n);
    }
  }

  /** Nothing in hand, in the buffer, or in flight. */
  predicate Idle(s: State) {
    WellFormed(s) && !s.halted && s.hand.None? && s.inflight.None? && s.tail.None? && s.watermark <= s.next
  }

  /** A batch of this much reach goes out, lands, and is put behind the cursor. */
  lemma SendOut(cfg: Config, from: State, u: State) returns (v: State)
    requires WellFormed(u) && !u.halted && u.hand.None? && u.inflight.None? && u.tail.Some? && u.tail.value <= u.next
    requires LeadsTo(cfg, from, u)
    ensures LeadsTo(cfg, from, v) && Idle(v) && v.dest == AfterWrite(u, u.buffer).dest
    ensures v.saved == u.tail.value && v.next == u.next && v.log == u.log && v.letters == u.letters
  {
    v := Go(cfg, from, u, Flush, AfterFlush(u));
    v := Go(cfg, from, v, Deliver, Do(cfg, v, Deliver));
    v := Go(cfg, from, v, Checkpoint, AfterCheckpoint(v));
  }

  lemma WriteOne(s: State, p: nat)
    requires IsChange(s.log, p)
    ensures AfterWrite(s, [p]).dest == ApplyOne(s.dest, s.log[p].change)
  {
    var c := s.log[p].change;
    assert ChangesOf(s.log, [p]) == [c] && [c][1..] == [];
    assert Apply(s.dest, [c]) == Apply(ApplyOne(s.dest, c), []);
  }

  /** The change joins the empty batch, what is behind the watermark is passed over, and the change lands. */
  lemma LandAgain(cfg: Config, from: State, t: State, q: nat) returns (v: State)
    requires WellFormed(t) && !t.halted && t.inflight.None? && t.tail.None? && q < t.saved
    requires IsChange(t.log, q) && LeadsTo(cfg, from, Holding(t, q))
    ensures LeadsTo(cfg, from, v) && Idle(v) && v.next == t.saved && v.log == t.log && v.letters == t.letters
    ensures v.dest == ApplyOne(t.dest, t.log[q].change)
  {
    v := Holding(t, q);
    v := Go(cfg, from, v, Put, v.(hand := None, buffer := [q], tail := Some(q + 1)));
    PassOver(cfg, from, v, t.saved);
    v := v.(next := t.saved);
    WriteOne(v, q);
    v := SendOut(cfg, from, v);
  }

  /** One more entry of the log, delivered or passed over by itself. */
  lemma ReadOne(cfg: Config, from: State, u: State) returns (v: State)
    requires Idle(u) && u.next < |u.log| && LeadsTo(cfg, from, u)
    ensures LeadsTo(cfg, from, v) && Idle(v) && v.next == v.saved == u.next + 1 && v.log == u.log && v.letters == u.letters
    ensures v.dest == if u.log[u.next].Carried? then ApplyOne(u.dest, u.log[u.next].change) else u.dest
  {
    var p := u.next;
    if u.log[p].Carried? {
      v := Go(cfg, from, u, Take, u.(next := p + 1, hand := Some(p)));
      v := Go(cfg, from, v, Put, u.(next := p + 1, buffer := [p], tail := Some(p + 1)));
      WriteOne(v, p);
    } else {
      v := Go(cfg, from, u, Take, u.(next := p + 1, tail := Some(p + 1)));
      assert ChangesOf(v.log, []) == [];
    }
    v := SendOut(cfg, from, v);
  }

  lemma {:induction false} ReadOn(cfg: Config, from: State, u: State) returns (v: State)
    requires Idle(u) && LeadsTo(cfg, from, u)
    ensures LeadsTo(cfg, from, v) && Idle(v) && v.log == u.log && v.letters == u.letters
    ensures if u.next < |u.log| then v.saved == |v.log| else v == u
    ensures forall k :: Lookup(v.dest, k) == Fold(Lookup(u.dest, k), Slice(u.log, u.next, |u.log|), k)
    decreases |u.log| - u.next
  {
    v := u;
    if u.next < |u.log| {
      var w := ReadOne(cfg, from, u);
      v := ReadOn(cfg, from, w);
      forall k ensures Lookup(v.dest, k) == Fold(Lookup(u.dest, k), Slice(u.log, u.next, |u.log|), k) {
        OneEntryFolds(u, w, k);
      }
    }
  }

  lemma OneEntryFolds(u: State, w: State, k: Key)
    requires u.next < |u.log|
    requires w.dest == if u.log[u.next].Carried? then ApplyOne(u.dest, u.log[u.next].change) else u.dest
    ensures Fold(Lookup(w.dest, k), Slice(u.log, u.next + 1, |u.log|), k) ==
            Fold(Lookup(u.dest, k), Slice(u.log, u.next, |u.log|), k)
  {
    var rest := Slice(u.log, u.next + 1, |u.log|);
    if u.log[u.next].Carried? {
      var c := u.log[u.next].change;
      assert Slice(u.log, u.next, |u.log|) == [c] + rest && ([c] + rest)[1..] == rest;
    } else {
      assert Slice(u.log, u.next, |u.log|) == rest;
    }
  }

  lemma {:induction false} PassedChangesNothing(log: seq<Entry>, from: nat)
    requires from <= |log|
    ensures Slice(log + [Passed], from, |log| + 1) == Slice(log, from, |log|)
    decreases |log| - from
  {
    if from == |log| {
      assert Slice(log + [Passed], |log| + 1, |log| + 1) == [];
    } else {
      PassedChangesNothing(log, from + 1);
    }
  }

  /** Everything ahead is read, and one more entry of other tables, which takes the cursor to the end. */
  lemma ReadToTheEnd(cfg: Config, from: State, u: State) returns (v: State)
    requires Idle(u) && LeadsTo(cfg, from, u)
    ensures LeadsTo(cfg, from, v) && Idle(v) && v.log == u.log + [Passed] && v.letters == u.letters
    ensures v.saved == |v.log| && Rest(v.log, 0) == Rest(u.log, 0)
    ensures forall k :: Lookup(v.dest, k) == Fold(Lookup(u.dest, k), Rest(u.log, u.next), k)
  {
    v := Go(cfg, from, u, SourceWrites(Passed), u.(log := u.log + [Passed]));
    v := ReadOn(cfg, from, v);
    PassedChangesNothing(u.log, u.next);
    PassedChangesNothing(u.log, 0);
  }

  /** Rows that a log makes the same it makes the same with a change put in front, too. */
  lemma SameWithOneMore(x: Option<Row>, y: Option<Row>, c: Change, cs: seq<Change>, k: Key)
    requires Fold(x, cs, k) == Fold(y, cs, k)
    ensures Fold(FoldOne(x, c, k), cs, k) == Fold(FoldOne(y, c, k), cs, k)
  {
    SameAfterIffHidden(x, y, cs, k);
    SameAfterIffHidden(FoldOne(x, c, k), FoldOne(y, c, k), cs, k);
    if !Resets(cs, k) && Cells(cs, k).Some? && c.Touches(k) && c.Write? {
      OverlaysAgree(x, y, c.cells, Cells(cs, k).value);
    }
  }

  lemma OverlaysAgree(x: Option<Row>, y: Option<Row>, cells: Row, last: Row)
    requires Overlay(x, last) == Overlay(y, last)
    ensures Overlay(Some(Overlay(x, cells)), last) == Overlay(Some(Overlay(y, cells)), last)
  {
    var a, b := Overlay(Some(Overlay(x, cells)), last), Overlay(Some(Overlay(y, cells)), last);
    assert forall r: Row :: Overlay(Some(r), last) == r + last;
    forall col ensures col in a <==> col in b {
      assert col in Overlay(x, last) <==> col in Overlay(y, last);
    }
    forall col | col in a ensures a[col] == b[col] {
      if col !in last && col !in cells {
        assert Overlay(x, last)[col] == Overlay(y, last)[col];
      }
    }
  }

  /** Where a stale take leads, for one row: the drained row differs from the source's only in what is ahead. */
  lemma RowOnTop(t: State, c: Change, k: Key)
    requires Converging(t) && !StreamTheorems.HasPendingLetter(t, k)
    ensures Fold(FoldOne(Lookup(t.dest, k), c, k), Rest(t.log, t.saved), k) ==
            Fold(FoldOne(Goal(t.log, k), c, k), Rest(t.log, t.saved), k)
  {
    assert !Waiting(t, t.savedSeq, k);
    GoalLeads(t.log, t.saved, k);
    SameWithOneMore(Lookup(t.dest, k), Goal(t.log, k), c, Rest(t.log, t.saved), k);
  }

  /** What is under way lands, then the change once more, then the rest of the log. */
  lemma WayOn(cfg: Config, s: State) returns (t: State, v: State)
    requires cfg.keyed && Converging(s) && Stale(s)
    ensures Converging(t) && t.log == s.log && t.letters == s.letters && t.saved == Frontier(s)
    ensures LeadsTo(cfg, s, v) && v.saved == |v.log| && Idle(v) && v.log == s.log + [Passed] && v.letters == s.letters
    ensures Rest(v.log, 0) == Rest(s.log, 0)
    ensures var dest := ApplyOne(t.dest, s.log[s.next].change);
            forall k :: Lookup(v.dest, k) == Fold(Lookup(dest, k), Rest(s.log, t.saved), k)
  {
    StartsAt(cfg, s);
    var held := Go(cfg, s, s, Take, Holding(s, s.next));
    t := Drain(cfg, s, s, s.next);
    v := LandAgain(cfg, s, t, s.next);
    v := ReadToTheEnd(cfg, s, v);
  }

  lemma LandedRow(s: State, t: State, dest: Table, v: State, c: Change, k: Key)
    requires Ordered(s) && Converging(t) && t.log == s.log && t.letters == s.letters && t.saved == Frontier(s)
    requires !StreamTheorems.HasPendingLetter(s, k) && dest == ApplyOne(t.dest, c)
    requires Lookup(v.dest, k) == Fold(Lookup(dest, k), Rest(s.log, t.saved), k)
    requires Rest(v.log, 0) == Rest(s.log, 0)
    ensures Lookup(v.dest, k) == Fold(FoldOne(Goal(s.log, k), c, k), Rest(s.log, t.saved), k)
    ensures Lookup(v.dest, k) == Lookup(SourceTable(v.log), k) <==>
            Hides(Rest(s.log, t.saved), k, FoldOne(Goal(s.log, k), c, k), Goal(s.log, k))
  {
    assert Lookup(dest, k) == FoldOne(Lookup(t.dest, k), c, k);
    RowOnTop(t, c, k);
    GoalIsTheSourceRow(v.log, k);
    GoalLeads(s.log, t.saved, k);
    SameAfterIffHidden(FoldOne(Goal(s.log, k), c, k), Goal(s.log, k), Rest(s.log, t.saved), k);
  }

  /** Whatever convergent state with nothing failed in flight a stale take is made in, there is a way on, without a
  crash or a failure, to a state that is caught up, with the queue as it was: the change lands on top of what was
  under way, and the rest of the log on top of that. The row is the source's there if and only if the rest of the log
  hides all that the change alters of the source's row; at the end of the log, if and only if it alters nothing.
  (A take at or beyond the pending batch's end never does this: see `StreamTheorems.Converges`.) */
  lemma StaleTakeLandsOnTop(cfg: Config, s: State) returns (v: State)
    requires cfg.keyed && Converging(s) && Stale(s)
    ensures LeadsTo(cfg, s, v) && v.saved == |v.log| && Idle(v) && v.log == s.log + [Passed] && v.letters == s.letters
    ensures var c, ahead := s.log[s.next].change, Rest(s.log, Frontier(s));
            forall k :: !StreamTheorems.HasPendingLetter(s, k) ==>
              && Lookup(v.dest, k) == Fold(FoldOne(Goal(s.log, k), c, k), ahead, k)
              && (Lookup(v.dest, k) == Lookup(SourceTable(v.log), k) <==>
                  Hides(ahead, k, FoldOne(Goal(s.log, k), c, k), Goal(s.log, k)))
  {
    var c := s.log[s.next].change;
    var t: State;
    t, v := WayOn(cfg, s);
    forall k | !StreamTheorems.HasPendingLetter(s, k)
      ensures Lookup(v.dest, k) == Fold(FoldOne(Goal(s.log, k), c, k), Rest(s.log, Frontier(s)), k)
      ensures Lookup(v.dest, k) == Lookup(SourceTable(v.log), k) <==>
              Hides(Rest(s.log, Frontier(s)), k, FoldOne(Goal(s.log, k), c, k), Goal(s.log, k))
    {
      LandedRow(s, t, ApplyOne(t.dest, c), v, c, k);
    }
  }
}
