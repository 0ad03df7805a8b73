/** Every orderly step keeps the destination converging on the source, and what follows for whole runs. */
module StreamTheorems {
  import opened Changes
  import opened StreamProtocol
  import opened StreamConvergence
  import StreamNoLoss

  /* ----- steps that move no row ----- */

  /** A position passed over joins the reach of the pending batch. */
  lemma PassKeepsOrder(s: State)
    requires Ordered(s) && s.hand.None? && s.next == Frontier(s) < |s.log| && s.log[s.next].Passed?
    ensures Ordered(s.(next := s.next + 1, tail := Some(s.next + 1)))
  {
    CarriersConcat(s.log, Base(s), s.next, s.next + 1);
  }

  lemma HandKeepsOrder(s: State)
    requires Ordered(s) && s.hand.None? && s.next == Frontier(s) < |s.log| && s.log[s.next].Carried?
    ensures Ordered(s.(next := s.next + 1, hand := Some(s.next)))
  {
  }

  lemma ReplayKeepsOrder(s: State)
    requires Ordered(s) && s.hand.None? && s.next < s.saved
    ensures Ordered(s.(next := s.next + 1))
  {
  }

  lemma TakeKeepsOrder(s: State)
    requires Ordered(s) && s.hand.None? && s.next < |s.log|
    requires s.next + 1 > s.watermark ==> s.next >= Frontier(s)
    ensures Ordered(AfterTake(s))
  {
    if s.next + 1 <= s.watermark {
      ReplayKeepsOrder(s);
    } else if s.log[s.next].Passed? {
      PassKeepsOrder(s);
    } else {
      HandKeepsOrder(s);
    }
  }

  lemma BufferGrows(cfg: Config, s: State)
    requires cfg.keyed && Ordered(s) && Enabled(cfg, s, Put)
    ensures var grown := s.buffer + [s.hand.value];
            Batchable(s.log, grown) && SameOperation(s.log, grown)
  {
    var p := s.hand.value;
    var grown := s.buffer + [p];
    var was, cs := ChangesOf(s.log, s.buffer), ChangesOf(s.log, grown);
    assert cs == was + [s.log[p].change];
    if s.buffer != [] {
      var last := s.buffer[|s.buffer| - 1];
      assert last in s.buffer;
      assert s.log[last].change.Operation() == s.log[p].change.Operation();
      forall i | 0 <= i < |cs| ensures !cs[i].Empty? {
        if i < |was| {
          assert s.buffer[i] in s.buffer;
        }
      }
      forall i, j | 0 <= i < j < |cs| ensures cs[i].key != cs[j].key {
        if j == |was| {
          assert s.buffer[i] in s.buffer;
        } else {
          assert was[i].key != was[j].key;
        }
      }
    }
  }

  lemma PutKeepsOrder(cfg: Config, s: State)
    requires cfg.keyed && Ordered(s) && Enabled(cfg, s, Put)
    ensures Ordered(AfterPut(s))
  {
    BufferGrows(cfg, s);
    OneMore(s.log, Base(s), s.hand.value);
  }

  lemma OneMore(log: seq<Entry>, lo: nat, p: nat)
    requires lo <= p && IsChange(log, p)
    ensures Carriers(log, lo, p + 1) == Carriers(log, lo, p) + [p]
  {
    CarriersConcat(log, lo, p, p + 1);
    assert Carriers(log, p, p + 1) == [p] + Carriers(log, p + 1, p + 1);
  }

  /** The steps of the reader: they move the layers, and no row. */
  predicate Moves(a: Action) {
    a.Take? || a.Put? || a.Flush? || a.Stop? || a.Ack? || a.Rewind? || a.Restart?
  }

  lemma MoveKeepsOrder(cfg: Config, s: State, a: Action)
    requires cfg.keyed && Ordered(s) && Enabled(cfg, s, a) && Orderly(cfg, s, a) && Moves(a)
    ensures Ordered(Do(cfg, s, a))
  {
    match a
    case Take => TakeKeepsOrder(s);
    case Put => PutKeepsOrder(cfg, s);
    case _ =>
  }

  lemma MoveStep(cfg: Config, s: State, a: Action)
    requires cfg.keyed && Converging(s) && Enabled(cfg, s, a) && Orderly(cfg, s, a) && Moves(a)
    ensures Converging(Do(cfg, s, a))
  {
    MoveKeepsOrder(cfg, s, a);
    SameRowsConverge(s, Do(cfg, s, a));
  }

  /** A step that moves neither a row, nor the log, the cursor, the queue, or the batch in flight. */
  lemma SameRowsConverge(s: State, t: State)
    requires Converging(s) && Ordered(t)
    requires t == s.(next := t.next, hand := t.hand, buffer := t.buffer, tail := t.tail, halted := t.halted,
                     acked := t.acked, failures := t.failures, inflight := t.inflight)
    requires t.inflight == s.inflight || t.inflight.None? || t.inflight.value.phase.Sending?
    ensures Converging(t)
  {
    SameWaiting(s, t);
  }

  lemma SameWaiting(s: State, t: State)
    requires WellFormed(s) && WellFormed(t) && s.log == t.log && s.letters == t.letters
    ensures forall below, k :: Waiting(s, below, k) == Waiting(t, below, k)
  {
  }

  /* ----- the source moves on ----- */

  lemma SourceStep(s: State, e: Entry)
    requires Converging(s)
    ensures Converging(s.(log := s.log + [e]))
  {
    var t := s.(log := s.log + [e]);
    SourceKeepsOrder(s, e);
    forall below, k ensures Waiting(t, below, k) == Waiting(s, below, k) {
      assert forall l :: l in s.letters ==> LetterTouches(t.log, l, k) == LetterTouches(s.log, l, k);
    }
    forall c: nat, k | c <= |s.log| && On(s, c, k) ensures On(t, c, k) {
      LongerLogLeads(Lookup(s.dest, k), s.log, e, c, k);
    }
    if s.inflight.Some? {
      assert forall p, k :: p in s.inflight.value.items ==> TouchesKey(s.log, p, k) == TouchesKey(t.log, p, k);
    }
  }

  lemma SourceKeepsOrder(s: State, e: Entry)
    requires Ordered(s)
    ensures Ordered(s.(log := s.log + [e]))
  {
    var t := s.(log := s.log + [e]);
    if s.inflight.Some? {
      CarriersKeep(s.log, t.log, s.saved, s.inflight.value.reach);
      assert ChangesOf(t.log, s.inflight.value.items) == ChangesOf(s.log, s.inflight.value.items);
    }
    CarriersKeep(s.log, t.log, Base(s), Frontier(s));
    assert ChangesOf(t.log, s.buffer) == ChangesOf(s.log, s.buffer);
    forall l | l in t.letters ensures AllChanges(t.log, l.positions) {
      assert AllChanges(s.log, l.positions);
    }
  }

  /* ----- rows are written ----- */

  lemma WrittenRow(s: State, part: seq<nat>, k: Key)
    requires AllChanges(s.log, part)
    ensures Lookup(AfterWrite(s, part).dest, k) == Fold(Lookup(s.dest, k), ChangesOf(s.log, part), k)
  {
    ApplyIsPerKey(s.dest, ChangesOf(s.log, part), k);
  }

  lemma DeliverStep(s: State, t: State)
    requires Converging(s) && s.inflight.Some? && s.inflight.value.phase.Sending?
    requires t == InPhaseNow(AfterWrite(s, s.inflight.value.items).(landed := t.landed), Landed)
    ensures Converging(t)
  {
    SameWaiting(s, t);
    var b := s.inflight.value;
    forall k | !Waiting(s, s.savedSeq, k) ensures On(t, s.saved, k) && On(t, b.reach, k) {
      WrittenRow(s, b.items, k);
      PartLeads(Lookup(s.dest, k), s.log, s.saved, b.items, k);
      CarriersCarryTheSlice(s.log, s.saved, b.reach);
      BatchLeads(Lookup(s.dest, k), s.log, s.saved, b.reach, k);
    }
  }

  /** Some rows of a batch written, the batch itself not settled. */
  lemma PartialWrite(s: State, t: State, part: seq<nat>, touched: set<nat>)
    requires Converging(s) && s.inflight.Some? && PartOf(part, s.inflight.value.items)
    requires s.inflight.value.phase.Sending? || s.inflight.value.phase.Failed?
    requires t == InPhaseNow(AfterWrite(s, part).(landed := t.landed), Failed(touched))
    requires forall p :: p in touched ==> p in part || (s.inflight.value.phase.Failed? && p in s.inflight.value.phase.touched)
    ensures Converging(t)
  {
    SameWaiting(s, t);
    var b := s.inflight.value;
    forall k | !Waiting(s, s.savedSeq, k)
      ensures On(t, s.saved, k)
      ensures (forall p :: p in b.items && TouchesKey(s.log, p, k) ==> p in touched) ==> On(t, b.reach, k)
    {
      WrittenRow(s, part, k);
      PartLeads(Lookup(s.dest, k), s.log, s.saved, part, k);
      if p :| p in part && TouchesKey(s.log, p, k) {
        PartOfBatchLeads(Lookup(s.dest, k), s.log, s.saved, b.reach, part, p, k);
      } else {
        PartUntouched(Lookup(s.dest, k), s.log, part, k);
        if forall p :: p in b.items ==> !TouchesKey(s.log, p, k) {
          UntouchedLeads(Lookup(s.dest, k), s.log, s.saved, b.reach, k);
        }
      }
    }
  }

  /* ----- the end of a failed batch ----- */

  lemma ParkedStillWait(s: State, t: State, rows: seq<nat>, isolated: bool, failedSeq: nat, k: Key)
    requires WellFormed(s) && WellFormed(t) && s.log == t.log && s.savedSeq <= failedSeq
    requires t.letters == KeptBelow(s.letters, s.savedSeq) + Entries(rows, isolated, failedSeq)
    requires AllChanges(s.log, rows)
    ensures Waiting(s, s.savedSeq, k) ==> Waiting(t, s.savedSeq, k)
    ensures (exists p :: p in rows && TouchesKey(s.log, p, k)) ==> Waiting(t, failedSeq + 1, k)
  {
    if Waiting(s, s.savedSeq, k) {
      var l :| l in s.letters && l.status.Pending? && l.sequence < s.savedSeq && LetterTouches(s.log, l, k);
      StreamNoLoss.KeptBelowKeeps(s.letters, s.savedSeq, l);
      assert l in t.letters;
    }
    if p :| p in rows && TouchesKey(s.log, p, k) {
      StreamNoLoss.EntriesHold(rows, isolated, failedSeq);
      var l :| l in Entries(rows, isolated, failedSeq) && p in l.positions;
      assert l in t.letters && LetterTouches(t.log, l, k);
    }
  }

  lemma ParkStep(s: State, rows: seq<nat>, isolated: bool, failedSeq: nat)
    requires Converging(s) && s.inflight.Some? && s.savedSeq <= failedSeq
    requires s.inflight.value.phase.Failed?
    requires PartOf(rows, s.inflight.value.items)
    requires forall p :: p in s.inflight.value.items ==> p in rows || p in s.inflight.value.phase.touched
    ensures Converging(AfterPark(s, rows, isolated, failedSeq))
  {
    var t := AfterPark(s, rows, isolated, failedSeq);
    var b := s.inflight.value;
    QueueStaysWellFormed(s, rows, isolated, failedSeq);
    forall k
      ensures Waiting(s, s.savedSeq, k) ==> Waiting(t, s.savedSeq, k)
      ensures !Waiting(t, failedSeq + 1, k) ==> On(t, b.reach, k)
    {
      ParkedStillWait(s, t, rows, isolated, failedSeq, k);
      if !Waiting(t, failedSeq + 1, k) {
        WaitingGrows(t, s.savedSeq, failedSeq + 1, k);
        assert forall p :: p in b.items && TouchesKey(s.log, p, k) ==> p in b.phase.touched;
        assert On(s, b.reach, k);
      }
    }
  }

  lemma WaitingGrows(s: State, below: nat, above: nat, k: Key)
    requires WellFormed(s) && below <= above
    ensures Waiting(s, below, k) ==> Waiting(s, above, k)
  {
  }

  lemma QueueStaysWellFormed(s: State, rows: seq<nat>, isolated: bool, failedSeq: nat)
    requires WellFormed(s) && s.inflight.Some? && PartOf(rows, s.inflight.value.items)
    ensures WellFormed(AfterPark(s, rows, isolated, failedSeq))
  {
    StreamNoLoss.EntriesHold(rows, isolated, failedSeq);
    StreamNoLoss.KeptBelowIsPart(s.letters, s.seqNo);
    var t := AfterPark(s, rows, isolated, failedSeq);
    forall l | l in t.letters ensures AllChanges(t.log, l.positions) {
      if l in Entries(rows, isolated, failedSeq) {
        assert forall p :: p in l.positions ==> p in s.inflight.value.items;
      }
    }
  }

  lemma RecoveredStep(s: State)
    requires Converging(s) && s.inflight.Some? && s.inflight.value.phase.Failed?
    requires forall p :: p in s.inflight.value.items ==> p in s.inflight.value.phase.touched
    ensures Converging(InPhaseNow(s, Recovered))
  {
    SameWaiting(s, InPhaseNow(s, Recovered));
  }

  lemma OtherFailures(s: State, failures: nat, halted: bool)
    requires Converging(s)
    ensures Converging(s.(failures := failures, halted := halted))
  {
    SameRowsConverge(s, s.(failures := failures, halted := halted));
  }

  lemma HandleCore(cfg: Config, s: State, delivered: seq<nat>, poisoned: seq<nat>)
    requires Converging(s) && s.inflight.Some? && s.inflight.value.phase.Failed?
    requires PartOf(poisoned, s.inflight.value.items)
    requires forall p :: p in s.inflight.value.items ==> p in poisoned || p in s.inflight.value.phase.touched
    ensures Converging(AfterHandle(cfg, s, delivered, poisoned))
  {
    var failures := if delivered != [] then 0 else s.failures + 1;
    if poisoned == [] {
      CountedAndRecovered(s);
    } else if failures >= cfg.maxConsecutiveFailures || PendingRows(s.letters) + |poisoned| > cfg.deadLetterMaxRows {
      OtherFailures(s, failures, true);
    } else {
      CountedAndParked(s, failures, poisoned, Isolating(cfg, s.inflight.value), if delivered != [] then s.seqNo + 1 else s.seqNo);
    }
  }

  lemma CountedAndRecovered(s: State)
    requires Converging(s) && s.inflight.Some? && s.inflight.value.phase.Failed?
    requires forall p :: p in s.inflight.value.items ==> p in s.inflight.value.phase.touched
    ensures Converging(InPhaseNow(s.(failures := 0), Recovered))
  {
    OtherFailures(s, 0, s.halted);
    RecoveredStep(s.(failures := 0));
  }

  lemma CountedAndParked(s: State, failures: nat, rows: seq<nat>, isolated: bool, failedSeq: nat)
    requires Converging(s) && s.inflight.Some? && s.savedSeq <= failedSeq
    requires s.inflight.value.phase.Failed? && PartOf(rows, s.inflight.value.items)
    requires forall p :: p in s.inflight.value.items ==> p in rows || p in s.inflight.value.phase.touched
    ensures Converging(AfterPark(s.(failures := failures), rows, isolated, failedSeq))
  {
    OtherFailures(s, failures, s.halted);
    ParkStep(s.(failures := failures), rows, isolated, failedSeq);
  }

  lemma HandleStep(cfg: Config, s: State, delivered: seq<nat>, poisoned: seq<nat>)
    requires Converging(s) && Enabled(cfg, s, Handle(delivered, poisoned))
    ensures Converging(AfterHandle(cfg, s, delivered, poisoned))
  {
    StreamNoLoss.SplitRows(delivered, poisoned, s.inflight.value.items);
    HandleCore(cfg, s, delivered, poisoned);
  }

  lemma StoreErrorStep(s: State)
    requires Converging(s) && s.inflight.Some?
    ensures Converging(InPhaseNow(s, Failed({})))
  {
    var t := InPhaseNow(s, Failed({}));
    SameWaiting(s, t);
    var b := s.inflight.value;
    forall k | !Waiting(s, s.savedSeq, k) && (forall p :: p in b.items && TouchesKey(s.log, p, k) ==> p in {})
      ensures On(t, b.reach, k)
    {
      UntouchedLeads(Lookup(s.dest, k), s.log, s.saved, b.reach, k);
    }
  }

  /* ----- progress is made durable ----- */

  lemma CheckpointStep(cfg: Config, s: State)
    requires Converging(s) && Enabled(cfg, s, Checkpoint)
    ensures Converging(AfterCheckpoint(s)) && s.saved <= AfterCheckpoint(s).saved
  {
    var t := AfterCheckpoint(s);
    SameWaiting(s, t);
    forall k | Waiting(s, s.savedSeq, k) ensures Waiting(t, t.savedSeq, k) {
      var l :| l in s.letters && l.status.Pending? && l.sequence < s.savedSeq && LetterTouches(s.log, l, k);
    }
  }

  /* ----- a dead letter is retried ----- */

  lemma {:induction false} RefreshedRow(dest: Table, source: Table, keys: seq<Key>, k: Key)
    ensures Lookup(Refresh(dest, source, keys), k) == if k in keys then Lookup(source, k) else Lookup(dest, k)
    decreases |keys|
  {
    if keys != [] {
      RefreshedRow(if keys[0] in source then dest[keys[0] := source[keys[0]]] else dest - {keys[0]}, source, keys[1..], k);
    }
  }

  /** Some rows are set on course outside the stream; the queue may lose a letter about those rows, no other. */
  lemma RowsSetStep(s: State, t: State, rows: iset<Key>)
    requires Converging(s) && WellFormed(t) && t == s.(dest := t.dest, letters := t.letters)
    requires forall k :: k in rows ==>
               Waiting(t, s.savedSeq, k) || (On(t, s.saved, k) && (s.inflight.Some? ==> On(t, s.inflight.value.reach, k)))
    requires forall k :: k !in rows ==> Lookup(t.dest, k) == Lookup(s.dest, k)
    requires forall below, k :: k !in rows && Waiting(s, below, k) ==> Waiting(t, below, k)
    ensures Converging(t)
  {
    assert forall c: nat, k :: c <= |s.log| && k !in rows && On(s, c, k) ==> On(t, c, k);
    forall above: nat, k | s.savedSeq <= above && Waiting(t, s.savedSeq, k) ensures Waiting(t, above, k) {
      WaitingGrows(t, s.savedSeq, above, k);
    }
  }

  /** Rows written as the source has them now. */
  lemma RefreshStep(s: State, t: State, keys: seq<Key>)
    requires Converging(s) && t == s.(dest := Refresh(s.dest, SourceTable(s.log), keys), letters := t.letters)
    requires WellFormed(t)
    requires forall below, k :: k !in keys && Waiting(s, below, k) ==> Waiting(t, below, k)
    ensures Converging(t)
  {
    forall c: nat, k | c <= |s.log| && k in keys ensures On(t, c, k) {
      RefreshedRow(s.dest, SourceTable(s.log), keys, k);
      GoalIsTheSourceRow(s.log, k);
      GoalLeads(s.log, c, k);
    }
    forall k | k !in keys ensures Lookup(t.dest, k) == Lookup(s.dest, k) {
      RefreshedRow(s.dest, SourceTable(s.log), keys, k);
    }
    RowsSetStep(s, t, iset k | k in keys);
  }

  lemma LetterKeys(log: seq<Entry>, ps: seq<nat>, k: Key)
    requires AllChanges(log, ps) && forall p :: p in ps ==> !log[p].change.Empty?
    ensures (exists p :: p in ps && TouchesKey(log, p, k)) ==> k in KeysOf(log, ps)
  {
    if p :| p in ps && TouchesKey(log, p, k) {
      var n :| 0 <= n < |ps| && ps[n] == p;
      assert KeysOf(log, ps)[n] == k;
    }
  }

  function Settled(s: State, i: nat, status: Status): seq<Letter>
    requires i < |s.letters|
  {
    s.letters[i := s.letters[i].(status := status)]
  }

  /** Settling a letter leaves every key waiting that the letter is not about. */
  lemma LettersAfterSettling(s: State, t: State, i: nat, status: Status)
    requires WellFormed(s) && i < |s.letters| && t == s.(dest := t.dest, letters := Settled(s, i, status))
    ensures AllChanges(s.log, s.letters[i].positions) && WellFormed(t)
    ensures forall below, k :: !LetterTouches(s.log, s.letters[i], k) && Waiting(s, below, k) ==> Waiting(t, below, k)
  {
    assert s.letters[i] in s.letters;
    forall l | l in t.letters ensures AllChanges(t.log, l.positions) {
      var j :| 0 <= j < |t.letters| && t.letters[j] == l;
      assert s.letters[j] in s.letters;
    }
    forall below, k | !LetterTouches(s.log, s.letters[i], k) && Waiting(s, below, k) ensures Waiting(t, below, k) {
      var l :| l in s.letters && l.status.Pending? && l.sequence < below && LetterTouches(s.log, l, k);
      var j :| 0 <= j < |s.letters| && s.letters[j] == l;
      assert t.letters[j] == l;
    }
  }

  /** A letter that is refreshed is about the keys that are refreshed. */
  lemma RefreshedKeys(cfg: Config, s: State, i: nat)
    requires WellFormed(s) && i < |s.letters| && s.letters[i] in s.letters && !Unkeyed(cfg, s, i)
    ensures forall p :: p in s.letters[i].positions ==> !s.log[p].change.Empty?
    ensures forall k :: LetterTouches(s.log, s.letters[i], k) ==> k in KeysOf(s.log, s.letters[i].positions)
  {
    forall k | LetterTouches(s.log, s.letters[i], k) ensures k in KeysOf(s.log, s.letters[i].positions) {
      LetterKeys(s.log, s.letters[i].positions, k);
    }
  }

  /** A letter settled with its changes applied as recorded (or with nothing applied): the rows were looked at. */
  lemma SettledStep(s: State, t: State, i: nat, status: Status, cs: seq<Change>)
    requires Converging(s) && i < |s.letters| && s.letters[i] in s.letters && LeavesOnCourse(s, i, cs)
    requires t == s.(dest := Apply(s.dest, cs), letters := Settled(s, i, status))
    requires forall c, k :: c in cs && c.Touches(k) ==> LetterTouches(s.log, s.letters[i], k)
    ensures Converging(t)
  {
    LettersAfterSettling(s, t, i, status);
    var rows := iset k | LetterTouches(s.log, s.letters[i], k);
    forall k | k in rows ensures On(t, s.saved, k) && (s.inflight.Some? ==> On(t, s.inflight.value.reach, k)) {
      SetOnCourse(s, t, i, cs, k);
    }
    forall k | k !in rows ensures Lookup(t.dest, k) == Lookup(s.dest, k) {
      ApplyIsPerKey(s.dest, cs, k);
      UntouchedKey(Lookup(s.dest, k), cs, k);
    }
    RowsSetStep(s, t, rows);
  }

  lemma SetOnCourse(s: State, t: State, i: nat, cs: seq<Change>, k: Key)
    requires Converging(s) && i < |s.letters| && s.letters[i] in s.letters && LeavesOnCourse(s, i, cs)
    requires LetterTouches(s.log, s.letters[i], k)
    requires t == s.(dest := Apply(s.dest, cs), letters := t.letters)
    ensures On(t, s.saved, k) && (s.inflight.Some? ==> On(t, s.inflight.value.reach, k))
  {
    ApplyIsPerKey(s.dest, cs, k);
    HiddenLeads(s, s.saved, Fold(Lookup(s.dest, k), cs, k), k);
    if s.inflight.Some? {
      HiddenLeads(s, s.inflight.value.reach, Fold(Lookup(s.dest, k), cs, k), k);
    }
  }

  lemma HiddenLeads(s: State, c: nat, row: Option<Row>, k: Key)
    requires c <= |s.log| && Hides(Rest(s.log, c), k, row, Goal(s.log, k))
    ensures Leads(row, s.log, c, k)
  {
    GoalLeads(s.log, c, k);
    SameAfterIffHidden(row, Goal(s.log, k), Rest(s.log, c), k);
  }

  lemma RecordedChangesTouch(s: State, i: nat, part: seq<nat>)
    requires WellFormed(s) && i < |s.letters| && s.letters[i] in s.letters && PartOf(part, s.letters[i].positions)
    ensures AllChanges(s.log, part)
    ensures forall c, k :: c in ChangesOf(s.log, part) && c.Touches(k) ==> LetterTouches(s.log, s.letters[i], k)
  {
    forall c, k | c in ChangesOf(s.log, part) && c.Touches(k) ensures LetterTouches(s.log, s.letters[i], k) {
      var n :| 0 <= n < |part| && ChangesOf(s.log, part)[n] == c;
      assert TouchesKey(s.log, part[n], k);
    }
  }

  lemma RetryStep(cfg: Config, s: State, i: nat, asRecorded: bool)
    requires Converging(s) && Enabled(cfg, s, Retry(i, asRecorded)) && Orderly(cfg, s, Retry(i, asRecorded))
    ensures Converging(Do(cfg, s, Retry(i, asRecorded)))
  {
    assert s.letters[i] in s.letters;
    var t := AfterRetry(cfg, s, i, asRecorded);
    LettersAfterSettling(s, t, i, Resolved);
    var ps := s.letters[i].positions;
    if asRecorded {
      RecordedChangesTouch(s, i, ps);
      SettledStep(s, t, i, Resolved, ChangesOf(s.log, ps));
    } else {
      RefreshedKeys(cfg, s, i);
      RefreshStep(s, t, KeysOf(s.log, ps));
    }
  }

  /** A replay as recorded that is reported failed: what it wrote is the letter's, and the letter goes on waiting. */
  lemma ReplayFailsStep(cfg: Config, s: State, i: nat, part: seq<nat>)
    requires Converging(s) && Enabled(cfg, s, ReplayFails(i, part)) && Orderly(cfg, s, ReplayFails(i, part))
    ensures Converging(Do(cfg, s, ReplayFails(i, part)))
  {
    var l := s.letters[i];
    assert l in s.letters;
    RecordedChangesTouch(s, i, part);
    var cs, t := ChangesOf(s.log, part), Do(cfg, s, ReplayFails(i, part));
    SameWaiting(s, t);
    var rows := iset k | LetterTouches(s.log, l, k);
    forall k | k in rows && l.sequence >= s.savedSeq
      ensures On(t, s.saved, k) && (s.inflight.Some? ==> On(t, s.inflight.value.reach, k))
    {
      SetOnCourse(s, t, i, cs, k);
    }
    forall k | k !in rows ensures Lookup(t.dest, k) == Lookup(s.dest, k) {
      ApplyIsPerKey(s.dest, cs, k);
      UntouchedKey(Lookup(s.dest, k), cs, k);
    }
    RowsSetStep(s, t, rows);
  }

  /* ----- whole runs ----- */

  lemma Step(cfg: Config, s: State, a: Action)
    requires cfg.keyed && Converging(s) && Enabled(cfg, s, a) && Orderly(cfg, s, a)
    ensures Converging(Do(cfg, s, a))
  {
    if Moves(a) {
      MoveStep(cfg, s, a);
    } else {
      RowStep(cfg, s, a);
    }
  }

  lemma RowStep(cfg: Config, s: State, a: Action)
    requires Converging(s) && Enabled(cfg, s, a) && Orderly(cfg, s, a) && !Moves(a)
    ensures Converging(Do(cfg, s, a))
  {
    match a
    case SourceWrites(e) => SourceStep(s, e);
    case Deliver => DeliverStep(s, Do(cfg, s, a));
    case DeliverFails(part) => PartialWrite(s, Do(cfg, s, a), part, {});
    case Attempt(part, ok) =>
      var touched := s.inflight.value.phase.touched;
      PartialWrite(s, Do(cfg, s, a), part, if ok then touched + AsSet(part) else touched);
    case Handle(delivered, poisoned) => HandleStep(cfg, s, delivered, poisoned);
    case StoreError => StoreErrorStep(s);
    case Checkpoint => CheckpointStep(cfg, s);
    case Retry(i, asRecorded) => RetryStep(cfg, s, i, asRecorded);
    case ReplayFails(i, part) => ReplayFailsStep(cfg, s, i, part);
    case RetryFails(_, some) => RefreshStep(s, Do(cfg, s, a), some);
    case Discard(i) => SettledStep(s, Do(cfg, s, a), i, Discarded, []);
  }

  ghost predicate OrderlyRun(cfg: Config, s: State, run: seq<Action>)
    requires IsRun(cfg, s, run)
    decreases |run|
  {
    run == [] || (Orderly(cfg, s, run[0]) && OrderlyRun(cfg, Do(cfg, s, run[0]), run[1..]))
  }

  lemma {:induction false} RunKeepsConverging(cfg: Config, s: State, run: seq<Action>)
    requires cfg.keyed && Converging(s) && IsRun(cfg, s, run) && OrderlyRun(cfg, s, run)
    ensures Converging(After(cfg, s, run))
    decreases |run|
  {
    if run != [] {
      Step(cfg, s, run[0]);
      RunKeepsConverging(cfg, Do(cfg, s, run[0]), run[1..]);
    }
  }

  lemma InitialConverges()
    ensures Converging(Initial())
  {
    forall k ensures On(Initial(), 0, k) {}
  }

  /** A pending dead letter holds a change of the row under `k`. */
  predicate HasPendingLetter(s: State, k: Key)
    requires WellFormed(s)
  {
    exists l :: l in s.letters && l.status.Pending? && LetterTouches(s.log, l, k)
  }

  /** Convergence. In every state of an orderly run, for every key with no pending dead letter, applying
  the rest of the log from the saved cursor to the destination gives the row that applying the whole log
  to an empty table gives. */
  lemma Converges(cfg: Config, run: seq<Action>, k: Key)
    requires cfg.keyed && IsRun(cfg, Initial(), run) && OrderlyRun(cfg, Initial(), run)
    ensures var s := After(cfg, Initial(), run);
            && WellFormed(s)
            && (!HasPendingLetter(s, k) ==>
                 Lookup(Apply(s.dest, Slice(s.log, s.saved, |s.log|)), k) == Lookup(SourceTable(s.log), k))
  {
    InitialConverges();
    RunKeepsConverging(cfg, Initial(), run);
    var s := After(cfg, Initial(), run);
    if !HasPendingLetter(s, k) {
      assert !Waiting(s, s.savedSeq, k);
      ApplyIsPerKey(s.dest, Rest(s.log, s.saved), k);
      GoalIsTheSourceRow(s.log, k);
    }
  }

  /** A dead-letter retry converges under a live stream. Once a letter has been resolved by a refresh and
  nothing else waits for the row, then whatever older changes were re-applied in between, the row is the
  source's current one (or is absent with it) as soon as no change of it is ahead of the cursor. */
  lemma DrainedRowIsTheSourceRow(cfg: Config, run: seq<Action>, k: Key)
    requires cfg.keyed && IsRun(cfg, Initial(), run) && OrderlyRun(cfg, Initial(), run)
    ensures var s := After(cfg, Initial(), run);
            && WellFormed(s)
            && (!HasPendingLetter(s, k) && (forall c :: c in Slice(s.log, s.saved, |s.log|) ==> !c.Touches(k)) ==>
                  Lookup(s.dest, k) == Lookup(SourceTable(s.log), k))
  {
    Converges(cfg, run, k);
    var s := After(cfg, Initial(), run);
    if forall c :: c in Slice(s.log, s.saved, |s.log|) ==> !c.Touches(k) {
      UntouchedKey(Lookup(s.dest, k), Slice(s.log, s.saved, |s.log|), k);
      ApplyIsPerKey(s.dest, Slice(s.log, s.saved, |s.log|), k);
    }
  }

  /** Caught up and with an empty queue, the destination IS the source's table. */
  lemma CaughtUp(cfg: Config, run: seq<Action>)
    requires cfg.keyed && IsRun(cfg, Initial(), run) && OrderlyRun(cfg, Initial(), run)
    ensures var s := After(cfg, Initial(), run);
            s.saved == |s.log| && (forall l :: l in s.letters ==> !l.status.Pending?) ==>
              s.dest == SourceTable(s.log)
  {
    var s := After(cfg, Initial(), run);
    if s.saved == |s.log| && (forall l :: l in s.letters ==> !l.status.Pending?) {
      forall k ensures Lookup(s.dest, k) == Lookup(SourceTable(s.log), k) {
        DrainedRowIsTheSourceRow(cfg, run, k);
      }
      SameRows(s.dest, SourceTable(s.log));
    }
  }

  lemma OnlyCheckpointsMoveTheCursor(cfg: Config, s: State, a: Action)
    requires WellFormed(s) && Enabled(cfg, s, a) && !a.Checkpoint?
    ensures Do(cfg, s, a).saved == s.saved
  {
    match a
    case Handle(delivered, poisoned) => HandleKeepsCursor(cfg, s, delivered, poisoned);
    case Retry(i, asRecorded) => assert s.letters[i] in s.letters && AfterRetry(cfg, s, i, asRecorded).saved == s.saved;
    case _ =>
  }

  lemma HandleKeepsCursor(cfg: Config, s: State, delivered: seq<nat>, poisoned: seq<nat>)
    requires s.inflight.Some?
    ensures AfterHandle(cfg, s, delivered, poisoned).saved == s.saved
  {
  }

  /** With positions taken in order, the saved cursor never moves backwards. */
  lemma {:induction false} CursorNeverMovesBack(cfg: Config, s: State, run: seq<Action>)
    requires cfg.keyed && Converging(s) && IsRun(cfg, s, run) && OrderlyRun(cfg, s, run)
    ensures s.saved <= After(cfg, s, run).saved
    decreases |run|
  {
    if run != [] {
      Step(cfg, s, run[0]);
      if run[0].Checkpoint? {
        CheckpointStep(cfg, s);
      } else {
        OnlyCheckpointsMoveTheCursor(cfg, s, run[0]);
      }
      CursorNeverMovesBack(cfg, Do(cfg, s, run[0]), run[1..]);
    }
  }
}
