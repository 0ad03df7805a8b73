/** No row the cursor has moved past is unaccounted for: each was delivered, deliberately left out, or is parked.
Proved over every run, in-process replays included. */
module StreamNoLoss {
  import opened Changes
  import opened StreamProtocol

  /** A dead letter that the saved sequence has moved past holds the row. */
  predicate Parked(letters: seq<Letter>, below: nat, p: nat) {
    exists l :: l in letters && l.sequence < below && p in l.positions
  }

  /** Delivered, deliberately passed over, or in the dead-letter queue behind the saved sequence. */
  predicate Safe(s: State, p: nat) {
    p < |s.log| && (s.log[p].Passed? || p in s.landed || Parked(s.letters, s.savedSeq, p))
  }

  predicate InFlight(s: State, p: nat) {
    s.inflight.Some? && p in s.inflight.value.items
  }

  /** Safe, or on its way: nothing read has been dropped. */
  predicate Accounted(s: State, p: nat) {
    Safe(s, p) || InFlight(s, p) || p in s.buffer
  }

  ghost predicate PhaseHolds(s: State) {
    s.inflight.Some? ==>
      var b := s.inflight.value;
      match b.phase
      case Sending => true
      case Landed => forall p :: p in b.items ==> p in s.landed
      case Recovered => forall p :: p in b.items ==> p in s.landed
      case Failed(touched) => touched <= s.landed
      case SetAside(n) => s.savedSeq < n && forall p :: p in b.items ==> p in s.landed || Parked(s.letters, n, p)
  }

  /** The inductive strengthening: what is behind the cursor is safe, and everything between it and the
  provider's place is accounted for, layer by layer. */
  ghost predicate Inv(s: State) {
    && WellFormed(s)
    && (forall p: nat :: p < s.saved ==> Safe(s, p))
    && (forall p: nat :: p < s.acked ==> Safe(s, p))
    && (s.inflight.Some? ==> forall p: nat :: p < s.inflight.value.reach ==> Safe(s, p) || InFlight(s, p))
    && (s.tail.Some? ==> forall p: nat :: p < s.tail.value ==> Accounted(s, p))
    && (s.hand.Some? ==> forall p: nat :: p < s.hand.value ==> Accounted(s, p))
    && (forall p: nat :: p < s.next ==> Accounted(s, p) || s.hand == Some(p))
    && PhaseHolds(s)
  }

  /** What survives a step in which nothing safe is given up. */
  lemma StillSafe(s: State, t: State, p: nat)
    requires Safe(s, p)
    requires s.log <= t.log && s.landed <= t.landed && s.savedSeq <= t.savedSeq
    requires forall l :: l in s.letters && l.sequence < s.savedSeq ==>
               exists m :: m in t.letters && m.sequence == l.sequence && m.positions == l.positions
    ensures Safe(t, p)
  {
    assert s.log[p] == t.log[p];
    if Parked(s.letters, s.savedSeq, p) {
      var l :| l in s.letters && l.sequence < s.savedSeq && p in l.positions;
      var m :| m in t.letters && m.sequence == l.sequence && m.positions == l.positions;
    }
  }

  /** The entries of the queue are only re-labelled. */
  predicate SameEntries(s: State, t: State) {
    |s.letters| == |t.letters| &&
    forall i :: 0 <= i < |s.letters| ==>
      s.letters[i].sequence == t.letters[i].sequence && s.letters[i].positions == t.letters[i].positions
  }

  lemma SameEntriesParked(s: State, t: State, below: nat, p: nat)
    requires SameEntries(s, t)
    ensures Parked(s.letters, below, p) == Parked(t.letters, below, p)
  {
    if l :| l in s.letters && l.sequence < below && p in l.positions {
      var i :| 0 <= i < |s.letters| && s.letters[i] == l;
      assert t.letters[i] in t.letters;
    }
    if l :| l in t.letters && l.sequence < below && p in l.positions {
      var i :| 0 <= i < |t.letters| && t.letters[i] == l;
      assert s.letters[i] in s.letters;
    }
  }

  /** Steps that move nothing but the source, the destination, or the state of dead letters. */
  lemma QuietStep(s: State, t: State)
    requires Inv(s) && s.log <= t.log && s.landed == t.landed && SameEntries(s, t)
    requires t == s.(log := t.log, dest := t.dest, letters := t.letters)
    ensures Inv(t)
  {
    forall below, p ensures Parked(s.letters, below, p) == Parked(t.letters, below, p) {
      SameEntriesParked(s, t, below, p);
    }
    forall p | Safe(s, p) ensures Safe(t, p) {}
    forall l | l in t.letters ensures AllChanges(t.log, l.positions) {
      var i :| 0 <= i < |t.letters| && t.letters[i] == l;
      assert s.letters[i] in s.letters;
    }
    assert forall p :: Accounted(s, p) ==> Accounted(t, p);
  }

  lemma TakeStep(cfg: Config, s: State)
    requires Inv(s) && Enabled(cfg, s, Take)
    ensures Inv(AfterTake(s))
  {
    var t := AfterTake(s);
    SameSafe(s, t);
  }

  lemma SameSafe(s: State, t: State)
    requires s.log == t.log && s.landed == t.landed && s.letters == t.letters && s.savedSeq == t.savedSeq
    ensures forall p :: Safe(s, p) <==> Safe(t, p)
    ensures s.inflight == t.inflight && s.buffer == t.buffer ==> forall p :: Accounted(s, p) <==> Accounted(t, p)
  {
  }

  lemma PutStep(cfg: Config, s: State)
    requires Inv(s) && Enabled(cfg, s, Put)
    ensures Inv(AfterPut(s))
  {
    var t := AfterPut(s);
    assert forall p :: Safe(s, p) <==> Safe(t, p);
    assert forall p :: Accounted(s, p) || p == s.hand.value ==> Accounted(t, p);
  }

  lemma FlushStep(cfg: Config, s: State)
    requires Inv(s) && Enabled(cfg, s, Flush)
    ensures Inv(AfterFlush(s))
  {
    var t := AfterFlush(s);
    assert forall p :: Safe(s, p) <==> Safe(t, p);
    assert forall p :: Accounted(s, p) <==> Accounted(t, p);
    assert forall p :: Accounted(s, p) <==> Safe(t, p) || InFlight(t, p);
  }

  /** A delivery attempt only adds to what has landed. */
  lemma LandingStep(s: State, t: State)
    requires Inv(s) && s.inflight.Some? && s.landed <= t.landed
    requires t == s.(dest := t.dest, landed := t.landed, inflight := t.inflight, failures := t.failures)
    requires t.inflight.Some? && t.inflight.value.items == s.inflight.value.items
    requires t.inflight.value.reach == s.inflight.value.reach
    requires PhaseHolds(t)
    ensures Inv(t)
  {
    assert forall p :: Safe(s, p) ==> Safe(t, p);
    assert forall p :: Accounted(s, p) ==> Accounted(t, p);
  }

  lemma {:induction false} KeptBelowKeeps(letters: seq<Letter>, from: nat, l: Letter)
    requires l in letters && (l.sequence < from || !l.status.Pending?)
    ensures l in KeptBelow(letters, from)
    decreases |letters|
  {
    if letters[0] != l {
      KeptBelowKeeps(letters[1..], from, l);
    }
  }

  lemma {:induction false} KeptBelowIsPart(letters: seq<Letter>, from: nat)
    ensures forall l :: l in KeptBelow(letters, from) ==> l in letters && (l.sequence < from || !l.status.Pending?)
    decreases |letters|
  {
    if letters != [] {
      KeptBelowIsPart(letters[1..], from);
    }
  }

  /** The entries made of the failed rows hold each of them, and nothing else. */
  lemma {:induction false} EntriesHold(rows: seq<nat>, isolated: bool, sequence: nat)
    ensures forall l :: l in Entries(rows, isolated, sequence) ==>
              l.sequence == sequence && l.status.Pending? && PartOf(l.positions, rows)
    ensures forall p :: p in rows ==> exists l :: l in Entries(rows, isolated, sequence) && p in l.positions
    decreases |rows|
  {
    if rows != [] {
      var n := if isolated then 1 else if |rows| < CHUNK then |rows| else CHUNK;
      var first := Letter(sequence, rows[..n], Pending);
      EntriesHold(rows[n..], isolated, sequence);
      assert first in Entries(rows, isolated, sequence);
      forall p | p in rows ensures exists l :: l in Entries(rows, isolated, sequence) && p in l.positions {
        if p in rows[..n] {
          assert p in first.positions;
        } else {
          assert rows == rows[..n] + rows[n..];
          var l :| l in Entries(rows[n..], isolated, sequence) && p in l.positions;
          assert l in Entries(rows, isolated, sequence);
        }
      }
    }
  }

  lemma SplitRows(delivered: seq<nat>, poisoned: seq<nat>, items: seq<nat>)
    requires multiset(delivered) + multiset(poisoned) == multiset(items)
    ensures forall p :: p in items <==> p in delivered || p in poisoned
  {
    forall p ensures p in items <==> p in delivered || p in poisoned {
      assert p in multiset(items) <==> p in multiset(delivered) + multiset(poisoned);
      assert p in items <==> p in multiset(items);
      assert p in delivered <==> p in multiset(delivered);
      assert p in poisoned <==> p in multiset(poisoned);
    }
  }

  /** Parking, on the queue alone: what is kept behind `from` stays, and every failed row joins it. */
  lemma ParkedQueue(letters: seq<Letter>, from: nat, rows: seq<nat>, isolated: bool, sequence: nat)
    requires from <= sequence
    ensures var after := KeptBelow(letters, from) + Entries(rows, isolated, sequence);
            && (forall p :: Parked(letters, from, p) ==> Parked(after, from, p))
            && (forall p :: p in rows ==> Parked(after, sequence + 1, p))
            && (forall l :: l in after ==> l in letters || PartOf(l.positions, rows))
  {
    var after := KeptBelow(letters, from) + Entries(rows, isolated, sequence);
    EntriesHold(rows, isolated, sequence);
    KeptBelowIsPart(letters, from);
    forall p | Parked(letters, from, p) ensures Parked(after, from, p) {
      var l :| l in letters && l.sequence < from && p in l.positions;
      KeptBelowKeeps(letters, from, l);
      assert l in after;
    }
    forall p | p in rows ensures Parked(after, sequence + 1, p) {
      var l :| l in Entries(rows, isolated, sequence) && p in l.positions;
      assert l in after;
    }
  }

  /** Parking, on the whole state. */
  lemma QueueGrows(s: State, t: State, n: nat)
    requires Inv(s) && s.inflight.Some? && s.savedSeq < n
    requires t == s.(letters := t.letters, failures := t.failures, inflight := Some(s.inflight.value.(phase := SetAside(n))))
    requires forall p :: Parked(s.letters, s.savedSeq, p) ==> Parked(t.letters, s.savedSeq, p)
    requires forall p :: p in s.inflight.value.items ==> p in s.landed || Parked(t.letters, n, p)
    requires forall l :: l in t.letters ==> l in s.letters || PartOf(l.positions, s.inflight.value.items)
    ensures Inv(t)
  {
    assert forall p :: Safe(s, p) ==> Safe(t, p);
    assert forall p :: Accounted(s, p) ==> Accounted(t, p);
    forall l | l in t.letters ensures AllChanges(t.log, l.positions) {
      if l !in s.letters {
        assert forall p :: p in l.positions ==> p in s.inflight.value.items;
      }
    }
  }

  lemma ParkStep(s: State, rows: seq<nat>, isolated: bool, failedSeq: nat)
    requires Inv(s) && s.inflight.Some? && s.savedSeq <= failedSeq
    requires PartOf(rows, s.inflight.value.items)
    requires forall p :: p in s.inflight.value.items ==> p in s.landed || p in rows
    ensures Inv(AfterPark(s, rows, isolated, failedSeq))
  {
    ParkedQueue(s.letters, s.seqNo, rows, isolated, failedSeq);
    QueueGrows(s, AfterPark(s, rows, isolated, failedSeq), failedSeq + 1);
  }

  lemma OtherFailures(s: State, failures: nat, halted: bool)
    requires Inv(s)
    ensures Inv(s.(failures := failures, halted := halted))
  {
    var t := s.(failures := failures, halted := halted);
    assert forall p :: Safe(s, p) <==> Safe(t, p);
    assert forall p :: Accounted(s, p) <==> Accounted(t, p);
  }

  lemma RecoveredStep(s: State)
    requires Inv(s) && s.inflight.Some? && forall p :: p in s.inflight.value.items ==> p in s.landed
    ensures Inv(InPhaseNow(s, Recovered))
  {
    LandingStep(s, InPhaseNow(s, Recovered));
  }

  lemma HandleStep(cfg: Config, s: State, delivered: seq<nat>, poisoned: seq<nat>)
    requires Inv(s) && Enabled(cfg, s, Handle(delivered, poisoned))
    ensures Inv(AfterHandle(cfg, s, delivered, poisoned))
  {
    var failures := if delivered != [] then 0 else s.failures + 1;
    SplitRows(delivered, poisoned, s.inflight.value.items);
    OtherFailures(s, failures, s.halted);
    OtherFailures(s, 0, s.halted);
    OtherFailures(s, failures, true);
    if poisoned == [] {
      RecoveredStep(s.(failures := 0));
    } else if failures >= cfg.maxConsecutiveFailures || PendingRows(s.letters) + |poisoned| > cfg.deadLetterMaxRows {
    } else {
      ParkStep(s.(failures := failures), poisoned, Isolating(cfg, s.inflight.value),
               if delivered != [] then s.seqNo + 1 else s.seqNo);
    }
  }

  lemma CheckpointStep(cfg: Config, s: State)
    requires Inv(s) && Enabled(cfg, s, Checkpoint)
    ensures Inv(AfterCheckpoint(s))
  {
    var t := AfterCheckpoint(s);
    forall p | Safe(s, p) ensures Safe(t, p) {
      StillSafe(s, t, p);
    }
    forall p | InFlight(s, p) ensures Safe(t, p) {
      assert IsChange(s.log, p);
    }
    assert forall p :: Accounted(s, p) ==> Accounted(t, p);
  }

  lemma RestartStep(s: State)
    requires Inv(s)
    ensures Inv(AfterRestart(s))
  {
    var t := AfterRestart(s);
    assert forall p :: Safe(s, p) <==> Safe(t, p);
  }

  /** Every step keeps the invariant. */
  lemma Step(cfg: Config, s: State, a: Action)
    requires Inv(s) && Enabled(cfg, s, a)
    ensures Inv(Do(cfg, s, a))
  {
    match a
    case Take => TakeStep(cfg, s);
    case Put => PutStep(cfg, s);
    case Flush => FlushStep(cfg, s);
    case Handle(delivered, poisoned) => HandleStep(cfg, s, delivered, poisoned);
    case Checkpoint => CheckpointStep(cfg, s);
    case Restart => RestartStep(s);
    case Stop => SamePlaces(s, Do(cfg, s, a));
    case Ack => SamePlaces(s, Do(cfg, s, a));
    case Rewind(_) => SamePlaces(s, Do(cfg, s, a));
    case SourceWrites(e) => QuietStep(s, Do(cfg, s, a));
    case _ =>
      if OfTheQueue(a) {
        QueueStep(cfg, s, a);
      } else {
        AttemptStep(cfg, s, a);
      }
  }

  predicate OfTheQueue(a: Action) {
    a.Retry? || a.ReplayFails? || a.RetryFails? || a.Discard?
  }

  lemma QueueStep(cfg: Config, s: State, a: Action)
    requires Inv(s) && Enabled(cfg, s, a) && OfTheQueue(a)
    ensures Inv(Do(cfg, s, a))
  {
    QuietStep(s, Do(cfg, s, a));
  }

  lemma AttemptStep(cfg: Config, s: State, a: Action)
    requires Inv(s) && Enabled(cfg, s, a) && (a.Deliver? || a.DeliverFails? || a.Attempt? || a.StoreError?)
    ensures Inv(Do(cfg, s, a))
  {
    LandingStep(s, Do(cfg, s, a));
  }

  lemma SamePlaces(s: State, t: State)
    requires Inv(s) && t == s.(halted := t.halted, acked := t.acked, next := t.next)
    requires t.next <= s.next && (t.acked == s.acked || t.acked == s.watermark)
    ensures Inv(t)
  {
    assert forall p :: Safe(s, p) <==> Safe(t, p);
    assert forall p :: Accounted(s, p) <==> Accounted(t, p);
  }

  lemma {:induction false} RunKeepsInv(cfg: Config, s: State, run: seq<Action>)
    requires Inv(s) && IsRun(cfg, s, run)
    ensures Inv(After(cfg, s, run))
    decreases |run|
  {
    if run != [] {
      Step(cfg, s, run[0]);
      RunKeepsInv(cfg, Do(cfg, s, run[0]), run[1..]);
    }
  }

  /** Nothing is lost. After any run whatever, with any mix of deliveries, failures, parked rows, metadata
  errors, in-process replays, retries and crashes: every position behind the saved cursor has been
  delivered, was deliberately passed over, or has a dead letter behind the saved sequence, and the
  source has been told no more than that. */
  lemma NothingIsLost(cfg: Config, run: seq<Action>, p: nat)
    requires IsRun(cfg, Initial(), run)
    ensures var s := After(cfg, Initial(), run);
            (p < s.saved || p < s.acked) ==>
              p < |s.log| && (s.log[p].Passed? || p in s.landed || Parked(s.letters, s.savedSeq, p))
  {
    assert Inv(Initial());
    RunKeepsInv(cfg, Initial(), run);
    var s := After(cfg, Initial(), run);
    assert p < s.saved || p < s.acked ==> Safe(s, p);
  }

  /** What `park` removes is never what keeps a row behind the cursor safe: the row has another keeper. */
  lemma ParkRemovesNothingBehindTheCursor(cfg: Config, run: seq<Action>, delivered: seq<nat>, poisoned: seq<nat>, p: nat)
    requires IsRun(cfg, Initial(), run)
    requires WellFormed(After(cfg, Initial(), run))
    requires Enabled(cfg, After(cfg, Initial(), run), Handle(delivered, poisoned))
    requires p < After(cfg, Initial(), run).saved
    ensures Safe(AfterHandle(cfg, After(cfg, Initial(), run), delivered, poisoned), p)
  {
    assert Inv(Initial());
    RunKeepsInv(cfg, Initial(), run);
    HandleStep(cfg, After(cfg, Initial(), run), delivered, poisoned);
  }
}
