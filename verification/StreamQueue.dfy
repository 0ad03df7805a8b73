/** The dead-letter queue of a live stream: exactly when a batch that is parked again after a crash replaces what
the crash left behind, so that no row waits twice. */
module StreamQueue {
  import opened Changes
  import opened StreamProtocol
  import opened StreamConvergence
  import StreamNoLoss
  import StreamTheorems

  /** How often each position waits in the queue. */
  function Held(letters: seq<Letter>): multiset<nat> {
    if letters == [] then multiset{}
    else (if letters[0].status.Pending? then multiset(letters[0].positions) else multiset{}) + Held(letters[1..])
  }

  lemma {:induction false} HeldConcat(a: seq<Letter>, b: seq<Letter>)
    ensures Held(a + b) == Held(a) + Held(b)
    decreases |a|
  {
    if a == [] {
      assert a + b == b;
    } else {
      assert (a + b)[1..] == a[1..] + b;
      HeldConcat(a[1..], b);
    }
  }

  lemma {:induction false} HeldBySome(letters: seq<Letter>, p: nat)
    requires Held(letters)[p] > 0
    ensures exists l :: l in letters && l.status.Pending? && p in l.positions
    decreases |letters|
  {
    if letters[0].status.Pending? && p in letters[0].positions {
      assert letters[0] in letters;
    } else {
      assert p in letters[0].positions <==> p in multiset(letters[0].positions);
      HeldBySome(letters[1..], p);
    }
  }

  lemma {:induction false} EntriesHoldOnce(rows: seq<nat>, isolated: bool, sequence: nat)
    ensures Held(Entries(rows, isolated, sequence)) == multiset(rows)
    decreases |rows|
  {
    if rows != [] {
      var n := if isolated then 1 else if |rows| < CHUNK then |rows| else CHUNK;
      EntriesHoldOnce(rows[n..], isolated, sequence);
      assert rows == rows[..n] + rows[n..];
      HeldConcat([Letter(sequence, rows[..n], Pending)], Entries(rows[n..], isolated, sequence));
    }
  }

  lemma {:induction false} KeptHoldsNoMore(letters: seq<Letter>, from: nat)
    ensures Held(KeptBelow(letters, from)) <= Held(letters)
    decreases |letters|
  {
    if letters != [] {
      KeptHoldsNoMore(letters[1..], from);
      var first := if letters[0].status.Pending? && letters[0].sequence >= from then [] else [letters[0]];
      HeldConcat(first, KeptBelow(letters[1..], from));
    }
  }

  lemma {:induction false} SettledHoldsLess(letters: seq<Letter>, i: nat, status: Status)
    requires i < |letters| && !status.Pending?
    ensures Held(letters[i := letters[i].(status := status)]) <= Held(letters)
    decreases |letters|
  {
    var t := letters[i := letters[i].(status := status)];
    if i == 0 {
      assert t[1..] == letters[1..];
    } else {
      assert t[1..] == letters[1..][i - 1 := letters[i].(status := status)];
      SettledHoldsLess(letters[1..], i - 1, status);
    }
  }

  lemma {:induction false} CarriersOnce(log: seq<Entry>, lo: nat, hi: nat, p: nat)
    requires lo <= hi <= |log|
    ensures multiset(Carriers(log, lo, hi))[p] <= 1
    decreases hi - lo
  {
    if lo < hi {
      CarriersOnce(log, lo + 1, hi, p);
      var rest := Carriers(log, lo + 1, hi);
      if log[lo].Carried? {
        assert Carriers(log, lo, hi) == [lo] + rest;
        assert lo !in rest;
        assert multiset([lo] + rest) == multiset{lo} + multiset(rest);
      }
    }
  }

  /* ----- exactly when a row waits twice ----- */

  predicate NoneTwice(letters: seq<Letter>) {
    forall p :: p in Held(letters) ==> Held(letters)[p] == 1
  }

  /** What can be seen before parking: no row is listed twice, and none is in the queue that will be left. */
  predicate Fresh(letters: seq<Letter>, from: nat, rows: seq<nat>) {
    forall p :: p in rows ==> multiset(rows)[p] == 1 && p !in Held(KeptBelow(letters, from))
  }

  /** Parking makes no row wait twice if and only if the rows are fresh. */
  lemma ParkedOnceIffFresh(letters: seq<Letter>, from: nat, rows: seq<nat>, isolated: bool, sequence: nat)
    requires NoneTwice(letters)
    ensures NoneTwice(KeptBelow(letters, from) + Entries(rows, isolated, sequence)) <==> Fresh(letters, from, rows)
  {
    var kept, added := KeptBelow(letters, from), Entries(rows, isolated, sequence);
    HeldConcat(kept, added);
    KeptHoldsNoMore(letters, from);
    EntriesHoldOnce(rows, isolated, sequence);
    assert Held(kept + added) == Held(kept) + multiset(rows);
    assert forall p :: p in rows <==> p in multiset(rows);
    assert forall p :: p in Held(kept) ==> p in Held(letters) && Held(kept)[p] == 1;
    forall p | p in rows ensures Held(kept + added)[p] == Held(kept)[p] + multiset(rows)[p] && p in Held(kept + added) {}
  }

  /** Does this end of a failed batch park its rows? */
  predicate Parks(cfg: Config, s: State, delivered: seq<nat>, poisoned: seq<nat>) {
    && poisoned != [] && (if delivered != [] then 0 else s.failures + 1) < cfg.maxConsecutiveFailures
    && PendingRows(s.letters) + |poisoned| <= cfg.deadLetterMaxRows
  }

  predicate ParksFresh(cfg: Config, s: State, a: Action) {
    a.Handle? && Parks(cfg, s, a.delivered, a.poisoned) ==> Fresh(s.letters, s.seqNo, a.poisoned)
  }

  lemma SettledOnce(letters: seq<Letter>, i: nat, status: Status)
    requires i < |letters| && !status.Pending? && NoneTwice(letters)
    ensures NoneTwice(letters[i := letters[i].(status := status)])
  {
    var t := letters[i := letters[i].(status := status)];
    SettledHoldsLess(letters, i, status);
    forall p | p in Held(t) ensures Held(t)[p] == 1 {
      assert p in Held(letters);
    }
  }

  lemma LettersAfterHandle(cfg: Config, s: State, delivered: seq<nat>, poisoned: seq<nat>)
    requires s.inflight.Some?
    ensures AfterHandle(cfg, s, delivered, poisoned).letters ==
            if Parks(cfg, s, delivered, poisoned)
            then KeptBelow(s.letters, s.seqNo) + Entries(poisoned, Isolating(cfg, s.inflight.value),
                                                         if delivered != [] then s.seqNo + 1 else s.seqNo)
            else s.letters
  {
  }

  lemma HandleOnceIffFresh(cfg: Config, s: State, delivered: seq<nat>, poisoned: seq<nat>)
    requires s.inflight.Some? && NoneTwice(s.letters)
    ensures NoneTwice(AfterHandle(cfg, s, delivered, poisoned).letters) <==>
            (Parks(cfg, s, delivered, poisoned) ==> Fresh(s.letters, s.seqNo, poisoned))
  {
    LettersAfterHandle(cfg, s, delivered, poisoned);
    if Parks(cfg, s, delivered, poisoned) {
      ParkedOnceIffFresh(s.letters, s.seqNo, poisoned, Isolating(cfg, s.inflight.value),
                         if delivered != [] then s.seqNo + 1 else s.seqNo);
    }
  }

  lemma StepOnceIffFresh(cfg: Config, s: State, a: Action)
    requires WellFormed(s) && Enabled(cfg, s, a) && NoneTwice(s.letters)
    ensures NoneTwice(Do(cfg, s, a).letters) <==> ParksFresh(cfg, s, a)
  {
    match a
    case Handle(delivered, poisoned) => HandleOnceIffFresh(cfg, s, delivered, poisoned);
    case Retry(i, _) => SettledOnce(s.letters, i, Resolved);
    case Discard(i) => SettledOnce(s.letters, i, Discarded);
    case _ =>
  }

  predicate NeverTwice(cfg: Config, s: State, run: seq<Action>)
    requires IsRun(cfg, s, run)
    decreases |run|
  {
    NoneTwice(s.letters) && (run != [] ==> NeverTwice(cfg, Do(cfg, s, run[0]), run[1..]))
  }

  predicate FreshRun(cfg: Config, s: State, run: seq<Action>)
    requires IsRun(cfg, s, run)
    decreases |run|
  {
    run == [] || (ParksFresh(cfg, s, run[0]) && FreshRun(cfg, Do(cfg, s, run[0]), run[1..]))
  }

  /** Over every run whatever: no state on it has a row waiting twice if and only if every parking on it was of
  fresh rows. */
  lemma {:induction false} NeverTwiceIffFresh(cfg: Config, s: State, run: seq<Action>)
    requires IsRun(cfg, s, run) && NoneTwice(s.letters)
    ensures NeverTwice(cfg, s, run) <==> FreshRun(cfg, s, run)
    decreases |run|
  {
    if run != [] {
      StepOnceIffFresh(cfg, s, run[0]);
      if ParksFresh(cfg, s, run[0]) {
        NeverTwiceIffFresh(cfg, Do(cfg, s, run[0]), run[1..]);
      }
    }
  }

  lemma {:induction false} NeverTwiceAtTheEnd(cfg: Config, s: State, run: seq<Action>)
    requires IsRun(cfg, s, run) && NeverTwice(cfg, s, run)
    ensures NoneTwice(After(cfg, s, run).letters)
    decreases |run|
  {
    if run != [] {
      NeverTwiceAtTheEnd(cfg, Do(cfg, s, run[0]), run[1..]);
    }
  }

  /* ----- what keeps the rows fresh ----- */

  /** A batch that lands must not step over entries a crash left behind: those with a sequence at or above
  the saved one, which only a later `park` removes. */
  predicate LeavesNothingBehind(s: State, a: Action) {
    a.Checkpoint? && s.inflight.Some? && !s.inflight.value.phase.SetAside? && s.inflight.value.items != [] ==>
      forall l :: l in s.letters && l.status.Pending? ==> l.sequence < s.savedSeq
  }

  ghost predicate TidyRun(cfg: Config, s: State, run: seq<Action>)
    requires IsRun(cfg, s, run)
    decreases |run|
  {
    run == [] ||
    (Orderly(cfg, s, run[0]) && LeavesNothingBehind(s, run[0]) && TidyRun(cfg, Do(cfg, s, run[0]), run[1..]))
  }

  /** Entries behind the saved sequence are about rows behind the cursor, the others about rows ahead. */
  predicate Placed(letters: seq<Letter>, saved: nat, savedSeq: nat) {
    forall l, p :: l in letters && l.status.Pending? && p in l.positions ==> (l.sequence < savedSeq <==> p < saved)
  }

  ghost predicate Tidy(s: State) {
    && Placed(s.letters, s.saved, s.savedSeq)
    && (s.inflight.Some? && s.inflight.value.phase.SetAside? ==>
          forall l :: l in s.letters && l.status.Pending? && l.sequence >= s.savedSeq ==>
            l.sequence < s.inflight.value.phase.nextSeq && PartOf(l.positions, s.inflight.value.items))
  }

  lemma ParkedPlaced(letters: seq<Letter>, saved: nat, savedSeq: nat, rows: seq<nat>, isolated: bool, failedSeq: nat)
    requires Placed(letters, saved, savedSeq) && savedSeq <= failedSeq
    requires forall p :: p in rows ==> saved <= p
    ensures var after := KeptBelow(letters, savedSeq) + Entries(rows, isolated, failedSeq);
            && Placed(after, saved, savedSeq)
            && forall l :: l in after && l.status.Pending? && l.sequence >= savedSeq ==>
                 l.sequence == failedSeq && PartOf(l.positions, rows)
  {
    StreamNoLoss.KeptBelowIsPart(letters, savedSeq);
    StreamNoLoss.EntriesHold(rows, isolated, failedSeq);
  }

  /** Rows of the batch in flight, none of them twice. */
  predicate OnceEach(s: State, rows: seq<nat>)
    requires s.inflight.Some?
  {
    forall p :: p in rows ==> multiset(rows)[p] == 1 && p in s.inflight.value.items && s.saved <= p
  }

  lemma BatchOnceEach(s: State, rows: seq<nat>)
    requires Ordered(s) && s.inflight.Some? && multiset(rows) <= multiset(s.inflight.value.items)
    ensures OnceEach(s, rows)
  {
    forall p | p in rows ensures multiset(rows)[p] == 1 && p in s.inflight.value.items && s.saved <= p {
      CarriersOnce(s.log, s.saved, s.inflight.value.reach, p);
      assert p in multiset(rows);
    }
  }

  lemma ParkKeepsTidy(s: State, rows: seq<nat>, isolated: bool, failedSeq: nat)
    requires Tidy(s) && s.inflight.Some? && s.savedSeq <= failedSeq && s.seqNo == s.savedSeq && OnceEach(s, rows)
    ensures Tidy(AfterPark(s, rows, isolated, failedSeq))
  {
    var items := s.inflight.value.items;
    ParkedPlaced(s.letters, s.saved, s.savedSeq, rows, isolated, failedSeq);
    assert forall l: Letter :: PartOf(l.positions, rows) ==> PartOf(l.positions, items);
  }

  lemma CountedKeepsTidy(s: State, failures: nat, halted: bool)
    requires Tidy(s)
    ensures Tidy(s.(failures := failures, halted := halted))
  {
  }

  lemma RecoveredKeepsTidy(s: State)
    requires Tidy(s) && s.inflight.Some?
    ensures Tidy(InPhaseNow(s, Recovered))
  {
  }

  lemma HandleKeepsTidy(cfg: Config, s: State, delivered: seq<nat>, poisoned: seq<nat>)
    requires Tidy(s) && s.inflight.Some? && s.seqNo == s.savedSeq && OnceEach(s, poisoned)
    ensures Tidy(AfterHandle(cfg, s, delivered, poisoned))
  {
    var failures := if delivered != [] then 0 else s.failures + 1;
    if poisoned == [] {
      CountedKeepsTidy(s, 0, s.halted);
      RecoveredKeepsTidy(s.(failures := 0));
    } else if failures >= cfg.maxConsecutiveFailures || PendingRows(s.letters) + |poisoned| > cfg.deadLetterMaxRows {
      CountedKeepsTidy(s, failures, true);
    } else {
      CountedAndParkedTidy(s, failures, poisoned, Isolating(cfg, s.inflight.value),
                           if delivered != [] then s.seqNo + 1 else s.seqNo);
    }
  }

  lemma CountedAndParkedTidy(s: State, failures: nat, rows: seq<nat>, isolated: bool, failedSeq: nat)
    requires Tidy(s) && s.inflight.Some? && s.savedSeq <= failedSeq && s.seqNo == s.savedSeq && OnceEach(s, rows)
    ensures Tidy(AfterPark(s.(failures := failures), rows, isolated, failedSeq))
  {
    CountedKeepsTidy(s, failures, s.halted);
    ParkKeepsTidy(s.(failures := failures), rows, isolated, failedSeq);
  }

  lemma SettleKeepsTidy(s: State, t: State, i: nat, status: Status)
    requires Tidy(s) && i < |s.letters| && !status.Pending?
    requires t == s.(dest := t.dest, letters := s.letters[i := s.letters[i].(status := status)])
    ensures Tidy(t)
  {
    forall l | l in t.letters && l.status.Pending? ensures l in s.letters {
      var j :| 0 <= j < |t.letters| && t.letters[j] == l;
      assert s.letters[j] == l;
    }
  }

  lemma CheckpointKeepsTidy(cfg: Config, s: State)
    requires Converging(s) && Tidy(s) && Enabled(cfg, s, Checkpoint) && LeavesNothingBehind(s, Checkpoint)
    ensures Tidy(AfterCheckpoint(s))
  {
    var b := s.inflight.value;
    forall l, p | l in s.letters && l.status.Pending? && p in l.positions
      ensures l.sequence < NextSeq(s) <==> p < b.reach
    {
      assert IsChange(s.log, p);
      assert p in b.items <==> s.saved <= p < b.reach;
    }
  }

  /** A step that leaves the queue, the cursor and the sequence alone. */
  lemma OtherStepKeepsTidy(s: State, t: State)
    requires Tidy(s)
    requires t.letters == s.letters && t.saved == s.saved && t.savedSeq == s.savedSeq
    requires t.inflight.Some? && t.inflight.value.phase.SetAside? ==> t.inflight == s.inflight
    ensures Tidy(t)
  {
  }

  lemma TidyStep(cfg: Config, s: State, a: Action)
    requires Converging(s) && Tidy(s) && Enabled(cfg, s, a) && Orderly(cfg, s, a) && LeavesNothingBehind(s, a)
    ensures Tidy(Do(cfg, s, a))
  {
    match a
    case Handle(delivered, poisoned) =>
      BatchOnceEach(s, poisoned);
      HandleKeepsTidy(cfg, s, delivered, poisoned);
    case Checkpoint => CheckpointKeepsTidy(cfg, s);
    case Retry(i, _) => SettleKeepsTidy(s, Do(cfg, s, a), i, Resolved);
    case Discard(i) => SettleKeepsTidy(s, Do(cfg, s, a), i, Discarded);
    case _ => OtherStepKeepsTidy(s, Do(cfg, s, a));
  }

  /** In a tidy state the rows of a failed batch, all ahead of the cursor, are in no entry that is kept. */
  lemma TidyIsFresh(cfg: Config, s: State, delivered: seq<nat>, poisoned: seq<nat>)
    requires Ordered(s) && Tidy(s) && Enabled(cfg, s, Handle(delivered, poisoned))
    ensures Fresh(s.letters, s.seqNo, poisoned)
  {
    BatchOnceEach(s, poisoned);
    StreamNoLoss.KeptBelowIsPart(s.letters, s.seqNo);
    forall p | p in poisoned ensures p !in Held(KeptBelow(s.letters, s.seqNo)) {
      if p in Held(KeptBelow(s.letters, s.seqNo)) {
        HeldBySome(KeptBelow(s.letters, s.seqNo), p);
      }
    }
  }

  lemma {:induction false} TidyRunsParkFresh(cfg: Config, s: State, run: seq<Action>)
    requires cfg.keyed && Converging(s) && Tidy(s) && IsRun(cfg, s, run) && TidyRun(cfg, s, run)
    ensures FreshRun(cfg, s, run)
    decreases |run|
  {
    if run != [] {
      if run[0].Handle? {
        TidyIsFresh(cfg, s, run[0].delivered, run[0].poisoned);
      }
      StreamTheorems.Step(cfg, s, run[0]);
      TidyStep(cfg, s, run[0]);
      TidyRunsParkFresh(cfg, Do(cfg, s, run[0]), run[1..]);
    }
  }

  /** So parking a batch again after a crash never duplicates entries as long as no batch lands over entries that
  a crash left behind: every parking is then of fresh rows, and each position waits at most once. */
  lemma NoRowWaitsTwice(cfg: Config, run: seq<Action>, p: nat)
    requires cfg.keyed && IsRun(cfg, Initial(), run) && TidyRun(cfg, Initial(), run)
    ensures Held(After(cfg, Initial(), run).letters)[p] <= 1
  {
    StreamTheorems.InitialConverges();
    TidyRunsParkFresh(cfg, Initial(), run);
    NeverTwiceIffFresh(cfg, Initial(), run);
    NeverTwiceAtTheEnd(cfg, Initial(), run);
  }
}
