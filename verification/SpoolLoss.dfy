/** What a crash between trimming the spool and saving the sequence number can cost: exactly which rows, and a run
that loses one. */
module SpoolLoss {
  import opened Changes
  import opened StreamProtocol
  import opened StreamConvergence
  import opened StreamNoLoss
  import opened Spool
  import opened SpoolNoLoss
  import StreamQueue

  /* ----- building runs ----- */

  ghost predicate LeadsTo(cfg: Config, from: Spooled, t: Spooled) {
    exists run :: SpoolRun(cfg, from, run) && End(cfg, from, run) == t
  }

  lemma {:induction false} OneMoreStep(cfg: Config, s: Spooled, run: seq<Step>, a: Step)
    requires SpoolRun(cfg, s, run) && Formed(End(cfg, s, run)) && May(cfg, End(cfg, s, run), a)
    ensures SpoolRun(cfg, s, run + [a])
    ensures End(cfg, s, run + [a]) == Perform(cfg, End(cfg, s, run), a)
    ensures GuardedRun(cfg, s, run) && Guarded(End(cfg, s, run), a) ==> GuardedRun(cfg, s, run + [a])
    decreases |run|
  {
    if run == [] {
      assert [a][1..] == [];
      assert run + [a] == [a];
    } else {
      assert (run + [a])[1..] == run[1..] + [a];
      OneMoreStep(cfg, Perform(cfg, s, run[0]), run[1..], a);
    }
  }

  lemma StartsAt(cfg: Config, s: Spooled)
    ensures LeadsTo(cfg, s, s)
  {
    assert SpoolRun(cfg, s, []) && End(cfg, s, []) == s;
  }

  lemma Go(cfg: Config, from: Spooled, s: Spooled, a: Step, t: Spooled) returns (now: Spooled)
    requires LeadsTo(cfg, from, s) && Formed(s) && May(cfg, s, a) && Perform(cfg, s, a) == t
    ensures now == t && LeadsTo(cfg, from, now)
  {
    var run :| SpoolRun(cfg, from, run) && End(cfg, from, run) == s;
    OneMoreStep(cfg, from, run, a);
    now := t;
  }

  /** The same without a crash at the wrong moment. */
  ghost predicate SafelyLeadsTo(cfg: Config, from: Spooled, t: Spooled) {
    exists run :: SpoolRun(cfg, from, run) && GuardedRun(cfg, from, run) && End(cfg, from, run) == t
  }

  lemma StartsSafely(cfg: Config, s: Spooled)
    ensures SafelyLeadsTo(cfg, s, s)
  {
    assert SpoolRun(cfg, s, []) && GuardedRun(cfg, s, []) && End(cfg, s, []) == s;
  }

  lemma GoSafely(cfg: Config, from: Spooled, s: Spooled, a: Step, t: Spooled) returns (now: Spooled)
    requires SafelyLeadsTo(cfg, from, s) && Formed(s) && May(cfg, s, a) && Guarded(s, a) && Perform(cfg, s, a) == t
    ensures now == t && SafelyLeadsTo(cfg, from, now)
  {
    var run :| SpoolRun(cfg, from, run) && GuardedRun(cfg, from, run) && End(cfg, from, run) == s;
    OneMoreStep(cfg, from, run, a);
    now := t;
  }

  /* ----- which rows a crash can cost ----- */

  /** A row behind the cursor that is nowhere any more: not delivered, not in the spool or the run drained from it,
  and in no dead letter of whatever status. */
  predicate Gone(s: Spooled, p: nat)
    requires Formed(s)
  {
    && p < s.core.saved && IsChange(s.core.log, p) && p !in s.core.landed && p !in Items(s) && p !in Beyond(s)
    && forall l :: l in s.core.letters ==> p !in l.positions
  }

  /** It never landed, and only pending letters whose sequence is yet to be used still hold it. */
  predicate Doomed(s: Spooled, p: nat) {
    && p < s.core.saved && IsChange(s.core.log, p) && p !in s.core.landed && p !in s.spool
    && forall l :: l in s.core.letters && p in l.positions ==> l.status.Pending? && l.sequence >= s.core.savedSeq
  }

  /** A settled letter holds it, and stays. */
  predicate HeldForGood(letters: seq<Letter>, p: nat) {
    exists l :: l in letters && !l.status.Pending? && p in l.positions
  }

  /** What parking loses: exactly what was held by nothing but the letters it replaces, and is not parked now. */
  lemma ParkingLosesIff(letters: seq<Letter>, from: nat, rows: seq<nat>, isolated: bool, sequence: nat, p: nat)
    ensures (forall l :: l in KeptBelow(letters, from) + Entries(rows, isolated, sequence) ==> p !in l.positions) <==>
            p !in rows && forall l :: l in letters && p in l.positions ==> l.status.Pending? && l.sequence >= from
  {
    var kept, added := KeptBelow(letters, from), Entries(rows, isolated, sequence);
    KeptBelowIsPart(letters, from);
    EntriesHold(rows, isolated, sequence);
    if l :| l in letters && p in l.positions && !(l.status.Pending? && l.sequence >= from) {
      KeptBelowKeeps(letters, from, l);
      assert l in kept + added;
    }
    if p in rows {
      var l :| l in added && p in l.positions;
      assert l in kept + added;
    }
  }

  lemma SettledStay(letters: seq<Letter>, i: nat, status: Status, p: nat)
    requires i < |letters| && letters[i].status.Pending? && HeldForGood(letters, p)
    ensures HeldForGood(letters[i := letters[i].(status := status)], p)
  {
    var l :| l in letters && !l.status.Pending? && p in l.positions;
    var j :| 0 <= j < |letters| && letters[j] == l;
    assert letters[i := letters[i].(status := status)][j] == l;
  }

  lemma KeptForGood(letters: seq<Letter>, from: nat, added: seq<Letter>, p: nat)
    requires HeldForGood(letters, p)
    ensures HeldForGood(KeptBelow(letters, from) + added, p)
  {
    var l :| l in letters && !l.status.Pending? && p in l.positions;
    KeptBelowKeeps(letters, from, l);
    assert l in KeptBelow(letters, from) + added;
  }

  lemma HandleHoldsForGood(cfg: Config, s: State, delivered: seq<nat>, poisoned: seq<nat>, p: nat)
    requires s.inflight.Some? && HeldForGood(s.letters, p)
    ensures HeldForGood(AfterHandle(cfg, s, delivered, poisoned).letters, p)
  {
    StreamQueue.LettersAfterHandle(cfg, s, delivered, poisoned);
    KeptForGood(s.letters, s.seqNo, Entries(poisoned, Isolating(cfg, s.inflight.value),
                                            if delivered != [] then s.seqNo + 1 else s.seqNo), p);
  }

  lemma StaysHeldForGood(cfg: Config, s: Spooled, a: Step, p: nat)
    requires Formed(s) && May(cfg, s, a) && HeldForGood(s.core.letters, p)
    ensures HeldForGood(Perform(cfg, s, a).core.letters, p)
  {
    if a.Shared? {
      match a.action
      case Handle(delivered, poisoned) => HandleHoldsForGood(cfg, s.core, delivered, poisoned, p);
      case Retry(i, _) => SettledStay(s.core.letters, i, Resolved, p);
      case Discard(i) => SettledStay(s.core.letters, i, Discarded, p);
      case _ =>
    }
  }

  lemma {:induction false} RunHoldsForGood(cfg: Config, s: Spooled, run: seq<Step>, p: nat)
    requires SpoolRun(cfg, s, run) && HeldForGood(s.core.letters, p)
    ensures HeldForGood(End(cfg, s, run).core.letters, p)
    decreases |run|
  {
    if run != [] {
      StaysHeldForGood(cfg, s, run[0], p);
      RunHoldsForGood(cfg, Perform(cfg, s, run[0]), run[1..], p);
    }
  }

  /** The state a crash leaves. */
  ghost predicate JustCrashed(t: Spooled) {
    && Formed(t) && t.core.acked <= t.core.saved && t.appended == t.core.saved && !t.trimmed
    && t.core.inflight.None? && !t.core.halted && t.core.failures == 0
  }

  /** What is placed stays placed, whatever else has been lost already. */
  lemma PlacedIsNotGone(cfg: Config, t: Spooled, run: seq<Step>, p: nat)
    requires JustCrashed(t) && SpoolRun(cfg, t, run) && GuardedRun(cfg, t, run)
    requires p < t.appended ==> Placed(t, p)
    ensures Formed(End(cfg, t, run)) && !Gone(End(cfg, t, run), p)
  {
    var lost := iset q: nat | q < t.appended && !Placed(t, q);
    RunKept(cfg, t, run, lost);
    var v := End(cfg, t, run);
    if p < v.appended {
      assert Placed(v, p);
    }
  }

  /** Something is in the spool, and it is not the row. */
  lemma SpoolSomething(cfg: Config, t: Spooled, p: nat) returns (u: Spooled)
    requires JustCrashed(t) && p < t.core.saved && p !in t.spool
    ensures SafelyLeadsTo(cfg, t, u) && Formed(u) && u.spool != [] && p !in u.spool && t.core.log <= u.core.log
    ensures u == t.(core := t.core.(log := u.core.log), spool := u.spool, appended := u.appended)
  {
    StartsSafely(cfg, t);
    u := t;
    if t.spool == [] {
      var e := Carried(Empty);
      u := GoSafely(cfg, t, u, Shared(SourceWrites(e)), u.(core := u.core.(log := u.core.log + [e])));
      QuietForms(t, u);
      var n := |u.core.log|;
      assert IsChange(u.core.log, n - 1);
      assert n - 1 in Carriers(u.core.log, u.appended, n);
      u := GoSafely(cfg, t, u, Append(n), u.(spool := u.spool + Carriers(u.core.log, u.appended, n), appended := n));
    }
  }

  lemma OneIsABatch(log: seq<Entry>, x: nat)
    requires IsChange(log, x)
    ensures Batchable(log, [x])
  {
    assert ChangesOf(log, [x]) == [log[x].change];
  }

  /** The first of the spool fails and is parked, under the sequence number the crash has left to be used again. */
  lemma ParkFirst(cfg: Config, from: Spooled, u: Spooled) returns (v: Spooled)
    requires SafelyLeadsTo(cfg, from, u) && JustDrainable(cfg, u)
    ensures SafelyLeadsTo(cfg, from, v) && Formed(v) && Items(v) == u.spool[..1] && Beyond(v) == u.spool[1..]
    ensures v.core.log == u.core.log && v.core.saved == u.core.saved && v.core.landed == u.core.landed
    ensures v.core.letters == KeptBelow(u.core.letters, u.core.savedSeq) + Entries(u.spool[..1], false, u.core.savedSeq)
  {
    var x := u.spool[0];
    assert u.spool[..1] == [x];
    OneIsABatch(u.core.log, x);
    v := GoSafely(cfg, from, u, Drain(1), u.(core := u.core.(inflight := Some(Batch([x], 0, Sending)))));
    assert ChangesOf(v.core.log, []) == [];
    v := GoSafely(cfg, from, v, Shared(DeliverFails([])), v.(core := v.core.(inflight := Some(Batch([x], 0, Failed({}))))));
    v := ParkIt(cfg, from, v, x);
  }

  lemma ParkIt(cfg: Config, from: Spooled, u: Spooled, x: nat) returns (v: Spooled)
    requires SafelyLeadsTo(cfg, from, u) && Formed(u) && u.core.inflight == Some(Batch([x], 0, Failed({})))
    requires !cfg.abort && cfg.maxConsecutiveFailures > u.core.failures + 1
    requires PendingRows(u.core.letters) < cfg.deadLetterMaxRows
    ensures SafelyLeadsTo(cfg, from, v) && Formed(v) && v.core.inflight.Some? && v.core.inflight.value.items == [x]
    ensures v == u.(core := u.core.(letters := v.core.letters, failures := v.core.failures, inflight := v.core.inflight))
    ensures v.core.letters == KeptBelow(u.core.letters, u.core.savedSeq) + Entries([x], false, u.core.savedSeq)
  {
    assert multiset([]) + multiset([x]) == multiset([x]);
    StreamQueue.LettersAfterHandle(cfg, u.core, [], [x]);
    v := GoSafely(cfg, from, u, Shared(Handle([], [x])), u.(core := AfterHandle(cfg, u.core, [], [x])));
    ParkedForms(u.core.log, u.core.letters, u.core.savedSeq, x);
  }

  ghost predicate JustDrainable(cfg: Config, u: Spooled) {
    && Formed(u) && u.spool != [] && !u.trimmed && u.core.inflight.None? && !u.core.halted && u.core.failures == 0
    && !cfg.abort && cfg.maxConsecutiveFailures > 1 && PendingRows(u.core.letters) < cfg.deadLetterMaxRows
  }

  lemma ParkedForms(log: seq<Entry>, letters: seq<Letter>, from: nat, x: nat)
    requires IsChange(log, x) && forall l :: l in letters ==> AllChanges(log, l.positions)
    ensures forall l :: l in KeptBelow(letters, from) + Entries([x], false, from) ==> AllChanges(log, l.positions)
  {
    KeptBelowIsPart(letters, from);
    EntriesHold([x], false, from);
  }

  /** After a crash, with onError=continue and room in the dead-letter queue: the row can still be lost, without a
  further crash at the wrong moment, if and only if nothing holds it but pending letters whose sequence number is
  used again. */
  lemma LostAfterACrashIff(cfg: Config, t: Spooled, p: nat)
    requires JustCrashed(t)
    requires !cfg.abort && cfg.maxConsecutiveFailures > 1 && PendingRows(t.core.letters) < cfg.deadLetterMaxRows
    ensures (exists v :: SafelyLeadsTo(cfg, t, v) && Formed(v) && Gone(v, p)) <==> Doomed(t, p)
  {
    if Doomed(t, p) {
      var u := SpoolSomething(cfg, t, p);
      var v := ParkFirst(cfg, t, u);
      assert u.spool == u.spool[..1] + u.spool[1..];
      ParkingLosesIff(u.core.letters, u.core.savedSeq, u.spool[..1], false, u.core.savedSeq, p);
      assert Gone(v, p);
    } else if v :| SafelyLeadsTo(cfg, t, v) && Formed(v) && Gone(v, p) {
      var run :| SpoolRun(cfg, t, run) && GuardedRun(cfg, t, run) && End(cfg, t, run) == v;
      if HeldForGood(t.core.letters, p) {
        RunHoldsForGood(cfg, t, run, p);
      } else {
        if p < t.appended && !Placed(t, p) {
          UnplacedIsDoomed(t, p);
        }
        PlacedIsNotGone(cfg, t, run, p);
      }
    }
  }

  lemma UnplacedIsDoomed(t: Spooled, p: nat)
    requires JustCrashed(t) && !HeldForGood(t.core.letters, p) && p < t.appended && !Placed(t, p)
    ensures Doomed(t, p)
  {
    assert !Parked(t.core.letters, t.core.savedSeq, p);
  }

  lemma PlacedIsNotDoomed(t: Spooled, p: nat)
    requires JustCrashed(t) && Placed(t, p)
    ensures !Doomed(t, p)
  {
  }

  /** So which crash of a run loses what can be told from the state it falls on: a row is lost to the way on from it
  if and only if it is doomed there, and no row is unless the crash falls between trim and sequence save. */
  lemma ACrashLosesExactly(cfg: Config, run: seq<Step>, p: nat)
    requires SpoolRun(cfg, Begun(), run) && GuardedRun(cfg, Begun(), run) && Formed(End(cfg, Begun(), run))
    requires !cfg.abort && cfg.maxConsecutiveFailures > 1
    requires PendingRows(End(cfg, Begun(), run).core.letters) < cfg.deadLetterMaxRows
    ensures var s := End(cfg, Begun(), run);
            && ((exists v :: SafelyLeadsTo(cfg, Perform(cfg, s, Crash), v) && Formed(v) && Gone(v, p)) <==> Doomed(s, p))
            && (Doomed(s, p) ==> Exposed(s))
  {
    assert Kept(Begun(), iset{});
    RunKept(cfg, Begun(), run, iset{});
    var s := End(cfg, Begun(), run);
    var t := Perform(cfg, s, Crash);
    CrashForms(s, t);
    LostAfterACrashIff(cfg, t, p);
    if p < s.core.saved && !Exposed(s) {
      CrashKept(s, t, iset{});
      PlacedIsNotDoomed(t, p);
    }
  }

  /* ----- a run that loses a row ----- */

  const CONFIG := Config(true, true, false, 10, 1000)

  function A(): Change { Write(true, "a", map["v" := 1]) }
  function B(): Change { Write(true, "b", map["v" := 1]) }

  function OneLogged(): Spooled {
    Begun().(core := Initial().(log := [Carried(A())], saved := 1, watermark := 1), appended := 1)
  }

  function OneFailing(): Spooled {
    OneLogged().(spool := [0], core := OneLogged().core.(inflight := Some(Batch([0], 0, Failed({})))))
  }

  function Parked0(): Letter { Letter(0, [0], Pending) }

  /** After the crash: the row is parked, the spool has forgotten it, and the sequence is still its own. */
  function AfterTheCrash(): Spooled {
    OneLogged().(core := OneLogged().core.(letters := [Parked0()], next := 1))
  }

  function TwoLogged(): Spooled {
    Begun().(core := Initial().(log := [Carried(A()), Carried(B())], saved := 2, watermark := 2, next := 1), appended := 2)
  }

  function TwoSpooled(): Spooled {
    TwoLogged().(spool := [1], core := TwoLogged().core.(letters := [Parked0()]))
  }

  function TwoFailing(): Spooled {
    TwoSpooled().(core := TwoSpooled().core.(inflight := Some(Batch([1], 0, Failed({})))))
  }

  function RowLost(): Spooled {
    TwoSpooled().(core := TwoSpooled().core.(failures := 1, letters := [Letter(0, [1], Pending)],
                                             inflight := Some(Batch([1], 0, SetAside(1)))))
  }

  /** The spool is trimmed before the sequence number is saved. When a crash falls in between, the parked
  rows' entries sit at the sequence the next failing run is given, and parking that run deletes them. The
  row at position 0 is then behind the cursor, and in none of the three places. */
  lemma CrashBetweenTrimAndSequenceLosesARow()
    ensures exists run :: SpoolRun(CONFIG, Begun(), run) &&
              var s := End(CONFIG, Begun(), run);
              && 0 < s.core.saved && IsChange(s.core.log, 0) && 0 !in s.core.landed && 0 !in s.spool && !Exposed(s)
              && (forall l :: l in s.core.letters ==> 0 !in l.positions)
  {
    StartsAt(CONFIG, Begun());
    FirstFails();
    CrashAfterTrim();
    SecondAppended();
    SecondFails();
    SecondParked();
    var run :| SpoolRun(CONFIG, Begun(), run) && End(CONFIG, Begun(), run) == RowLost();
  }

  lemma OneCarrier(log: seq<Entry>, p: nat)
    requires |log| == p + 1 && log[p].Carried?
    ensures Carriers(log, p, p + 1) == [p]
  {
    assert Carriers(log, p + 1, p + 1) == [];
  }

  lemma FirstFails()
    requires LeadsTo(CONFIG, Begun(), Begun())
    ensures LeadsTo(CONFIG, Begun(), OneFailing())
  {
    var s := Begun();
    assert [] + [Carried(A())] == [Carried(A())];
    s := Go(CONFIG, Begun(), s, Shared(SourceWrites(Carried(A()))), s.(core := s.core.(log := [Carried(A())])));
    OneCarrier(s.core.log, 0);
    s := Go(CONFIG, Begun(), s, Append(1), s.(spool := [0], appended := 1));
    s := Go(CONFIG, Begun(), s, SaveCursor, s.(core := s.core.(saved := 1, watermark := 1)));
    assert s.spool[..1] == [0];
    s := Go(CONFIG, Begun(), s, Drain(1), s.(core := s.core.(inflight := Some(Batch([0], 0, Sending)))));
    assert ChangesOf(s.core.log, []) == [];
    s := Go(CONFIG, Begun(), s, Shared(DeliverFails([])), OneFailing());
  }

  lemma CrashAfterTrim()
    requires LeadsTo(CONFIG, Begun(), OneFailing())
    ensures LeadsTo(CONFIG, Begun(), AfterTheCrash())
  {
    var s := OneFailing();
    assert multiset([]) + multiset([0]) == multiset([0]);
    assert [0][..1] == [0] && [0][1..] == [];
    assert Entries([0], false, 0) == [Parked0()] + Entries([], false, 0);
    s := Go(CONFIG, Begun(), s, Shared(Handle([], [0])),
            s.(core := s.core.(failures := 1, letters := [Parked0()], inflight := Some(Batch([0], 0, SetAside(1))))));
    s := Go(CONFIG, Begun(), s, Trim, s.(spool := [], trimmed := true));
    s := Go(CONFIG, Begun(), s, Crash, AfterTheCrash());
  }

  lemma SecondAppended()
    requires LeadsTo(CONFIG, Begun(), AfterTheCrash())
    ensures LeadsTo(CONFIG, Begun(), TwoSpooled())
  {
    var s := AfterTheCrash();
    assert s.core.log + [Carried(B())] == TwoLogged().core.log;
    s := Go(CONFIG, Begun(), s, Shared(SourceWrites(Carried(B()))), s.(core := s.core.(log := TwoLogged().core.log)));
    OneCarrier(s.core.log, 1);
    s := Go(CONFIG, Begun(), s, Append(2), s.(spool := [1], appended := 2));
    s := Go(CONFIG, Begun(), s, SaveCursor, TwoSpooled());
  }

  lemma SecondFails()
    requires LeadsTo(CONFIG, Begun(), TwoSpooled())
    ensures LeadsTo(CONFIG, Begun(), TwoFailing())
  {
    var s := TwoSpooled();
    assert s.spool[..1] == [1];
    s := Go(CONFIG, Begun(), s, Drain(1), s.(core := s.core.(inflight := Some(Batch([1], 0, Sending)))));
    assert ChangesOf(s.core.log, []) == [];
    s := Go(CONFIG, Begun(), s, Shared(DeliverFails([])), TwoFailing());
  }

  lemma SecondParked()
    requires LeadsTo(CONFIG, Begun(), TwoFailing())
    ensures LeadsTo(CONFIG, Begun(), RowLost())
  {
    var s := TwoFailing();
    assert multiset([]) + multiset([1]) == multiset([1]);
    assert [1][..1] == [1] && [1][1..] == [];
    assert Entries([1], false, 0) == [Letter(0, [1], Pending)] + Entries([], false, 0);
    assert KeptBelow([Parked0()], 0) == [] + KeptBelow([], 0);
    assert PendingRows([Parked0()]) == 1 + PendingRows([]);
    s := Go(CONFIG, Begun(), s, Shared(Handle([], [1])), RowLost());
  }
}
