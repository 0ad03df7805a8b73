/** With the spool, a row behind the saved cursor is in the spool, the destination, or the dead-letter queue:
for every run in which no crash falls between trimming parked rows and saving the sequence number. */
module SpoolNoLoss {
  import opened Changes
  import opened StreamProtocol
  import opened StreamConvergence
  import opened StreamNoLoss
  import opened Spool

  /** The only premise: no crash while exposed. Discarding and as-recorded replays are allowed. */
  predicate Guarded(s: Spooled, a: Step) {
    a.Crash? ==> !Exposed(s)
  }

  predicate GuardedRun(cfg: Config, s: Spooled, run: seq<Step>)
    requires SpoolRun(cfg, s, run)
    decreases |run|
  {
    run == [] || (Guarded(s, run[0]) && GuardedRun(cfg, Perform(cfg, s, run[0]), run[1..]))
  }

  predicate Placed(s: Spooled, p: nat)
    requires Formed(s)
  {
    Safe(s.core, p) || p in Items(s) || p in Beyond(s)
  }

  /** Every position the spool has taken over is placed, but for those given up for `lost` already. */
  ghost predicate Kept(s: Spooled, lost: iset<nat>) {
    && Formed(s)
    && s.core.acked <= s.core.saved
    && (forall p: nat :: p < s.appended && p !in lost ==> Placed(s, p))
    && PhaseHolds(s.core)
  }

  lemma StaysKept(s: Spooled, t: Spooled, lost: iset<nat>)
    requires Kept(s, lost) && Formed(t) && PhaseHolds(t.core)
    requires t.appended == s.appended && t.core.acked <= t.core.saved
    requires Items(t) == Items(s) && Beyond(t) == Beyond(s)
    requires forall p :: Safe(s.core, p) ==> Safe(t.core, p)
    ensures Kept(t, lost)
  {
    assert forall p :: Placed(s, p) ==> Placed(t, p);
  }

  /** Steps on the source, the destination, or the state of dead letters. */
  lemma QuietForms(s: Spooled, t: Spooled)
    requires Formed(s) && t == s.(core := s.core.(log := t.core.log, dest := t.core.dest, letters := t.core.letters,
                                                  halted := t.core.halted))
    requires s.core.log <= t.core.log && SameEntries(s.core, t.core)
    ensures Formed(t) && Items(t) == Items(s) && Beyond(t) == Beyond(s)
    ensures forall p :: Safe(s.core, p) ==> Safe(t.core, p)
  {
    forall below, p ensures Parked(s.core.letters, below, p) == Parked(t.core.letters, below, p) {
      SameEntriesParked(s.core, t.core, below, p);
    }
    forall l | l in t.core.letters ensures AllChanges(t.core.log, l.positions) {
      var i :| 0 <= i < |t.core.letters| && t.core.letters[i] == l;
      assert s.core.letters[i] in s.core.letters;
    }
  }

  lemma QuietKept(s: Spooled, t: Spooled, lost: iset<nat>)
    requires Kept(s, lost) && t == s.(core := s.core.(log := t.core.log, dest := t.core.dest, letters := t.core.letters,
                                                halted := t.core.halted))
    requires s.core.log <= t.core.log && SameEntries(s.core, t.core)
    ensures Kept(t, lost)
  {
    QuietForms(s, t);
    forall below, p ensures Parked(s.core.letters, below, p) == Parked(t.core.letters, below, p) {
      SameEntriesParked(s.core, t.core, below, p);
    }
    StaysKept(s, t, lost);
  }

  /** A delivery attempt only adds to what has landed. */
  lemma LandingKept(s: Spooled, t: Spooled, lost: iset<nat>)
    requires Kept(s, lost) && s.core.inflight.Some? && s.core.landed <= t.core.landed
    requires t == s.(core := s.core.(dest := t.core.dest, landed := t.core.landed, inflight := t.core.inflight,
                                     failures := t.core.failures, halted := t.core.halted))
    requires t.core.inflight.Some?
    requires t.core.inflight.value == s.core.inflight.value.(phase := t.core.inflight.value.phase)
    requires s.trimmed ==> !t.core.inflight.value.phase.Sending?
    requires PhaseHolds(t.core)
    ensures Kept(t, lost)
  {
    StaysKept(s, t, lost);
  }

  lemma ParkKept(s: Spooled, t: Spooled, rows: seq<nat>, isolated: bool, failedSeq: nat, lost: iset<nat>)
    requires Kept(s, lost) && s.core.inflight.Some? && s.core.savedSeq <= failedSeq && PartOf(rows, Items(s))
    requires forall p :: p in Items(s) ==> p in s.core.landed || p in rows
    requires t == s.(core := AfterPark(s.core, rows, isolated, failedSeq))
    ensures Kept(t, lost)
  {
    ParkedQueue(s.core.letters, s.core.seqNo, rows, isolated, failedSeq);
    forall l | l in t.core.letters ensures AllChanges(t.core.log, l.positions) {
      if l !in s.core.letters {
        assert forall p :: p in l.positions ==> p in Items(s);
      }
    }
    StaysKept(s, t, lost);
  }

  lemma HandleKept(cfg: Config, s: Spooled, t: Spooled, delivered: seq<nat>, poisoned: seq<nat>, lost: iset<nat>)
    requires Kept(s, lost) && Enabled(cfg, s.core, Handle(delivered, poisoned))
    requires t == s.(core := AfterHandle(cfg, s.core, delivered, poisoned))
    ensures Kept(t, lost)
  {
    var failures := if delivered != [] then 0 else s.core.failures + 1;
    SplitRows(delivered, poisoned, s.core.inflight.value.items);
    if poisoned == [] || failures >= cfg.maxConsecutiveFailures ||
       PendingRows(s.core.letters) + |poisoned| > cfg.deadLetterMaxRows {
      LandingKept(s, t, lost);
    } else {
      var u := s.(core := s.core.(failures := failures));
      LandingKept(s, u, lost);
      ParkKept(u, t, poisoned, Isolating(cfg, s.core.inflight.value),
               if delivered != [] then s.core.seqNo + 1 else s.core.seqNo, lost);
    }
  }

  lemma SharedKept(cfg: Config, s: Spooled, a: Action, lost: iset<nat>)
    requires Kept(s, lost) && SharedStep(a) && Enabled(cfg, s.core, a)
    ensures Kept(s.(core := Do(cfg, s.core, a)), lost)
  {
    var t := s.(core := Do(cfg, s.core, a));
    match a
    case Deliver => LandingKept(s, t, lost);
    case DeliverFails(part) => LandingKept(s, t, lost);
    case Attempt(part, ok) => LandingKept(s, t, lost);
    case Handle(delivered, poisoned) => HandleKept(cfg, s, t, delivered, poisoned, lost);
    case StoreError => LandingKept(s, t, lost);
    case SourceWrites(_) => QuietKept(s, t, lost);
    case Stop => QuietKept(s, t, lost);
    case Retry(_, _) => QuietKept(s, t, lost);
    case ReplayFails(_, _) => QuietKept(s, t, lost);
    case RetryFails(_, _) => QuietKept(s, t, lost);
    case Discard(_) => QuietKept(s, t, lost);
  }

  lemma AppendKept(s: Spooled, t: Spooled, added: seq<nat>, lost: iset<nat>)
    requires Kept(s, lost) && t == s.(spool := s.spool + added, appended := t.appended)
    requires s.appended <= t.appended <= |s.core.log| && AllChanges(s.core.log, added)
    requires forall p :: s.appended <= p < t.appended && IsChange(s.core.log, p) ==> p in added
    ensures Kept(t, lost)
  {
    AppendForms(s, t, added);
    forall p: nat | p < t.appended && p !in lost ensures Placed(t, p) {
      assert p < s.appended ==> Placed(s, p);
      assert Safe(s.core, p) || p in added || p in Items(s) || p in Beyond(s);
    }
  }

  lemma TrimKept(s: Spooled, t: Spooled, lost: iset<nat>)
    requires Kept(s, lost) && s.core.inflight.Some? && Settled(s.core.inflight.value.phase) && !s.trimmed
    requires t == s.(spool := s.spool[|Items(s)|..], trimmed := true)
    ensures Kept(t, lost)
  {
    assert forall p :: p in t.spool ==> p in s.spool;
    StaysKept(s, t, lost);
  }

  lemma SaveSequenceKept(s: Spooled, t: Spooled, lost: iset<nat>)
    requires Kept(s, lost) && s.core.inflight.Some? && Settled(s.core.inflight.value.phase) && s.trimmed
    requires t == Taken(s, SaveSequence)
    ensures Kept(t, lost)
  {
    forall p | Safe(s.core, p) ensures Safe(t.core, p) {
      StillSafe(s.core, t.core, p);
    }
    forall p | p in Items(s) ensures Safe(t.core, p) {
      assert IsChange(s.core.log, p);
    }
    assert forall p :: Placed(s, p) ==> Placed(t, p);
  }

  lemma CrashKept(s: Spooled, t: Spooled, lost: iset<nat>)
    requires Kept(s, lost) && !Exposed(s) && t == Spooled(AfterRestart(s.core), s.core.saved, s.spool, false)
    ensures Kept(t, lost)
  {
    CrashForms(s, t);
    forall p | Placed(s, p) ensures Placed(t, p) {
      assert Safe(s.core, p) ==> Safe(t.core, p);
      if !s.trimmed {
        assert p in Items(s) + Beyond(s) ==> p in s.spool;
      } else if p in Items(s) {
        assert IsChange(s.core.log, p);
      }
    }
  }

  lemma StepKept(cfg: Config, s: Spooled, a: Step, lost: iset<nat>)
    requires Kept(s, lost) && May(cfg, s, a) && Guarded(s, a)
    ensures Kept(Perform(cfg, s, a), lost)
  {
    var t := Perform(cfg, s, a);
    match a
    case Shared(b) => SharedKept(cfg, s, b, lost);
    case Append(to) => AppendKept(s, t, Carriers(s.core.log, s.appended, to), lost);
    case AppendFails(_, part) => AppendKept(s, t, part, lost);
    case Drain(n) => DrainKept(s, t, n, lost);
    case Trim => if !s.trimmed { TrimKept(s, t, lost); }
    case SaveSequence => SaveSequenceKept(s, t, lost);
    case Crash => CrashKept(s, t, lost);
    case SaveCursor => CursorKept(s, t, lost);
    case AckSource => CursorKept(s, t, lost);
  }

  lemma CursorKept(s: Spooled, t: Spooled, lost: iset<nat>)
    requires Kept(s, lost) && t == s.(core := s.core.(saved := t.core.saved, watermark := t.core.saved, acked := t.core.acked))
    requires t.core.saved == s.core.saved || t.core.saved == s.appended
    requires t.core.acked <= t.core.saved
    ensures Kept(t, lost)
  {
    StaysKept(s, t, lost);
  }

  lemma DrainKept(s: Spooled, t: Spooled, n: nat, lost: iset<nat>)
    requires Kept(s, lost) && s.core.inflight.None? && 0 < n <= |s.spool|
    requires t == s.(core := s.core.(inflight := Some(Batch(s.spool[..n], 0, Sending))))
    ensures Kept(t, lost)
  {
    assert s.spool == s.spool[..n] + s.spool[n..];
    assert forall p :: Safe(s.core, p) ==> Safe(t.core, p);
    assert forall p :: Placed(s, p) ==> Placed(t, p);
  }

  lemma {:induction false} RunKept(cfg: Config, s: Spooled, run: seq<Step>, lost: iset<nat>)
    requires Kept(s, lost) && SpoolRun(cfg, s, run) && GuardedRun(cfg, s, run)
    ensures Kept(End(cfg, s, run), lost)
    decreases |run|
  {
    if run != [] {
      StepKept(cfg, s, run[0], lost);
      RunKept(cfg, Perform(cfg, s, run[0]), run[1..], lost);
    }
  }

  /** Every position behind the saved cursor, and so behind what the source was told it may forget, was
  passed over, has landed, has a dead letter behind the saved sequence, or is in the spool. */
  lemma NothingSpooledIsLost(cfg: Config, run: seq<Step>, p: nat)
    requires SpoolRun(cfg, Begun(), run) && GuardedRun(cfg, Begun(), run)
    ensures var s := End(cfg, Begun(), run);
            s.core.acked <= s.core.saved && (p < s.core.saved && !Exposed(s) ==> Safe(s.core, p) || p in s.spool)
  {
    assert Kept(Begun(), iset{});
    RunKept(cfg, Begun(), run, iset{});
    var s := End(cfg, Begun(), run);
    if p < s.core.saved && !Exposed(s) {
      assert Placed(s, p);
      if s.trimmed {
        assert p in Items(s) ==> IsChange(s.core.log, p) && p in s.core.landed;
      } else {
        assert p in Items(s) + Beyond(s) <==> p in Items(s) || p in Beyond(s);
        assert Items(s) + Beyond(s) == s.spool;
      }
    }
  }
}
