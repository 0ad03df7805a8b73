/** The spooled path: a reader puts changes into a durable queue and saves the source's cursor by what is in it;
a consumer takes them out at its own pace.

A step here is one write to one store, so a crash may fall between any two of them: between the append and
the cursor, and between trimming the spool and saving the sequence number. The delivery itself, the
isolation of its failures and the dead-letter queue are the direct path's own steps. */
module Spool {
  import opened Changes
  import opened StreamProtocol
  import opened StreamConvergence
  import StreamNoLoss
  import StreamTheorems

  /** `core.inflight` is the run being drained (its reach is not used), `appended` the cursor in memory. */
  datatype Spooled = Spooled(core: State, appended: nat, spool: seq<nat>, trimmed: bool)

  datatype Step =
    | Shared(action: Action)
    | Append(to: nat)
    | AppendFails(to: nat, part: seq<nat>) // some of the entries got in all the same
    | SaveCursor
    | AckSource
    | Drain(n: nat)
    | Trim
    | SaveSequence
    | Crash

  function Begun(): Spooled {
    Spooled(Initial(), 0, [], false)
  }

  predicate SharedStep(a: Action) {
    a.SourceWrites? || a.Deliver? || a.DeliverFails? || a.Attempt? || a.Handle? || a.StoreError? || a.Stop? ||
    a.Retry? || a.RetryFails? || a.ReplayFails? || a.Discard?
  }

  predicate Formed(s: Spooled) {
    && WellFormed(s.core) && s.core.saved <= s.appended <= |s.core.log|
    && AllChanges(s.core.log, s.spool)
    && (s.core.inflight.Some? && !s.trimmed ==> s.core.inflight.value.items <= s.spool)
    && (s.core.inflight.Some? ==> s.core.inflight.value.items != [] && s.core.inflight.value.reach == 0)
    && (s.trimmed ==> s.core.inflight.Some? && !s.core.inflight.value.phase.Sending?)
  }

  predicate Settled(p: Phase) {
    p.Landed? || p.Recovered? || p.SetAside?
  }

  predicate May(cfg: Config, s: Spooled, a: Step)
    requires Formed(s)
  {
    match a
    case Shared(b) => SharedStep(b) && Enabled(cfg, s.core, b)
    case Append(to) => !s.core.halted && s.appended <= to <= |s.core.log|
    case AppendFails(to, part) =>
      s.appended <= to <= |s.core.log| && PartOf(part, Carriers(s.core.log, s.appended, to))
    case SaveCursor => true
    case AckSource => true
    case Drain(n) => // a run `deliverableRuns` cuts from the head
      !s.core.halted && s.core.inflight.None? && 0 < n <= |s.spool| &&
      (cfg.keyed ==> Batchable(s.core.log, s.spool[..n]))
    case Trim => !s.core.halted && s.core.inflight.Some? && Settled(s.core.inflight.value.phase)
    case SaveSequence =>
      !s.core.halted && s.core.inflight.Some? && Settled(s.core.inflight.value.phase) && s.trimmed
    case Crash => true
  }

  function Taken(s: Spooled, a: Step): Spooled
    requires Formed(s) && a.SaveSequence? && s.core.inflight.Some?
  {
    var n := NextSeq(s.core);
    Spooled(s.core.(savedSeq := n, seqNo := n, inflight := None,
                    failures := if s.core.inflight.value.phase.Landed? then 0 else s.core.failures),
            s.appended, s.spool, false)
  }

  function Perform(cfg: Config, s: Spooled, a: Step): Spooled
    requires Formed(s) && May(cfg, s, a)
  {
    match a
    case Shared(b) => s.(core := Do(cfg, s.core, b))
    case Append(to) => s.(spool := s.spool + Carriers(s.core.log, s.appended, to), appended := to)
    case AppendFails(_, part) => s.(spool := s.spool + part)
    case SaveCursor => s.(core := s.core.(saved := s.appended, watermark := s.appended))
    case AckSource => s.(core := s.core.(acked := s.core.saved))
    case Drain(n) => s.(core := s.core.(inflight := Some(Batch(s.spool[..n], 0, Sending))))
    case Trim => if s.trimmed then s else s.(spool := s.spool[|s.core.inflight.value.items|..], trimmed := true)
    case SaveSequence => Taken(s, a)
    case Crash => Spooled(AfterRestart(s.core), s.core.saved, s.spool, false)
  }

  /** The spool has forgotten parked rows whose sequence number is not saved yet. */
  predicate Exposed(s: Spooled) {
    s.trimmed && s.core.inflight.Some? && (s.core.inflight.value.phase.SetAside? || s.core.inflight.value.phase.Failed?)
  }

  /* ----- the premise ----- */

  /** With `cs` applied to it, does each row of letter `i` differ from the source's only in what is written over or
  thrown away by what is still to come: by the run, the spool and the log, from both cursors, and by the spool and
  the log alone? */
  ghost predicate StaysOnCourse(s: Spooled, i: nat, cs: seq<Change>)
    requires Formed(s) && i < |s.core.letters| && s.core.letters[i] in s.core.letters
  {
    forall k :: LetterTouches(s.core.log, s.core.letters[i], k) ==>
      var row := Fold(Lookup(s.core.dest, k), cs, k);
      HiddenBy(s, Items(s) + Beyond(s), row, k) && HiddenBy(s, Beyond(s), row, k)
  }

  ghost predicate HiddenBy(s: Spooled, queue: seq<nat>, row: Option<Row>, k: Key)
    requires Formed(s)
  {
    forall c :: c == s.core.saved || c == s.appended ==>
      AllChanges(s.core.log, Todo(s, queue, c)) && Hides(ChangesOf(s.core.log, Todo(s, queue, c)), k, row, Goal(s.core.log, k))
  }

  /** A letter that is replayed as recorded, or discarded, leaves its rows on course. */
  ghost predicate Settles(cfg: Config, s: Spooled, a: Action)
    requires Formed(s) && Enabled(cfg, s.core, a)
  {
    match a
    case Retry(i, asRecorded) =>
      assert s.core.letters[i] in s.core.letters;
      asRecorded ==> StaysOnCourse(s, i, ChangesOf(s.core.log, s.core.letters[i].positions))
    case ReplayFails(i, part) => // the letter goes on waiting, which says all of rows behind the saved sequence
      assert s.core.letters[i] in s.core.letters;
      s.core.letters[i].sequence >= s.core.savedSeq ==> StaysOnCourse(s, i, ChangesOf(s.core.log, part))
    case Discard(i) => assert s.core.letters[i] in s.core.letters; StaysOnCourse(s, i, [])
    case _ => true
  }

  /** The premise: no crash while exposed, and letters settled with care. */
  ghost predicate Careful(cfg: Config, s: Spooled, a: Step)
    requires Formed(s) && May(cfg, s, a)
  {
    match a
    case Shared(b) => Settles(cfg, s, b)
    case Crash => !Exposed(s)
    case _ => true
  }

  predicate SpoolRun(cfg: Config, s: Spooled, run: seq<Step>)
    decreases |run|
  {
    run == [] || (Formed(s) && May(cfg, s, run[0]) && SpoolRun(cfg, Perform(cfg, s, run[0]), run[1..]))
  }

  ghost predicate CarefulRun(cfg: Config, s: Spooled, run: seq<Step>)
    requires SpoolRun(cfg, s, run)
    decreases |run|
  {
    run == [] || (Careful(cfg, s, run[0]) && CarefulRun(cfg, Perform(cfg, s, run[0]), run[1..]))
  }

  function End(cfg: Config, s: Spooled, run: seq<Step>): Spooled
    requires SpoolRun(cfg, s, run)
    decreases |run|
  {
    if run == [] then s else End(cfg, Perform(cfg, s, run[0]), run[1..])
  }

  /* ----- what is still to come ----- */

  /** Behind every position in `todo`, each later change of the log comes again. A spool that repeats a
  suffix of itself, any number of times and cut off anywhere, has this shape once the log follows it. */
  ghost predicate Closed(log: seq<Entry>, todo: seq<nat>)
    decreases |todo|
  {
    todo == [] ||
    ((forall q :: todo[0] < q && IsChange(log, q) ==> q in todo[1..]) && Closed(log, todo[1..]))
  }

  lemma HeadOrTail(todo: seq<nat>)
    requires todo != []
    ensures todo[0] in todo && forall p :: p in todo <==> p == todo[0] || p in todo[1..]
  {
    assert todo == [todo[0]] + todo[1..];
  }

  lemma {:induction false} CarriersClosed(log: seq<Entry>, lo: nat, hi: nat)
    requires lo <= hi == |log|
    ensures Closed(log, Carriers(log, lo, hi))
    decreases hi - lo
  {
    if lo < hi {
      CarriersClosed(log, lo + 1, hi);
      var rest := Carriers(log, lo + 1, hi);
      if log[lo].Carried? {
        assert Carriers(log, lo, hi)[0] == lo && Carriers(log, lo, hi)[1..] == rest;
        assert forall q :: lo < q && IsChange(log, q) ==> q in rest;
      } else {
        assert Carriers(log, lo, hi) == rest;
      }
    }
  }

  lemma {:induction false} TailClosed(log: seq<Entry>, todo: seq<nat>, n: nat)
    requires Closed(log, todo) && n <= |todo|
    ensures Closed(log, todo[n..])
    decreases n
  {
    if n > 0 {
      TailClosed(log, todo[1..], n - 1);
      assert todo[n..] == todo[1..][n - 1..];
    }
  }

  /** Entries whose successors all follow anyway may be put in between. */
  lemma {:induction false} Inserted(log: seq<Entry>, a: seq<nat>, part: seq<nat>, c: seq<nat>)
    requires Closed(log, a + c) && Closed(log, c)
    requires forall p, q :: p in part && p < q && IsChange(log, q) ==> q in c
    ensures Closed(log, a + part + c)
    decreases |a| + |part|
  {
    if a != [] {
      assert (a + c)[1..] == a[1..] + c;
      assert (a + part + c)[1..] == a[1..] + part + c;
      Inserted(log, a[1..], part, c);
    } else if part != [] {
      assert (a + part + c)[1..] == a + part[1..] + c;
      HeadOrTail(part);
      Inserted(log, a, part[1..], c);
    } else {
      assert a + part + c == c;
    }
  }

  function NewPosition(log: seq<Entry>, e: Entry): seq<nat> {
    if e.Carried? then [|log|] else []
  }

  lemma {:induction false} LongerLogClosed(log: seq<Entry>, e: Entry, todo: seq<nat>)
    requires Closed(log, todo) && forall p :: p in todo ==> p < |log|
    ensures Closed(log + [e], todo + NewPosition(log, e))
    decreases |todo|
  {
    var longer := todo + NewPosition(log, e);
    if todo == [] {
      assert longer == NewPosition(log, e);
      assert e.Carried? ==> longer[1..] == [];
    } else {
      assert longer[1..] == todo[1..] + NewPosition(log, e);
      HeadOrTail(todo);
      LongerLogClosed(log, e, todo[1..]);
      forall q | todo[0] < q && IsChange(log + [e], q) ensures q in longer[1..] {
        assert IsChange(log, q) || q in NewPosition(log, e);
      }
    }
  }

  lemma CarriersGrow(log: seq<Entry>, e: Entry, c: nat)
    requires c <= |log|
    ensures Carriers(log + [e], c, |log| + 1) == Carriers(log, c, |log|) + NewPosition(log, e)
  {
    CarriersConcat(log + [e], c, |log|, |log| + 1);
    CarriersKeep(log, log + [e], c, |log|);
    assert Carriers(log + [e], |log| + 1, |log| + 1) == [];
  }

  lemma {:induction false} NothingBetween(log: seq<Entry>, lo: nat, hi: nat)
    requires lo <= hi <= |log| && forall q :: lo <= q < hi ==> !IsChange(log, q)
    ensures Slice(log, lo, hi) == []
    decreases hi - lo
  {
    if lo < hi {
      assert !IsChange(log, lo);
      NothingBetween(log, lo + 1, hi);
    }
  }

  lemma {:induction false} FirstIsLowest(log: seq<Entry>, todo: seq<nat>, p: nat)
    requires Closed(log, todo) && p !in todo && IsChange(log, p)
    ensures forall q :: q in todo ==> p < q
    decreases |todo|
  {
    if todo != [] {
      HeadOrTail(todo);
      FirstIsLowest(log, todo[1..], p);
    }
  }

  /** Repetitions come to nothing: a closed queue does what the log does from the queue's lowest position. */
  lemma {:induction false} Collapse(x: Option<Row>, log: seq<Entry>, todo: seq<nat>, lo: nat, k: Key)
    requires Closed(log, todo) && AllChanges(log, todo) && lo <= |log|
    requires (forall p :: p in todo ==> lo <= p) && (forall q :: lo <= q && IsChange(log, q) ==> q in todo)
    ensures Fold(x, ChangesOf(log, todo), k) == Fold(x, Rest(log, lo), k)
    decreases |todo|
  {
    if todo == [] {
      NothingBetween(log, lo, |log|);
    } else {
      var p, rest := todo[0], todo[1..];
      HeadOrTail(todo);
      assert ChangesOf(log, todo)[1..] == ChangesOf(log, rest);
      var c := log[p].change;
      if p in rest {
        Collapse(FoldOne(x, c, k), log, rest, lo, k);
        PartOfRest(x, log, lo, p, k);
      } else {
        FirstIsLowest(log, rest, p);
        NothingBetween(log, lo, p);
        SliceConcat(log, lo, p, |log|);
        assert Rest(log, p) == [c] + Rest(log, p + 1);
        assert Rest(log, p)[1..] == Rest(log, p + 1);
        Collapse(FoldOne(x, c, k), log, rest, p + 1, k);
        assert Slice(log, lo, |log|) == Rest(log, p);
      }
    }
  }

  lemma PartOfRest(x: Option<Row>, log: seq<Entry>, lo: nat, p: nat, k: Key)
    requires lo <= p && IsChange(log, p)
    ensures Fold(FoldOne(x, log[p].change, k), Rest(log, lo), k) == Fold(x, Rest(log, lo), k)
  {
    var c := log[p].change;
    SliceHolds(log, lo, |log|, c);
    AbsorbKey(x, [c], Rest(log, lo), k);
    assert [c][1..] == [];
  }

  function Lowest(log: seq<Entry>, todo: seq<nat>): (lo: nat)
    requires forall p :: p in todo ==> p < |log|
    ensures lo <= |log| && (forall p :: p in todo ==> lo <= p) && (todo != [] ==> lo in todo)
  {
    if todo == [] then |log|
    else
      HeadOrTail(todo);
      var rest := Lowest(log, todo[1..]);
      if todo[1..] != [] && rest < todo[0] then rest else todo[0]
  }

  lemma {:induction false} LowestCovers(log: seq<Entry>, todo: seq<nat>, lo: nat, q: nat)
    requires Closed(log, todo) && lo in todo && lo <= q && IsChange(log, q)
    ensures q in todo
    decreases |todo|
  {
    HeadOrTail(todo);
    if todo[0] != lo {
      LowestCovers(log, todo[1..], lo, q);
    }
  }

  /* ----- on course, by what is still to come ----- */

  predicate LeadsBy(row: Option<Row>, log: seq<Entry>, todo: seq<nat>, k: Key) {
    AllChanges(log, todo) && Fold(row, ChangesOf(log, todo), k) == Goal(log, k)
  }

  lemma ChangesConcat(log: seq<Entry>, a: seq<nat>, b: seq<nat>)
    requires AllChanges(log, a) && AllChanges(log, b)
    ensures AllChanges(log, a + b) && ChangesOf(log, a + b) == ChangesOf(log, a) + ChangesOf(log, b)
  {
  }

  /** The source's own row stays where it is, whatever the queue still repeats. */
  lemma GoalLeadsBy(log: seq<Entry>, todo: seq<nat>, k: Key)
    requires Closed(log, todo) && AllChanges(log, todo)
    ensures LeadsBy(Goal(log, k), log, todo, k)
  {
    if todo != [] {
      var lo := Lowest(log, todo);
      forall q | lo <= q && IsChange(log, q) ensures q in todo {
        LowestCovers(log, todo, lo, q);
      }
      Collapse(Goal(log, k), log, todo, lo, k);
      GoalLeads(log, lo, k);
    }
  }

  lemma PartLeadsBy(row: Option<Row>, log: seq<Entry>, part: seq<nat>, todo: seq<nat>, k: Key)
    requires LeadsBy(row, log, todo, k) && AllChanges(log, part) && PartOf(part, todo)
    ensures LeadsBy(Fold(row, ChangesOf(log, part), k), log, todo, k)
  {
    var cs, all := ChangesOf(log, part), ChangesOf(log, todo);
    forall c | c in cs ensures c in all {
      var i :| 0 <= i < |cs| && cs[i] == c;
      assert part[i] in part;
      var j :| 0 <= j < |todo| && todo[j] == part[i];
      assert all[j] == c;
    }
    AbsorbKey(row, cs, all, k);
  }

  lemma RunLeadsBy(row: Option<Row>, log: seq<Entry>, items: seq<nat>, rest: seq<nat>, k: Key)
    requires LeadsBy(row, log, items + rest, k)
    requires AllChanges(log, items) && AllChanges(log, rest)
    ensures LeadsBy(Fold(row, ChangesOf(log, items), k), log, rest, k)
  {
    ChangesConcat(log, items, rest);
    FoldConcat(row, ChangesOf(log, items), ChangesOf(log, rest), k);
  }

  /** Entries that come again later may be put in between: they are absorbed. */
  lemma InsertedLeadsBy(row: Option<Row>, log: seq<Entry>, a: seq<nat>, part: seq<nat>, c: seq<nat>, k: Key)
    requires LeadsBy(row, log, a + c, k) && AllChanges(log, a) && AllChanges(log, c) && PartOf(part, c)
    ensures LeadsBy(row, log, a + part + c, k)
  {
    var mid := Fold(row, ChangesOf(log, a), k);
    assert AllChanges(log, part);
    RunLeadsBy(row, log, a, c, k);
    PartLeadsBy(mid, log, part, c, k);
    ChangesConcat(log, a, part);
    ChangesConcat(log, a + part, c);
    FoldConcat(row, ChangesOf(log, a), ChangesOf(log, part), k);
    FoldConcat(row, ChangesOf(log, a + part), ChangesOf(log, c), k);
  }

  lemma LongerLogLeadsBy(row: Option<Row>, log: seq<Entry>, e: Entry, todo: seq<nat>, k: Key)
    requires LeadsBy(row, log, todo, k)
    ensures LeadsBy(row, log + [e], todo + NewPosition(log, e), k)
  {
    var longer, added := log + [e], NewPosition(log, e);
    assert AllChanges(longer, todo) && AllChanges(longer, added);
    ChangesConcat(longer, todo, added);
    assert ChangesOf(longer, todo) == ChangesOf(log, todo);
    FoldConcat(row, ChangesOf(log, todo), ChangesOf(longer, added), k);
    SliceConcat(longer, 0, |log|, |longer|);
    SliceKeeps(log, longer, 0, |log|);
    FoldConcat(None, Slice(log, 0, |log|), Slice(longer, |log|, |longer|), k);
    assert Slice(longer, |longer|, |longer|) == [];
    assert ChangesOf(longer, added) == Slice(longer, |log|, |longer|);
  }

  /** Part of a run, for a key the part touches: as good as the whole run. */
  lemma PartOfRun(row: Option<Row>, log: seq<Entry>, items: seq<nat>, part: seq<nat>, p: nat, k: Key)
    requires Batchable(log, items) && PartOf(part, items) && p in part
    requires AllChanges(log, part) && TouchesKey(log, p, k)
    ensures Fold(row, ChangesOf(log, part), k) == Fold(row, ChangesOf(log, items), k)
  {
    var batch, cs, c := ChangesOf(log, items), ChangesOf(log, part), log[p].change;
    var j :| 0 <= j < |items| && items[j] == p;
    assert batch[j] == c;
    assert forall d :: d in batch && d.Touches(k) ==> d == c;
    forall d | d in cs ensures d in batch {
      var i :| 0 <= i < |cs| && cs[i] == d;
      assert part[i] in part;
      var n :| 0 <= n < |items| && items[n] == part[i];
      assert batch[n] == d;
    }
    var i :| 0 <= i < |part| && part[i] == p;
    assert cs[i] == c;
    OneTouch(row, batch, c, k);
    OneTouch(row, cs, c, k);
  }

  /* ----- the invariant ----- */

  function Items(s: Spooled): seq<nat> {
    if s.core.inflight.Some? then s.core.inflight.value.items else []
  }

  /** What the spool holds beyond the run being drained. */
  function Beyond(s: Spooled): seq<nat>
    requires Formed(s)
  {
    if s.trimmed then s.spool else s.spool[|Items(s)|..]
  }

  /** From cursor `c`, after `queue`: what is still to be delivered. */
  function Todo(s: Spooled, queue: seq<nat>, c: nat): seq<nat>
    requires c <= |s.core.log|
  {
    queue + Carriers(s.core.log, c, |s.core.log|)
  }

  /** With the cursor as it is in memory, and with the one a crash goes back to. */
  ghost predicate ClosedBoth(s: Spooled, queue: seq<nat>)
    requires Formed(s)
  {
    Closed(s.core.log, Todo(s, queue, s.core.saved)) && Closed(s.core.log, Todo(s, queue, s.appended))
  }

  predicate OnBoth(s: Spooled, queue: seq<nat>, k: Key)
    requires Formed(s)
  {
    && LeadsBy(Lookup(s.core.dest, k), s.core.log, Todo(s, queue, s.core.saved), k)
    && LeadsBy(Lookup(s.core.dest, k), s.core.log, Todo(s, queue, s.appended), k)
  }

  /** Every row of the run that the key is in has been written. */
  predicate Written(s: Spooled, touched: set<nat>, k: Key)
    requires AllChanges(s.core.log, Items(s))
  {
    forall p :: p in Items(s) && TouchesKey(s.core.log, p, k) ==> p in touched
  }

  ghost predicate RunConverges(s: Spooled)
    requires Formed(s)
  {
    s.core.inflight.Some? ==>
      match s.core.inflight.value.phase
      case Sending => true
      case Landed => forall k :: !Waiting(s.core, s.core.savedSeq, k) ==> OnBoth(s, Beyond(s), k)
      case Recovered => forall k :: !Waiting(s.core, s.core.savedSeq, k) ==> OnBoth(s, Beyond(s), k)
      case Failed(touched) =>
        forall k :: !Waiting(s.core, s.core.savedSeq, k) && Written(s, touched, k) ==> OnBoth(s, Beyond(s), k)
      case SetAside(n) => s.core.savedSeq < n && forall k :: !Waiting(s.core, n, k) ==> OnBoth(s, Beyond(s), k)
  }

  ghost predicate Draining(s: Spooled) {
    && Formed(s)
    && Batchable(s.core.log, Items(s))
    && ClosedBoth(s, Items(s) + Beyond(s))
    && (forall k :: !Waiting(s.core, s.core.savedSeq, k) ==> OnBoth(s, Items(s) + Beyond(s), k))
    && RunConverges(s)
  }

  /* ----- the reader's steps ----- */

  /** The queue grows at its end by entries that follow anyway. */
  lemma GrowsAtTheEnd(s: Spooled, t: Spooled, queue: seq<nat>, added: seq<nat>)
    requires Formed(s) && Formed(t) && t.core == s.core
    requires PartOf(added, Carriers(s.core.log, s.appended, |s.core.log|))
    requires t.appended == s.appended || (t.appended > s.appended && added == Carriers(s.core.log, s.appended, t.appended))
    requires AllChanges(s.core.log, queue)
    ensures ClosedBoth(s, queue) ==> ClosedBoth(t, queue + added)
    ensures forall k :: OnBoth(s, queue, k) ==> OnBoth(t, queue + added, k)
  {
    var log := s.core.log;
    var near := Carriers(log, s.appended, |log|);
    InsertedInQueue(log, queue, added, s.core.saved, s.appended);
    InsertedInQueue(log, queue, added, s.appended, s.appended);
    if t.appended > s.appended {
      CarriersConcat(log, s.appended, t.appended, |log|);
      assert queue + added + Carriers(log, t.appended, |log|) == queue + near;
    }
  }

  lemma InsertedInQueue(log: seq<Entry>, queue: seq<nat>, added: seq<nat>, c: nat, appended: nat)
    requires c <= appended <= |log| && AllChanges(log, queue)
    requires PartOf(added, Carriers(log, appended, |log|))
    ensures Closed(log, queue + Carriers(log, c, |log|)) ==> Closed(log, queue + added + Carriers(log, c, |log|))
    ensures forall row, k :: LeadsBy(row, log, queue + Carriers(log, c, |log|), k) ==>
                             LeadsBy(row, log, queue + added + Carriers(log, c, |log|), k)
  {
    var rest := Carriers(log, c, |log|);
    CarriersClosed(log, c, |log|);
    if Closed(log, queue + rest) {
      Inserted(log, queue, added, rest);
    }
    forall row, k | LeadsBy(row, log, queue + rest, k) ensures LeadsBy(row, log, queue + added + rest, k) {
      InsertedLeadsBy(row, log, queue, added, rest, k);
    }
  }

  lemma QueueForms(s: Spooled)
    requires Formed(s)
    ensures AllChanges(s.core.log, Items(s)) && AllChanges(s.core.log, Beyond(s))
    ensures AllChanges(s.core.log, Items(s) + Beyond(s))
  {
    assert forall p :: p in Beyond(s) ==> p in s.spool;
  }

  lemma DropOfConcat(a: seq<nat>, b: seq<nat>, n: nat)
    requires n <= |a|
    ensures (a + b)[n..] == a[n..] + b
  {
  }

  lemma AppendForms(s: Spooled, t: Spooled, added: seq<nat>)
    requires Formed(s) && t == s.(spool := s.spool + added, appended := t.appended)
    requires s.appended <= t.appended <= |s.core.log| && AllChanges(s.core.log, added)
    ensures Formed(t) && Beyond(t) == Beyond(s) + added && Items(t) == Items(s)
  {
    if !s.trimmed {
      DropOfConcat(s.spool, added, |Items(s)|);
    }
  }

  /** The queue behind the run changes, the run and the rows do not. */
  lemma SameRun(s: Spooled, t: Spooled)
    requires Draining(s) && Formed(t) && t.core == s.core
    requires ClosedBoth(t, Items(t) + Beyond(t))
    requires forall k :: OnBoth(s, Items(s) + Beyond(s), k) ==> OnBoth(t, Items(t) + Beyond(t), k)
    requires forall k :: OnBoth(s, Beyond(s), k) ==> OnBoth(t, Beyond(t), k)
    ensures Draining(t)
  {
    if s.core.inflight.Some? && s.core.inflight.value.phase.Failed? {
      assert forall k :: Written(s, s.core.inflight.value.phase.touched, k) == Written(t, s.core.inflight.value.phase.touched, k);
    }
  }

  lemma AppendStep(s: Spooled, t: Spooled, added: seq<nat>)
    requires Draining(s) && t == s.(spool := s.spool + added, appended := t.appended) && t.appended <= |s.core.log|
    requires PartOf(added, Carriers(s.core.log, s.appended, |s.core.log|))
    requires t.appended == s.appended || (t.appended > s.appended && added == Carriers(s.core.log, s.appended, t.appended))
    ensures Draining(t)
  {
    assert AllChanges(s.core.log, added);
    AppendForms(s, t, added);
    QueueForms(s);
    assert Items(t) + Beyond(t) == Items(s) + Beyond(s) + added;
    GrowsAtTheEnd(s, t, Items(s) + Beyond(s), added);
    GrowsAtTheEnd(s, t, Beyond(s), added);
    SameRun(s, t);
  }

  lemma SaveCursorStep(s: Spooled, t: Spooled)
    requires Draining(s) && t == s.(core := s.core.(saved := s.appended, watermark := s.appended))
    ensures Draining(t)
  {
    StreamTheorems.SameWaiting(s.core, t.core);
    assert forall q, k :: OnBoth(s, q, k) ==> OnBoth(t, q, k);
    assert forall q, k :: Written(s, q, k) == Written(t, q, k);
  }

  lemma WritesForm(s: Spooled, t: Spooled, e: Entry)
    requires Formed(s) && t == s.(core := s.core.(log := s.core.log + [e]))
    ensures Formed(t)
  {
    forall l | l in t.core.letters ensures AllChanges(t.core.log, l.positions) {
      assert AllChanges(s.core.log, l.positions);
    }
  }

  lemma LongerQueue(log: seq<Entry>, e: Entry, queue: seq<nat>, c: nat)
    requires c <= |log| && AllChanges(log, queue)
    ensures Closed(log, queue + Carriers(log, c, |log|)) ==> Closed(log + [e], queue + Carriers(log + [e], c, |log| + 1))
    ensures forall row, k :: LeadsBy(row, log, queue + Carriers(log, c, |log|), k) ==>
                             LeadsBy(row, log + [e], queue + Carriers(log + [e], c, |log| + 1), k)
  {
    var was, added := queue + Carriers(log, c, |log|), NewPosition(log, e);
    CarriersGrow(log, e, c);
    assert queue + Carriers(log + [e], c, |log| + 1) == was + added;
    if Closed(log, was) {
      LongerLogClosed(log, e, was);
    }
    forall row, k | LeadsBy(row, log, was, k) ensures LeadsBy(row, log + [e], was + added, k) {
      LongerLogLeadsBy(row, log, e, was, k);
    }
  }

  lemma LongerTodo(s: Spooled, t: Spooled, e: Entry, queue: seq<nat>)
    requires Formed(s) && Formed(t) && t == s.(core := s.core.(log := s.core.log + [e]))
    requires AllChanges(s.core.log, queue)
    ensures ClosedBoth(s, queue) ==> ClosedBoth(t, queue)
    ensures forall k :: OnBoth(s, queue, k) ==> OnBoth(t, queue, k)
  {
    LongerQueue(s.core.log, e, queue, s.core.saved);
    LongerQueue(s.core.log, e, queue, s.appended);
  }

  lemma LongerWaiting(s: State, t: State, e: Entry, below: nat, k: Key)
    requires WellFormed(s) && WellFormed(t) && t == s.(log := s.log + [e])
    ensures Waiting(s, below, k) == Waiting(t, below, k)
  {
    assert forall l :: l in s.letters ==> LetterTouches(t.log, l, k) == LetterTouches(s.log, l, k);
  }

  lemma SourceStep(s: Spooled, t: Spooled, e: Entry)
    requires Draining(s) && t == s.(core := s.core.(log := s.core.log + [e]))
    ensures Draining(t)
  {
    WritesForm(s, t, e);
    QueueForms(s);
    LongerTodo(s, t, e, Items(s) + Beyond(s));
    LongerTodo(s, t, e, Beyond(s));
    forall below, k ensures Waiting(s.core, below, k) == Waiting(t.core, below, k) {
      LongerWaiting(s.core, t.core, e, below, k);
    }
    assert ChangesOf(t.core.log, Items(s)) == ChangesOf(s.core.log, Items(s));
    assert forall q, k :: Written(s, q, k) == Written(t, q, k);
  }

  /* ----- the consumer's steps ----- */

  lemma DrainStep(s: Spooled, t: Spooled, n: nat)
    requires Draining(s) && s.core.inflight.None? && 0 < n <= |s.spool| && Batchable(s.core.log, s.spool[..n])
    requires t == s.(core := s.core.(inflight := Some(Batch(s.spool[..n], 0, Sending))))
    ensures Draining(t)
  {
    StreamTheorems.SameWaiting(s.core, t.core);
    assert Items(s) + Beyond(s) == s.spool;
    assert Items(t) + Beyond(t) == s.spool;
    assert forall q, k :: OnBoth(s, q, k) == OnBoth(t, q, k);
  }

  lemma PartOfQueue(row: Option<Row>, log: seq<Entry>, items: seq<nat>, beyond: seq<nat>, tail: seq<nat>, part: seq<nat>, k: Key)
    requires LeadsBy(row, log, items + beyond + tail, k) && PartOf(part, items)
    requires AllChanges(log, items) && AllChanges(log, beyond) && AllChanges(log, tail)
    ensures AllChanges(log, part) && LeadsBy(Fold(row, ChangesOf(log, part), k), log, items + beyond + tail, k)
    ensures LeadsBy(Fold(row, ChangesOf(log, items), k), log, beyond + tail, k)
  {
    assert items + beyond + tail == items + (beyond + tail);
    PartLeadsBy(row, log, part, items + beyond + tail, k);
    RunLeadsBy(row, log, items, beyond + tail, k);
  }

  /** Writing some of the run leaves every row on course, and writing all of it moves them past it. */
  lemma RowWritten(s: Spooled, t: Spooled, part: seq<nat>, k: Key)
    requires Formed(s) && Formed(t) && PartOf(part, Items(s)) && AllChanges(s.core.log, part)
    requires t.core.log == s.core.log && t.core.dest == AfterWrite(s.core, part).dest
    requires t.core.saved == s.core.saved && t.appended == s.appended
    requires OnBoth(s, Items(s) + Beyond(s), k) && AllChanges(s.core.log, Beyond(s)) && AllChanges(s.core.log, Items(s))
    ensures OnBoth(t, Items(s) + Beyond(s), k)
    ensures (var row := Lookup(s.core.dest, k);
             Fold(row, ChangesOf(s.core.log, part), k) == Fold(row, ChangesOf(s.core.log, Items(s)), k)) ==>
              OnBoth(t, Beyond(s), k)
  {
    var log, row := s.core.log, Lookup(s.core.dest, k);
    StreamTheorems.WrittenRow(s.core, part, k);
    PartOfQueue(row, log, Items(s), Beyond(s), Carriers(log, s.core.saved, |log|), part, k);
    PartOfQueue(row, log, Items(s), Beyond(s), Carriers(log, s.appended, |log|), part, k);
  }

  lemma DeliverStep(s: Spooled, t: Spooled)
    requires Draining(s) && s.core.inflight.Some? && s.core.inflight.value.phase.Sending?
    requires t == s.(core := InPhaseNow(AfterWrite(s.core, Items(s)).(landed := t.core.landed), Landed))
    ensures Draining(t)
  {
    StreamTheorems.SameWaiting(s.core, t.core);
    QueueForms(s);
    forall k | !Waiting(s.core, s.core.savedSeq, k) ensures OnBoth(t, Items(t) + Beyond(t), k) && OnBoth(t, Beyond(t), k) {
      RowWritten(s, t, Items(s), k);
    }
  }

  /** A run none of whose rows the key is in. */
  lemma UntouchedRun(s: Spooled, k: Key)
    requires Formed(s) && AllChanges(s.core.log, Items(s))
    requires forall p :: p in Items(s) ==> !TouchesKey(s.core.log, p, k)
    requires OnBoth(s, Items(s) + Beyond(s), k) && AllChanges(s.core.log, Beyond(s))
    ensures OnBoth(s, Beyond(s), k)
  {
    var log, row := s.core.log, Lookup(s.core.dest, k);
    PartUntouched(row, log, Items(s), k);
    PartOfQueue(row, log, Items(s), Beyond(s), Carriers(log, s.core.saved, |log|), [], k);
    PartOfQueue(row, log, Items(s), Beyond(s), Carriers(log, s.appended, |log|), [], k);
  }

  lemma PartialWrite(s: Spooled, t: Spooled, part: seq<nat>, touched: set<nat>)
    requires Draining(s) && s.core.inflight.Some? && PartOf(part, Items(s)) && AllChanges(s.core.log, part)
    requires s.core.inflight.value.phase.Sending? || s.core.inflight.value.phase.Failed?
    requires t == s.(core := InPhaseNow(AfterWrite(s.core, part).(landed := t.core.landed), Failed(touched)))
    requires forall p :: p in touched ==>
               p in part || (s.core.inflight.value.phase.Failed? && p in s.core.inflight.value.phase.touched)
    ensures Draining(t)
  {
    StreamTheorems.SameWaiting(s.core, t.core);
    QueueForms(s);
    forall k | !Waiting(s.core, s.core.savedSeq, k)
      ensures OnBoth(t, Items(t) + Beyond(t), k)
      ensures Written(t, touched, k) ==> OnBoth(t, Beyond(t), k)
    {
      RowWritten(s, t, part, k);
      if p :| p in part && TouchesKey(s.core.log, p, k) {
        PartOfRun(Lookup(s.core.dest, k), s.core.log, Items(s), part, p, k);
      } else {
        StreamTheorems.WrittenRow(s.core, part, k);
        PartUntouched(Lookup(s.core.dest, k), s.core.log, part, k);
        if forall p :: p in Items(s) ==> !TouchesKey(s.core.log, p, k) {
          UntouchedRun(s, k);
        }
      }
    }
  }

  /* ----- the end of a failed run ----- */

  /** The run's phase and the queue of dead letters change; nothing else that a row depends on. */
  predicate SameWork(s: Spooled, t: Spooled) {
    && t == s.(core := t.core)
    && t.core == s.core.(letters := t.core.letters, failures := t.core.failures, halted := t.core.halted,
                         inflight := t.core.inflight)
    && s.core.inflight.Some? && t.core.inflight.Some?
    && t.core.inflight.value == s.core.inflight.value.(phase := t.core.inflight.value.phase)
    && !t.core.inflight.value.phase.Sending?
  }

  lemma SameQueue(s: Spooled, t: Spooled)
    requires Formed(s) && WellFormed(t.core) && SameWork(s, t)
    ensures Formed(t) && Items(t) == Items(s) && Beyond(t) == Beyond(s)
    ensures forall q, k :: OnBoth(s, q, k) == OnBoth(t, q, k)
    ensures forall q :: ClosedBoth(s, q) == ClosedBoth(t, q)
    ensures AllChanges(s.core.log, Items(s)) && forall touched, k :: Written(s, touched, k) == Written(t, touched, k)
  {
  }

  lemma ParkStep(s: Spooled, t: Spooled, rows: seq<nat>, isolated: bool, failedSeq: nat)
    requires Draining(s) && s.core.inflight.Some? && s.core.savedSeq <= failedSeq
    requires s.core.inflight.value.phase.Failed? && PartOf(rows, Items(s))
    requires forall p :: p in Items(s) ==> p in rows || p in s.core.inflight.value.phase.touched
    requires t == s.(core := AfterPark(s.core, rows, isolated, failedSeq))
    ensures Draining(t)
  {
    StreamTheorems.QueueStaysWellFormed(s.core, rows, isolated, failedSeq);
    SameQueue(s, t);
    forall k
      ensures Waiting(s.core, s.core.savedSeq, k) ==> Waiting(t.core, s.core.savedSeq, k)
      ensures !Waiting(t.core, failedSeq + 1, k) ==> OnBoth(t, Beyond(t), k)
    {
      StreamTheorems.ParkedStillWait(s.core, t.core, rows, isolated, failedSeq, k);
      if !Waiting(t.core, failedSeq + 1, k) {
        StreamTheorems.WaitingGrows(t.core, s.core.savedSeq, failedSeq + 1, k);
        assert Written(s, s.core.inflight.value.phase.touched, k);
      }
    }
  }

  lemma PhaseStep(s: Spooled, t: Spooled)
    requires Draining(s) && SameWork(s, t) && t.core.letters == s.core.letters
    requires t.core.inflight == s.core.inflight
             || (t.core.inflight.value.phase == Recovered && s.core.inflight.value.phase.Failed? &&
                 forall p :: p in Items(s) ==> p in s.core.inflight.value.phase.touched)
             || t.core.inflight.value.phase == Failed({})
    ensures Draining(t)
  {
    SameQueue(s, t);
    QueueForms(s);
    StreamTheorems.SameWaiting(s.core, t.core);
    if t.core.inflight.value.phase == Failed({}) {
      forall k | !Waiting(s.core, s.core.savedSeq, k) && Written(t, {}, k) ensures OnBoth(t, Beyond(t), k) {
        UntouchedRun(s, k);
      }
    } else if t.core.inflight.value.phase.Recovered? && s.core.inflight.value.phase.Failed? {
      forall k ensures Written(s, s.core.inflight.value.phase.touched, k) {}
    }
  }

  lemma CountStep(s: Spooled, t: Spooled)
    requires Draining(s) && s.core.inflight.Some? && s.core.inflight.value.phase.Failed?
    requires t == s.(core := s.core.(failures := t.core.failures, halted := t.core.halted))
    ensures Draining(t)
  {
    PhaseStep(s, t);
  }

  lemma HandleCore(cfg: Config, s: Spooled, t: Spooled, delivered: seq<nat>, poisoned: seq<nat>)
    requires Draining(s) && s.core.inflight.Some? && s.core.inflight.value.phase.Failed?
    requires PartOf(poisoned, Items(s))
    requires forall p :: p in Items(s) ==> p in poisoned || p in s.core.inflight.value.phase.touched
    requires t == s.(core := AfterHandle(cfg, s.core, delivered, poisoned))
    ensures Draining(t)
  {
    var failures := if delivered != [] then 0 else s.core.failures + 1;
    if poisoned == [] {
      PhaseStep(s, t);
    } else if failures >= cfg.maxConsecutiveFailures || PendingRows(s.core.letters) + |poisoned| > cfg.deadLetterMaxRows {
      CountStep(s, t);
    } else {
      CountedAndParked(s, t, failures, poisoned, Isolating(cfg, s.core.inflight.value),
                       if delivered != [] then s.core.seqNo + 1 else s.core.seqNo);
    }
  }

  lemma CountedAndParked(s: Spooled, t: Spooled, failures: nat, rows: seq<nat>, isolated: bool, failedSeq: nat)
    requires Draining(s) && s.core.inflight.Some? && s.core.savedSeq <= failedSeq
    requires s.core.inflight.value.phase.Failed? && PartOf(rows, Items(s))
    requires forall p :: p in Items(s) ==> p in rows || p in s.core.inflight.value.phase.touched
    requires t == s.(core := AfterPark(s.core.(failures := failures), rows, isolated, failedSeq))
    ensures Draining(t)
  {
    var u := s.(core := s.core.(failures := failures));
    CountStep(s, u);
    ParkStep(u, t, rows, isolated, failedSeq);
  }

  /* ----- progress ----- */

  lemma TrimStep(s: Spooled, t: Spooled)
    requires Draining(s) && s.core.inflight.Some? && Settled(s.core.inflight.value.phase) && !s.trimmed
    requires t == s.(spool := s.spool[|Items(s)|..], trimmed := true)
    ensures Draining(t)
  {
    assert forall p :: p in t.spool ==> p in s.spool;
    assert Beyond(t) == Beyond(s);
    assert forall q, k :: OnBoth(s, q, k) == OnBoth(t, q, k);
    assert forall touched, k :: Written(s, touched, k) == Written(t, touched, k);
  }

  lemma SaveSequenceStep(s: Spooled, t: Spooled)
    requires Draining(s) && s.core.inflight.Some? && Settled(s.core.inflight.value.phase) && s.trimmed
    requires t == Taken(s, SaveSequence)
    ensures Draining(t)
  {
    StreamTheorems.SameWaiting(s.core, t.core);
    assert Items(t) + Beyond(t) == Beyond(s);
    BeyondClosed(s);
    assert forall q, k :: OnBoth(s, q, k) == OnBoth(t, q, k);
    forall k | Waiting(s.core, s.core.savedSeq, k) ensures Waiting(t.core, t.core.savedSeq, k) {
      StreamTheorems.WaitingGrows(s.core, s.core.savedSeq, t.core.savedSeq, k);
    }
  }

  lemma BeyondClosed(s: Spooled)
    requires Formed(s) && ClosedBoth(s, Items(s) + Beyond(s))
    ensures ClosedBoth(s, Beyond(s))
  {
    forall c | c == s.core.saved || c == s.appended ensures Closed(s.core.log, Todo(s, Beyond(s), c)) {
      var todo := Todo(s, Items(s) + Beyond(s), c);
      TailClosed(s.core.log, todo, |Items(s)|);
      assert todo[|Items(s)|..] == Todo(s, Beyond(s), c);
    }
  }

  /** A crash goes back to the saved cursor, and to the spool as it is. */
  lemma CrashForms(s: Spooled, t: Spooled)
    requires Formed(s) && t == Spooled(AfterRestart(s.core), s.core.saved, s.spool, false)
    ensures Formed(t) && Items(t) == [] && Beyond(t) == s.spool && Items(t) + Beyond(t) == s.spool
    ensures forall q :: ClosedBoth(s, q) ==> ClosedBoth(t, q)
    ensures forall q, k :: OnBoth(s, q, k) ==> OnBoth(t, q, k)
    ensures s.spool == if s.trimmed then Beyond(s) else Items(s) + Beyond(s)
  {
  }

  lemma CrashStep(s: Spooled, t: Spooled)
    requires Draining(s) && !Exposed(s)
    requires t == Spooled(AfterRestart(s.core), s.core.saved, s.spool, false)
    ensures Draining(t)
  {
    StreamTheorems.SameWaiting(s.core, t.core);
    BeyondClosed(s);
    CrashForms(s, t);
  }

  /* ----- a dead letter is retried ----- */

  /** Some rows are set on course outside the spool; the queue may lose a letter about those rows, no other. */
  lemma RowsSetStep(s: Spooled, t: Spooled, rows: iset<Key>)
    requires Draining(s) && t == s.(core := s.core.(dest := t.core.dest, letters := t.core.letters)) && WellFormed(t.core)
    requires Formed(t) && forall k :: k in rows ==>
               Waiting(t.core, s.core.savedSeq, k) || (OnBoth(t, Items(s) + Beyond(s), k) && OnBoth(t, Beyond(s), k))
    requires forall k :: k !in rows ==> Lookup(t.core.dest, k) == Lookup(s.core.dest, k)
    requires forall below, k :: k !in rows && Waiting(s.core, below, k) ==> Waiting(t.core, below, k)
    ensures Draining(t)
  {
    BeyondClosed(s);
    assert forall q, k :: k !in rows ==> OnBoth(s, q, k) == OnBoth(t, q, k);
    assert forall touched, k :: Written(s, touched, k) == Written(t, touched, k);
    forall above: nat, k | s.core.savedSeq <= above && Waiting(t.core, s.core.savedSeq, k) ensures Waiting(t.core, above, k) {
      StreamTheorems.WaitingGrows(t.core, s.core.savedSeq, above, k);
    }
  }

  lemma RefreshStep(s: Spooled, t: Spooled, keys: seq<Key>)
    requires Draining(s) && t == s.(core := s.core.(dest := t.core.dest, letters := t.core.letters))
    requires t.core.dest == Refresh(s.core.dest, SourceTable(s.core.log), keys) && WellFormed(t.core)
    requires forall below, k :: k !in keys && Waiting(s.core, below, k) ==> Waiting(t.core, below, k)
    ensures Draining(t)
  {
    BeyondClosed(s);
    QueueForms(s);
    forall k | k in keys ensures OnBoth(t, Items(s) + Beyond(s), k) && OnBoth(t, Beyond(s), k) {
      StreamTheorems.RefreshedRow(s.core.dest, SourceTable(s.core.log), keys, k);
      GoalIsTheSourceRow(s.core.log, k);
      GoalOnBoth(s, t, Items(s) + Beyond(s), k);
      GoalOnBoth(s, t, Beyond(s), k);
    }
    forall k | k !in keys ensures Lookup(t.core.dest, k) == Lookup(s.core.dest, k) {
      StreamTheorems.RefreshedRow(s.core.dest, SourceTable(s.core.log), keys, k);
    }
    RowsSetStep(s, t, iset k | k in keys);
  }

  lemma GoalOnBoth(s: Spooled, t: Spooled, queue: seq<nat>, k: Key)
    requires Formed(s) && Formed(t) && ClosedBoth(s, queue) && AllChanges(s.core.log, queue)
    requires t.core.log == s.core.log && t.core.saved == s.core.saved && t.appended == s.appended
    requires Lookup(t.core.dest, k) == Goal(s.core.log, k)
    ensures OnBoth(t, queue, k)
  {
    GoalLeadsBy(s.core.log, Todo(s, queue, s.core.saved), k);
    GoalLeadsBy(s.core.log, Todo(s, queue, s.appended), k);
  }

  /** A row that what is to come makes the same as the source's is on course. */
  lemma HiddenOnBoth(s: Spooled, t: Spooled, queue: seq<nat>, k: Key)
    requires Formed(s) && Formed(t) && ClosedBoth(s, queue) && AllChanges(s.core.log, queue)
    requires t.core.log == s.core.log && t.core.saved == s.core.saved && t.appended == s.appended
    requires HiddenBy(s, queue, Lookup(t.core.dest, k), k)
    ensures OnBoth(t, queue, k)
  {
    forall c | c == s.core.saved || c == s.appended
      ensures LeadsBy(Lookup(t.core.dest, k), s.core.log, Todo(s, queue, c), k)
    {
      GoalLeadsBy(s.core.log, Todo(s, queue, c), k);
      SameAfterIffHidden(Lookup(t.core.dest, k), Goal(s.core.log, k), ChangesOf(s.core.log, Todo(s, queue, c)), k);
    }
  }

  /** A letter's changes, applied as recorded (or none of them): the rows were looked at. */
  lemma RecordedStep(s: Spooled, t: Spooled, i: nat, cs: seq<Change>)
    requires Draining(s) && i < |s.core.letters| && s.core.letters[i] in s.core.letters
    requires t == s.(core := s.core.(dest := Apply(s.core.dest, cs), letters := t.core.letters)) && WellFormed(t.core)
    requires forall c, k :: c in cs && c.Touches(k) ==> LetterTouches(s.core.log, s.core.letters[i], k)
    requires StaysOnCourse(s, i, cs) ||
             forall k :: LetterTouches(s.core.log, s.core.letters[i], k) ==> Waiting(t.core, s.core.savedSeq, k)
    requires forall below, k :: !LetterTouches(s.core.log, s.core.letters[i], k) && Waiting(s.core, below, k) ==>
                                  Waiting(t.core, below, k)
    ensures Draining(t)
  {
    BeyondClosed(s);
    QueueForms(s);
    var rows := iset k | LetterTouches(s.core.log, s.core.letters[i], k);
    forall k ensures Lookup(t.core.dest, k) == Fold(Lookup(s.core.dest, k), cs, k) {
      ApplyIsPerKey(s.core.dest, cs, k);
    }
    forall k | k in rows && StaysOnCourse(s, i, cs)
      ensures OnBoth(t, Items(s) + Beyond(s), k) && OnBoth(t, Beyond(s), k)
    {
      HiddenOnBoth(s, t, Items(s) + Beyond(s), k);
      HiddenOnBoth(s, t, Beyond(s), k);
    }
    forall k | k !in rows ensures Lookup(t.core.dest, k) == Lookup(s.core.dest, k) {
      UntouchedKey(Lookup(s.core.dest, k), cs, k);
    }
    RowsSetStep(s, t, rows);
  }

  /* ----- runs ----- */

  lemma RetryStep(cfg: Config, s: Spooled, i: nat, asRecorded: bool)
    requires Draining(s) && Enabled(cfg, s.core, Retry(i, asRecorded)) && Settles(cfg, s, Retry(i, asRecorded))
    ensures Draining(s.(core := Do(cfg, s.core, Retry(i, asRecorded))))
  {
    assert s.core.letters[i] in s.core.letters;
    var t := s.(core := AfterRetry(cfg, s.core, i, asRecorded));
    StreamTheorems.LettersAfterSettling(s.core, t.core, i, Resolved);
    var ps := s.core.letters[i].positions;
    if asRecorded {
      StreamTheorems.RecordedChangesTouch(s.core, i, ps);
      RecordedStep(s, t, i, ChangesOf(s.core.log, ps));
    } else {
      StreamTheorems.RefreshedKeys(cfg, s.core, i);
      RefreshStep(s, t, KeysOf(s.core.log, ps));
    }
  }

  lemma ReplayFailsStep(cfg: Config, s: Spooled, i: nat, part: seq<nat>)
    requires Draining(s) && Enabled(cfg, s.core, ReplayFails(i, part)) && Settles(cfg, s, ReplayFails(i, part))
    ensures Draining(s.(core := Do(cfg, s.core, ReplayFails(i, part))))
  {
    assert s.core.letters[i] in s.core.letters;
    var t := s.(core := Do(cfg, s.core, ReplayFails(i, part)));
    StreamTheorems.RecordedChangesTouch(s.core, i, part);
    StreamTheorems.SameWaiting(s.core, t.core);
    RecordedStep(s, t, i, ChangesOf(s.core.log, part));
  }

  lemma DiscardStep(cfg: Config, s: Spooled, i: nat)
    requires Draining(s) && Enabled(cfg, s.core, Discard(i)) && Settles(cfg, s, Discard(i))
    ensures Draining(s.(core := Do(cfg, s.core, Discard(i))))
  {
    assert s.core.letters[i] in s.core.letters;
    var t := s.(core := Do(cfg, s.core, Discard(i)));
    StreamTheorems.LettersAfterSettling(s.core, t.core, i, Discarded);
    RecordedStep(s, t, i, []);
  }

  lemma HandleStep(cfg: Config, s: Spooled, delivered: seq<nat>, poisoned: seq<nat>)
    requires Draining(s) && Enabled(cfg, s.core, Handle(delivered, poisoned))
    ensures Draining(s.(core := AfterHandle(cfg, s.core, delivered, poisoned)))
  {
    StreamNoLoss.SplitRows(delivered, poisoned, s.core.inflight.value.items);
    HandleCore(cfg, s, s.(core := AfterHandle(cfg, s.core, delivered, poisoned)), delivered, poisoned);
  }

  lemma QuietStep(s: Spooled, t: Spooled)
    requires Draining(s) && t == s.(core := s.core.(halted := t.core.halted, acked := t.core.acked))
    ensures Draining(t)
  {
    StreamTheorems.SameWaiting(s.core, t.core);
    assert forall q, k :: OnBoth(s, q, k) == OnBoth(t, q, k);
    assert forall touched, k :: Written(s, touched, k) == Written(t, touched, k);
  }

  lemma SharedKeepsDraining(cfg: Config, s: Spooled, a: Action)
    requires Draining(s) && SharedStep(a) && Enabled(cfg, s.core, a) && Settles(cfg, s, a)
    ensures Draining(s.(core := Do(cfg, s.core, a)))
  {
    var t := s.(core := Do(cfg, s.core, a));
    match a
    case SourceWrites(e) => SourceStep(s, t, e);
    case Deliver => DeliverStep(s, t);
    case DeliverFails(part) => PartialWrite(s, t, part, {});
    case Attempt(part, ok) =>
      var touched := s.core.inflight.value.phase.touched;
      PartialWrite(s, t, part, if ok then touched + AsSet(part) else touched);
    case Handle(delivered, poisoned) => HandleStep(cfg, s, delivered, poisoned);
    case StoreError => PhaseStep(s, t);
    case Stop => QuietStep(s, t);
    case Retry(i, asRecorded) => RetryStep(cfg, s, i, asRecorded);
    case RetryFails(_, some) => RefreshStep(s, t, some);
    case ReplayFails(i, part) => ReplayFailsStep(cfg, s, i, part);
    case Discard(i) => DiscardStep(cfg, s, i);
  }

  lemma SpoolStep(cfg: Config, s: Spooled, a: Step)
    requires cfg.keyed && Draining(s) && May(cfg, s, a) && Careful(cfg, s, a)
    ensures Draining(Perform(cfg, s, a))
  {
    var t := Perform(cfg, s, a);
    match a
    case Shared(b) => SharedKeepsDraining(cfg, s, b);
    case Append(to) => AppendStepTo(s, to);
    case AppendFails(to, part) => AppendPartStep(s, to, part);
    case SaveCursor => SaveCursorStep(s, t);
    case AckSource => QuietStep(s, t);
    case Drain(n) => DrainStep(s, t, n);
    case Trim => if !s.trimmed { TrimStep(s, t); }
    case SaveSequence => SaveSequenceStep(s, t);
    case Crash => CrashStep(s, t);
  }

  lemma AppendStepTo(s: Spooled, to: nat)
    requires Draining(s) && s.appended <= to <= |s.core.log|
    ensures Draining(s.(spool := s.spool + Carriers(s.core.log, s.appended, to), appended := to))
  {
    var added := Carriers(s.core.log, s.appended, to);
    if to == s.appended {
      assert s.spool + added == s.spool;
      assert s.(spool := s.spool + added, appended := to) == s;
    } else {
      AppendStep(s, s.(spool := s.spool + added, appended := to), added);
    }
  }

  lemma AppendPartStep(s: Spooled, to: nat, part: seq<nat>)
    requires Draining(s) && s.appended <= to <= |s.core.log| && PartOf(part, Carriers(s.core.log, s.appended, to))
    ensures Draining(s.(spool := s.spool + part))
  {
    AppendStep(s, s.(spool := s.spool + part), part);
  }

  lemma {:induction false} RunKeepsDraining(cfg: Config, s: Spooled, run: seq<Step>)
    requires cfg.keyed && Draining(s) && SpoolRun(cfg, s, run) && CarefulRun(cfg, s, run)
    ensures Draining(End(cfg, s, run))
    decreases |run|
  {
    if run != [] {
      SpoolStep(cfg, s, run[0]);
      RunKeepsDraining(cfg, Perform(cfg, s, run[0]), run[1..]);
    }
  }

  lemma BegunDraining()
    ensures Draining(Begun())
  {
    var s := Begun();
    assert Items(s) + Beyond(s) == [];
    assert Todo(s, [], 0) == [];
    assert forall k :: LeadsBy(None, [], [], k);
  }

  /** What a crash now would leave to be done, and where it leads. */
  lemma SpoolLeads(s: Spooled, k: Key)
    requires Draining(s) && !Exposed(s) && forall below :: !Waiting(s.core, below, k)
    ensures LeadsBy(Lookup(s.core.dest, k), s.core.log, Todo(s, s.spool, s.core.saved), k)
  {
    if s.trimmed {
      assert Beyond(s) == s.spool && OnBoth(s, Beyond(s), k);
    } else {
      assert Items(s) + Beyond(s) == s.spool && OnBoth(s, Items(s) + Beyond(s), k);
    }
  }

  lemma AppliedInTurn(dest: Table, log: seq<Entry>, spool: seq<nat>, c: nat, k: Key)
    requires c <= |log| && AllChanges(log, spool)
    requires LeadsBy(Lookup(dest, k), log, spool + Carriers(log, c, |log|), k)
    ensures Lookup(Apply(Apply(dest, ChangesOf(log, spool)), Slice(log, c, |log|)), k) == Lookup(SourceTable(log), k)
  {
    var rest := Carriers(log, c, |log|);
    CarriersCarryTheSlice(log, c, |log|);
    ChangesConcat(log, spool, rest);
    FoldConcat(Lookup(dest, k), ChangesOf(log, spool), ChangesOf(log, rest), k);
    ApplyIsPerKey(dest, ChangesOf(log, spool), k);
    ApplyIsPerKey(Apply(dest, ChangesOf(log, spool)), Slice(log, c, |log|), k);
    GoalIsTheSourceRow(log, k);
  }

  /** Unless a dead letter holds a change of the key: what the spool still holds, followed by the rest of
  the log from the saved cursor, leads the destination to the source's row. */
  predicate LedToTheSource(s: Spooled, k: Key) {
    Formed(s) &&
    (StreamTheorems.HasPendingLetter(s.core, k) || Exposed(s) ||
     Lookup(Apply(Apply(s.core.dest, ChangesOf(s.core.log, s.spool)), Slice(s.core.log, s.core.saved, |s.core.log|)), k)
       == Lookup(SourceTable(s.core.log), k))
  }

  lemma DrainingLeads(s: Spooled, k: Key)
    requires Draining(s)
    ensures LedToTheSource(s, k)
  {
    if !StreamTheorems.HasPendingLetter(s.core, k) && !Exposed(s) {
      assert forall below :: !Waiting(s.core, below, k);
      SpoolLeads(s, k);
      AppliedInTurn(s.core.dest, s.core.log, s.spool, s.core.saved, k);
    }
  }

  /** The spooled path converges like the direct one, after any careful run, with appends repeated by crashes
  any number of times. */
  lemma SpoolConverges(cfg: Config, run: seq<Step>, k: Key)
    requires cfg.keyed && SpoolRun(cfg, Begun(), run) && CarefulRun(cfg, Begun(), run)
    ensures LedToTheSource(End(cfg, Begun(), run), k)
  {
    BegunDraining();
    RunKeepsDraining(cfg, Begun(), run);
    DrainingLeads(End(cfg, Begun(), run), k);
  }

  /** Drained, and with the log all appended: the destination is what applying the log in order once gives. */
  lemma DrainedSpool(cfg: Config, run: seq<Step>)
    requires cfg.keyed && SpoolRun(cfg, Begun(), run) && CarefulRun(cfg, Begun(), run)
    ensures var s := End(cfg, Begun(), run);
            s.spool == [] && s.core.saved == |s.core.log| && !Exposed(s) && (forall l :: l in s.core.letters ==> !l.status.Pending?) ==>
              s.core.dest == SourceTable(s.core.log)
  {
    var s := End(cfg, Begun(), run);
    if s.spool == [] && s.core.saved == |s.core.log| && !Exposed(s) && (forall l :: l in s.core.letters ==> !l.status.Pending?) {
      assert Slice(s.core.log, |s.core.log|, |s.core.log|) == [];
      forall k ensures Lookup(s.core.dest, k) == Lookup(SourceTable(s.core.log), k) {
        SpoolConverges(cfg, run, k);
        assert ChangesOf(s.core.log, s.spool) == [];
      }
      SameRows(s.core.dest, SourceTable(s.core.log));
    }
  }
}
