/** Three runs that show the premises of the stream's theorems are needed: each is a concrete history the
code allows, and ends in a state the theorem excludes. */
module StreamFindings {
  import opened Changes
  import opened StreamProtocol
  import opened StreamConvergence
  import StreamQueue
  import StreamRuns

  const UPSERTS := Config(true, true, false, 10, 1000)
  const APPENDS := Config(true, false, false, 10, 1000)

  function A(v: Value): Change { Write(false, "a", map["v" := v]) }
  function B(v: Value): Change { Write(false, "b", map["v" := v]) }

  ghost predicate Reachable(cfg: Config, t: State) {
    StreamRuns.LeadsTo(cfg, Initial(), t)
  }

  lemma Go(cfg: Config, s: State, a: Action, t: State) returns (now: State)
    requires Reachable(cfg, s) && WellFormed(s) && Enabled(cfg, s, a) && Do(cfg, s, a) == t
    ensures now == t && Reachable(cfg, now)
  {
    now := StreamRuns.Go(cfg, Initial(), s, a, t);
  }

  lemma OneChange(t: Table, log: seq<Entry>, p: nat)
    requires IsChange(log, p)
    ensures Apply(t, ChangesOf(log, [p])) == ApplyOne(t, log[p].change)
  {
    assert ChangesOf(log, [p]) == [log[p].change];
    assert ChangesOf(log, [p])[1..] == [];
  }

  /** The log is written, and nothing of it read yet. */
  function Begun(log: seq<Entry>): State {
    Initial().(log := log)
  }

  lemma {:induction false} SourceFirst(cfg: Config, log: seq<Entry>)
    ensures Reachable(cfg, Begun(log))
    decreases |log|
  {
    if log == [] {
      StreamRuns.StartsAt(cfg, Initial());
    } else {
      var shorter := log[..|log| - 1];
      SourceFirst(cfg, shorter);
      assert shorter + [log[|log| - 1]] == log;
      var _ := Go(cfg, Begun(shorter), SourceWrites(log[|log| - 1]), Begun(log));
    }
  }

  /* ----- in-process replays ----- */

  predicate AAB(log: seq<Entry>) {
    log == [Carried(A(1)), Carried(A(2)), Carried(B(1))]
  }

  function FirstSent(log: seq<Entry>): State {
    Begun(log).(next := 1, inflight := Some(Batch([0], 1, Sending)))
  }

  /** The newer version is buffered, and the older one, handed over again, waits to join it. */
  function OldOneWaits(log: seq<Entry>): State {
    FirstSent(log).(buffer := [1], tail := Some(2), hand := Some(0))
  }

  function NewerSent(log: seq<Entry>): State {
    Begun(log).(next := 1, dest := map["a" := map["v" := 1]], landed := {0}, saved := 1, savedSeq := 1,
                watermark := 1, seqNo := 1, inflight := Some(Batch([1], 2, Sending)), buffer := [0], tail := Some(1))
  }

  function NewerLanded(log: seq<Entry>): State {
    Begun(log).(next := 1, dest := map["a" := map["v" := 2]], landed := {0, 1}, saved := 2, savedSeq := 2,
                watermark := 2, seqNo := 2, buffer := [0], tail := Some(1))
  }

  function OlderSent(log: seq<Entry>): State {
    NewerLanded(log).(next := 3, buffer := [], tail := None, inflight := Some(Batch([0, 2], 3, Sending)))
  }

  function OlderLanded(log: seq<Entry>): State {
    Begun(log).(next := 3, dest := map["a" := map["v" := 1], "b" := map["v" := 1]], landed := {0, 1, 2}, saved := 3,
                savedSeq := 3, watermark := 3, seqNo := 3)
  }

  /** `accept` checks a change against the watermark, then waits for a flush, and does not check again. A
  provider that reconnects while a batch is in flight hands over a change the buffer has a newer version
  of; the older version then lands after the newer one, and the cursor is saved beyond both. No crash, no
  failure, nothing parked: the destination keeps the older row until the row changes again. */
  lemma ReplayedChangeMayOverwriteANewerOne()
    ensures exists run :: IsRun(UPSERTS, Initial(), run) &&
              var s := After(UPSERTS, Initial(), run);
              && s.saved == |s.log| && s.letters == [] && !s.halted
              && Lookup(s.dest, "a") == Some(map["v" := 1])
              && Lookup(SourceTable(s.log), "a") == Some(map["v" := 2])
  {
    var log := [Carried(A(1)), Carried(A(2)), Carried(B(1))];
    SourceFirst(UPSERTS, log);
    OldOneReturns(log);
    OldOneRejoins(log);
    NewerLands(log);
    LastOneJoins(log);
    OlderLands(log);
    SourceHasTwo(log);
    var run :| IsRun(UPSERTS, Initial(), run) && After(UPSERTS, Initial(), run) == OlderLanded(log);
  }

  lemma SourceHasTwo(log: seq<Entry>)
    requires AAB(log)
    ensures Lookup(SourceTable(log), "a") == Some(map["v" := 2])
  {
    assert Slice(log, 3, 3) == [];
    assert Slice(log, 2, 3) == [B(1)];
    assert Slice(log, 1, 3) == [A(2), B(1)];
    assert Slice(log, 0, 3) == [A(1), A(2), B(1)];
    var t1 := ApplyOne(map[], A(1));
    var t2 := ApplyOne(t1, A(2));
    assert [A(1), A(2), B(1)][1..] == [A(2), B(1)];
    assert [A(2), B(1)][1..] == [B(1)];
    assert [B(1)][1..] == [];
    assert Apply(map[], [A(1), A(2), B(1)]) == Apply(t1, [A(2), B(1)]) == Apply(t2, [B(1)]) == ApplyOne(t2, B(1));
    assert map["v" := 1] + map["v" := 2] == map["v" := 2];
  }

  lemma OldOneReturns(log: seq<Entry>)
    requires AAB(log) && Reachable(UPSERTS, Begun(log))
    ensures Reachable(UPSERTS, OldOneWaits(log))
  {
    var s := Begun(log);
    s := Go(UPSERTS, s, Take, s.(next := 1, hand := Some(0)));
    s := Go(UPSERTS, s, Put, s.(hand := None, buffer := [0], tail := Some(1)));
    s := Go(UPSERTS, s, Flush, FirstSent(log));
    s := Go(UPSERTS, s, Take, s.(next := 2, hand := Some(1)));
    s := Go(UPSERTS, s, Put, s.(hand := None, buffer := [1], tail := Some(2)));
    s := Go(UPSERTS, s, Rewind(0), s.(next := 0));
    s := Go(UPSERTS, s, Take, OldOneWaits(log));
  }

  lemma OldOneRejoins(log: seq<Entry>)
    requires AAB(log) && Reachable(UPSERTS, OldOneWaits(log))
    ensures Reachable(UPSERTS, NewerSent(log))
  {
    var one: Table := map["a" := map["v" := 1]];
    OneChange(map[], log, 0);
    assert ApplyOne(map[], A(1)) == one;
    assert AsSet([0]) == {0};
    var s := OldOneWaits(log);
    s := Go(UPSERTS, s, Deliver, s.(dest := one, landed := {0}, inflight := Some(Batch([0], 1, Landed))));
    s := Go(UPSERTS, s, Checkpoint, s.(saved := 1, savedSeq := 1, watermark := 1, seqNo := 1, inflight := None));
    s := Go(UPSERTS, s, Flush, s.(buffer := [], tail := None, inflight := Some(Batch([1], 2, Sending))));
    s := Go(UPSERTS, s, Put, NewerSent(log));
  }

  lemma NewerLands(log: seq<Entry>)
    requires AAB(log) && Reachable(UPSERTS, NewerSent(log))
    ensures Reachable(UPSERTS, NewerLanded(log))
  {
    var s := NewerSent(log);
    var two: Table := map["a" := map["v" := 2]];
    OneChange(s.dest, log, 1);
    assert map["v" := 1] + map["v" := 2] == map["v" := 2];
    assert ApplyOne(s.dest, A(2)) == two;
    assert s.landed + AsSet([1]) == {0, 1};
    s := Go(UPSERTS, s, Deliver, s.(dest := two, landed := {0, 1}, inflight := Some(Batch([1], 2, Landed))));
    s := Go(UPSERTS, s, Checkpoint, NewerLanded(log));
  }

  lemma LastOneJoins(log: seq<Entry>)
    requires AAB(log) && Reachable(UPSERTS, NewerLanded(log))
    ensures Reachable(UPSERTS, OlderSent(log))
  {
    var s := NewerLanded(log);
    s := Go(UPSERTS, s, Take, s.(next := 2)); // dropped: it is not beyond the watermark
    s := Go(UPSERTS, s, Take, s.(next := 3, hand := Some(2)));
    s := Go(UPSERTS, s, Put, s.(hand := None, buffer := [0, 2], tail := Some(3)));
    s := Go(UPSERTS, s, Flush, OlderSent(log));
  }

  lemma OlderLands(log: seq<Entry>)
    requires AAB(log) && Reachable(UPSERTS, OlderSent(log))
    ensures Reachable(UPSERTS, OlderLanded(log))
  {
    var s := OlderSent(log);
    var end: Table := map["a" := map["v" := 1], "b" := map["v" := 1]];
    assert ChangesOf(log, [0, 2]) == [A(1), B(1)];
    assert [A(1), B(1)][1..] == [B(1)] && [B(1)][1..] == [];
    assert map["v" := 2] + map["v" := 1] == map["v" := 1];
    assert Apply(s.dest, [A(1), B(1)]) == Apply(ApplyOne(s.dest, A(1)), [B(1)]) == end;
    assert s.landed + AsSet([0, 2]) == {0, 1, 2};
    s := Go(UPSERTS, s, Deliver, s.(dest := end, landed := {0, 1, 2}, inflight := Some(Batch([0, 2], 3, Landed))));
    s := Go(UPSERTS, s, Checkpoint, OlderLanded(log));
  }

  /* ----- entries a crash left behind ----- */

  predicate AB(log: seq<Entry>) {
    log == [Carried(A(1)), Carried(B(1))]
  }

  /** What is left after parking both rows and crashing before the checkpoint. */
  function LeftBehind(log: seq<Entry>): State {
    Begun(log).(letters := [Letter(0, [0, 1], Pending)])
  }

  function FirstLanded(log: seq<Entry>): State {
    LeftBehind(log).(dest := map["a" := map["v" := 1]], landed := {0}, next := 1, saved := 1, savedSeq := 1,
                     watermark := 1, seqNo := 1)
  }

  function SecondSent(log: seq<Entry>): State {
    FirstLanded(log).(next := 2, inflight := Some(Batch([1], 2, Sending)))
  }

  function SecondParked(log: seq<Entry>): State {
    SecondSent(log).(failures := 1, letters := [Letter(0, [0, 1], Pending), Letter(1, [1], Pending)],
                     inflight := Some(Batch([1], 2, SetAside(2))))
  }

  /** A crash between parking and the checkpoint leaves entries at or above the saved sequence. If the batch
  is formed smaller after the restart and lands, the sequence moves past them, and parking the rest of the
  rows no longer replaces them: the row at position 1 then waits twice. */
  lemma ARowMayWaitTwice()
    ensures exists run :: IsRun(APPENDS, Initial(), run) &&
              StreamQueue.Held(After(APPENDS, Initial(), run).letters)[1] == 2
  {
    var log := [Carried(A(1)), Carried(B(1))];
    SourceFirst(APPENDS, log);
    BothRead(log);
    BothFail(log);
    BothParked(log);
    FirstLandsAlone(log);
    SecondRead(log);
    SecondFails(log);
    var letters := SecondParked(log).letters;
    assert StreamQueue.Held(letters[1..]) == multiset([1]) + StreamQueue.Held([]);
    var run :| IsRun(APPENDS, Initial(), run) && After(APPENDS, Initial(), run) == SecondParked(log);
  }

  function BothSent(log: seq<Entry>): State {
    Begun(log).(next := 2, inflight := Some(Batch([0, 1], 2, Sending)))
  }

  function BothFailed(log: seq<Entry>): State {
    Begun(log).(next := 2, inflight := Some(Batch([0, 1], 2, Failed({}))))
  }

  lemma BothRead(log: seq<Entry>)
    requires AB(log) && Reachable(APPENDS, Begun(log))
    ensures Reachable(APPENDS, BothSent(log))
  {
    var s := Begun(log);
    s := Go(APPENDS, s, Take, s.(next := 1, hand := Some(0)));
    s := Go(APPENDS, s, Put, s.(hand := None, buffer := [0], tail := Some(1)));
    s := Go(APPENDS, s, Take, s.(next := 2, hand := Some(1)));
    s := Go(APPENDS, s, Put, s.(hand := None, buffer := [0, 1], tail := Some(2)));
    s := Go(APPENDS, s, Flush, BothSent(log));
  }

  lemma BothFail(log: seq<Entry>)
    requires AB(log) && Reachable(APPENDS, BothSent(log))
    ensures Reachable(APPENDS, BothFailed(log))
  {
    var s := BothSent(log);
    assert ChangesOf(log, []) == [];
    s := Go(APPENDS, s, DeliverFails([]), BothFailed(log));
  }

  lemma BothParked(log: seq<Entry>)
    requires AB(log) && Reachable(APPENDS, BothFailed(log))
    ensures Reachable(APPENDS, LeftBehind(log))
  {
    var s := BothFailed(log);
    assert multiset([]) + multiset([0, 1]) == multiset([0, 1]);
    assert [0, 1][..2] == [0, 1] && [0, 1][2..] == [];
    assert Entries([0, 1], false, 0) == [Letter(0, [0, 1], Pending)] + Entries([], false, 0);
    s := Go(APPENDS, s, Handle([], [0, 1]),
            s.(failures := 1, letters := [Letter(0, [0, 1], Pending)], inflight := Some(Batch([0, 1], 2, SetAside(1)))));
    s := Go(APPENDS, s, Restart, LeftBehind(log));
  }

  lemma FirstLandsAlone(log: seq<Entry>)
    requires AB(log) && Reachable(APPENDS, LeftBehind(log))
    ensures Reachable(APPENDS, FirstLanded(log))
  {
    var s := LeftBehind(log);
    s := Go(APPENDS, s, Take, s.(next := 1, hand := Some(0)));
    s := Go(APPENDS, s, Put, s.(hand := None, buffer := [0], tail := Some(1)));
    s := Go(APPENDS, s, Flush, s.(buffer := [], tail := None, inflight := Some(Batch([0], 1, Sending))));
    var one: Table := map["a" := map["v" := 1]];
    OneChange(map[], log, 0);
    assert ApplyOne(map[], A(1)) == one;
    assert AsSet([0]) == {0};
    s := Go(APPENDS, s, Deliver, s.(dest := one, landed := {0}, inflight := Some(Batch([0], 1, Landed))));
    s := Go(APPENDS, s, Checkpoint, FirstLanded(log));
  }

  lemma SecondRead(log: seq<Entry>)
    requires AB(log) && Reachable(APPENDS, FirstLanded(log))
    ensures Reachable(APPENDS, SecondSent(log))
  {
    var s := FirstLanded(log);
    s := Go(APPENDS, s, Take, s.(next := 2, hand := Some(1)));
    s := Go(APPENDS, s, Put, s.(hand := None, buffer := [1], tail := Some(2)));
    s := Go(APPENDS, s, Flush, SecondSent(log));
  }

  lemma SecondFails(log: seq<Entry>)
    requires AB(log) && Reachable(APPENDS, SecondSent(log))
    ensures Reachable(APPENDS, SecondParked(log))
  {
    var s := SecondSent(log);
    var left := Letter(0, [0, 1], Pending);
    assert ChangesOf(log, []) == [];
    s := Go(APPENDS, s, DeliverFails([]), s.(inflight := Some(Batch([1], 2, Failed({})))));
    assert multiset([]) + multiset([1]) == multiset([1]);
    assert [1][..1] == [1] && [1][1..] == [];
    assert Entries([1], false, 1) == [Letter(1, [1], Pending)] + Entries([], false, 1);
    assert KeptBelow([left], 1) == [left] + KeptBelow([], 1) == [left];
    assert PendingRows([left]) == 2 + PendingRows([]);
    s := Go(APPENDS, s, Handle([], [1]), SecondParked(log));
  }

  /* ----- a letter replayed as it was recorded ----- */

  /** A change that is parked, a truncate or a first version of row "a", and a newer version of the row. */
  predicate ThenNewer(log: seq<Entry>, first: Change) {
    log == [Carried(first), Carried(A(2))] && (first == Empty || first == A(1))
  }

  function FirstOut(log: seq<Entry>): State {
    Begun(log).(next := 1, inflight := Some(Batch([0], 1, Sending)))
  }

  function FirstWaits(log: seq<Entry>): State {
    Begun(log).(letters := [Letter(0, [0], Pending)], next := 1, failures := 1, saved := 1, savedSeq := 1,
                watermark := 1, seqNo := 1)
  }

  function NewerOut(log: seq<Entry>): State {
    FirstWaits(log).(next := 2, inflight := Some(Batch([1], 2, Sending)))
  }

  function RowLanded(log: seq<Entry>): State {
    Begun(log).(letters := [Letter(0, [0], Pending)], next := 2, landed := {1}, dest := map["a" := map["v" := 2]],
                saved := 2, savedSeq := 2, watermark := 2, seqNo := 2)
  }

  function Replayed(log: seq<Entry>, first: Change): State {
    RowLanded(log).(letters := [Letter(0, [0], Resolved)], dest := ApplyOne(RowLanded(log).dest, first))
  }

  /** A parked truncate carries no key to re-read anything by, so a retry replays it as recorded, and empties
  the destination of every row delivered since. */
  lemma RetriedTruncateWipesNewerRows()
    ensures exists run :: IsRun(UPSERTS, Initial(), run) &&
              var s := After(UPSERTS, Initial(), run);
              && s.saved == |s.log| && (forall l :: l in s.letters ==> l.status.Resolved?)
              && Lookup(s.dest, "a") == None
              && Lookup(SourceTable(s.log), "a") == Some(map["v" := 2])
  {
    var log := [Carried(Empty), Carried(A(2))];
    ReplayedAfterNewer(log, Empty);
    var run :| IsRun(UPSERTS, Initial(), run) && After(UPSERTS, Initial(), run) == Replayed(log, Empty);
  }

  /** A parked row of a keyed table is replayed as recorded too, when the retry does not find the source's key: the
  version it was parked with is then put over the newer one that has been delivered since. */
  lemma RetryWithoutTheKeyOverwritesANewerRow()
    ensures exists run :: IsRun(UPSERTS, Initial(), run) &&
              var s := After(UPSERTS, Initial(), run);
              && s.saved == |s.log| && (forall l :: l in s.letters ==> l.status.Resolved?)
              && Lookup(s.dest, "a") == Some(map["v" := 1])
              && Lookup(SourceTable(s.log), "a") == Some(map["v" := 2])
  {
    var log := [Carried(A(1)), Carried(A(2))];
    ReplayedAfterNewer(log, A(1));
    assert map["v" := 2] + map["v" := 1] == map["v" := 1];
    var run :| IsRun(UPSERTS, Initial(), run) && After(UPSERTS, Initial(), run) == Replayed(log, A(1));
  }

  lemma ReplayedAfterNewer(log: seq<Entry>, first: Change)
    requires ThenNewer(log, first)
    ensures Reachable(UPSERTS, Replayed(log, first))
    ensures Lookup(SourceTable(log), "a") == Some(map["v" := 2])
  {
    SourceFirst(UPSERTS, log);
    FirstRead(log, first);
    FirstFails(log, first);
    NewerRead(log, first);
    RowLands(log, first);
    ReplayedOnTop(log, first);
    assert Slice(log, 2, 2) == [];
    assert Slice(log, 1, 2) == [A(2)];
    assert Slice(log, 0, 2) == [first, A(2)];
    assert [first, A(2)][1..] == [A(2)] && [A(2)][1..] == [];
    assert Apply(map[], [first, A(2)]) == Apply(ApplyOne(map[], first), [A(2)]) == ApplyOne(ApplyOne(map[], first), A(2));
    assert map["v" := 1] + map["v" := 2] == map["v" := 2];
  }

  lemma FirstRead(log: seq<Entry>, first: Change)
    requires ThenNewer(log, first) && Reachable(UPSERTS, Begun(log))
    ensures Reachable(UPSERTS, FirstOut(log))
  {
    var s := Begun(log);
    s := Go(UPSERTS, s, Take, s.(next := 1, hand := Some(0)));
    s := Go(UPSERTS, s, Put, s.(hand := None, buffer := [0], tail := Some(1)));
    s := Go(UPSERTS, s, Flush, FirstOut(log));
  }

  lemma FirstFails(log: seq<Entry>, first: Change)
    requires ThenNewer(log, first) && Reachable(UPSERTS, FirstOut(log))
    ensures Reachable(UPSERTS, FirstWaits(log))
  {
    var s := FirstOut(log);
    assert ChangesOf(log, []) == [];
    s := Go(UPSERTS, s, DeliverFails([]), s.(inflight := Some(Batch([0], 1, Failed({})))));
    assert multiset([]) + multiset([0]) == multiset([0]);
    assert [0][..1] == [0] && [0][1..] == [];
    assert Entries([0], false, 0) == [Letter(0, [0], Pending)] + Entries([], false, 0);
    s := Go(UPSERTS, s, Handle([], [0]),
            s.(failures := 1, letters := [Letter(0, [0], Pending)], inflight := Some(Batch([0], 1, SetAside(1)))));
    s := Go(UPSERTS, s, Checkpoint, FirstWaits(log));
  }

  lemma NewerRead(log: seq<Entry>, first: Change)
    requires ThenNewer(log, first) && Reachable(UPSERTS, FirstWaits(log))
    ensures Reachable(UPSERTS, NewerOut(log))
  {
    var s := FirstWaits(log);
    s := Go(UPSERTS, s, Take, s.(next := 2, hand := Some(1)));
    s := Go(UPSERTS, s, Put, s.(hand := None, buffer := [1], tail := Some(2)));
    s := Go(UPSERTS, s, Flush, NewerOut(log));
  }

  lemma RowLands(log: seq<Entry>, first: Change)
    requires ThenNewer(log, first) && Reachable(UPSERTS, NewerOut(log))
    ensures Reachable(UPSERTS, RowLanded(log))
  {
    var s := NewerOut(log);
    var two: Table := map["a" := map["v" := 2]];
    OneChange(map[], log, 1);
    assert ApplyOne(map[], A(2)) == two;
    assert AsSet([1]) == {1};
    s := Go(UPSERTS, s, Deliver, s.(dest := two, landed := {1}, inflight := Some(Batch([1], 2, Landed))));
    s := Go(UPSERTS, s, Checkpoint, RowLanded(log));
  }

  lemma ReplayedOnTop(log: seq<Entry>, first: Change)
    requires ThenNewer(log, first) && Reachable(UPSERTS, RowLanded(log))
    ensures Reachable(UPSERTS, Replayed(log, first))
  {
    var s := RowLanded(log);
    OneChange(s.dest, log, 0);
    assert s.letters[0] in s.letters;
    s := Go(UPSERTS, s, Retry(0, true), Replayed(log, first));
  }
}
