/** The dead-letter queue: parking rows, and the retry that converges each target on the source's current
rows instead of replaying what was recorded. The read of the source and the writes that follow are one step
relative to the stream. */
module DeadLetters {
  import opened Changes
  import opened FanOut
  import StreamProtocol
  import StreamTheorems

  /** A row as it was parked; its key is missing where the recording does not carry one. */
  datatype Recorded = Recorded(key: Option<Key>, cells: Row)

  datatype Entry = Entry(job: string, sequence: nat, op: Option<Op>, rows: seq<Recorded>, succeeded: seq<string>,
                         status: StreamProtocol.Status)

  datatype Verdict = Done | StillFailing | NeedsForce

  datatype Work = Upsert(rows: seq<Recorded>) | Deletion(rows: seq<Recorded>) | AsRecorded(rows: seq<Recorded>)

  const REFRESH_CHUNK: nat := 500

  /* ----- parking ----- */

  predicate Replaced(e: Entry, job: string, from: nat) {
    e.job == job && e.status.Pending? && e.sequence >= from
  }

  function Kept(entries: seq<Entry>, job: string, from: nat): seq<Entry> {
    if entries == [] then []
    else (if Replaced(entries[0], job, from) then [] else [entries[0]]) + Kept(entries[1..], job, from)
  }

  lemma {:induction false} KeptConcat(a: seq<Entry>, b: seq<Entry>, job: string, from: nat)
    ensures Kept(a + b, job, from) == Kept(a, job, from) + Kept(b, job, from)
    decreases |a|
  {
    if a == [] {
      assert a + b == b;
    } else {
      assert (a + b)[1..] == a[1..] + b;
      KeptConcat(a[1..], b, job, from);
    }
  }

  lemma {:induction false} KeptTwice(entries: seq<Entry>, job: string, from: nat)
    ensures Kept(Kept(entries, job, from), job, from) == Kept(entries, job, from)
    decreases |entries|
  {
    if entries != [] && !Replaced(entries[0], job, from) {
      assert Kept(entries, job, from)[1..] == Kept(entries[1..], job, from);
      KeptTwice(entries[1..], job, from);
    } else if entries != [] {
      assert Kept(entries, job, from) == Kept(entries[1..], job, from);
      KeptTwice(entries[1..], job, from);
    }
  }

  lemma {:induction false} NoneKept(entries: seq<Entry>, job: string, from: nat)
    requires forall e :: e in entries ==> Replaced(e, job, from)
    ensures Kept(entries, job, from) == []
    decreases |entries|
  {
    if entries != [] {
      assert entries[0] in entries;
      NoneKept(entries[1..], job, from);
    }
  }

  function Parked(entries: seq<Entry>, added: seq<Entry>, from: nat): seq<Entry> {
    if added == [] then entries else Kept(entries, added[0].job, from) + added
  }

  /** A batch may be parked again after a crash: the second time leaves the queue as the first did. */
  lemma ParkingTwiceIsParkingOnce(entries: seq<Entry>, added: seq<Entry>, from: nat)
    requires forall e :: e in added ==> Replaced(e, added[0].job, from)
    ensures Parked(Parked(entries, added, from), added, from) == Parked(entries, added, from)
  {
    if added != [] {
      var job := added[0].job;
      KeptConcat(Kept(entries, job, from), added, job, from);
      KeptTwice(entries, job, from);
      NoneKept(added, job, from);
      assert Kept(Kept(entries, job, from) + added, job, from) == Kept(entries, job, from);
    }
  }

  /** Parking removes nothing but the job's own pending entries at or above the sequence it is about to use. */
  lemma {:induction false} KeptIsTheRest(entries: seq<Entry>, job: string, from: nat)
    ensures forall e :: e in Kept(entries, job, from) <==> e in entries && !Replaced(e, job, from)
    decreases |entries|
  {
    if entries != [] {
      KeptIsTheRest(entries[1..], job, from);
      assert entries == [entries[0]] + entries[1..];
    }
  }

  /* ----- reading the source back ----- */

  predicate Keyed(rows: seq<Recorded>) {
    forall r :: r in rows ==> r.key.Some?
  }

  function KeysOf(rows: seq<Recorded>): seq<Key>
    requires Keyed(rows)
  {
    seq(|rows|, i requires 0 <= i < |rows| => assert rows[i] in rows; rows[i].key.value)
  }

  /** One page of source rows: at most as many as keys asked for, none twice, all there are unless cut off. */
  predicate IsPage(source: Table, values: seq<Key>, page: seq<(Key, Row)>) {
    && (forall p :: p in page ==> p.0 in values && p.0 in source && p.1 == source[p.0])
    && (forall i, j :: 0 <= i < j < |page| ==> page[i].0 != page[j].0)
    && |page| <= |values|
    && (|page| < |values| ==> forall k :: k in values && k in source ==> (k, source[k]) in page)
  }

  function KeySet(keys: seq<Key>): set<Key> {
    set k | k in keys
  }

  lemma {:induction false} AtMostAsMany(keys: seq<Key>)
    ensures |KeySet(keys)| <= |keys|
    decreases |keys|
  {
    if keys != [] {
      AtMostAsMany(keys[1..]);
      assert KeySet(keys) == {keys[0]} + KeySet(keys[1..]);
    } else {
      assert KeySet(keys) == {};
    }
  }

  lemma {:induction false} AsManyAsDistinct(keys: seq<Key>)
    requires forall i, j :: 0 <= i < j < |keys| ==> keys[i] != keys[j]
    ensures |KeySet(keys)| == |keys|
    decreases |keys|
  {
    if keys != [] {
      AsManyAsDistinct(keys[1..]);
      assert KeySet(keys) == {keys[0]} + KeySet(keys[1..]);
      assert keys[0] !in KeySet(keys[1..]);
    } else {
      assert KeySet(keys) == {};
    }
  }

  lemma SameSizeSubset(a: set<Key>, b: set<Key>)
    requires a <= b && |b| <= |a|
    ensures a == b
  {
    assert b == a + (b - a);
    assert |b| == |a| + |b - a|;
  }

  /** A page is never cut off: there are no more rows than keys, so every row asked for is on it. */
  lemma PageIsComplete(source: Table, values: seq<Key>, page: seq<(Key, Row)>)
    requires IsPage(source, values, page)
    ensures forall k :: k in values && k in source ==> (k, source[k]) in page
  {
    if |page| == |values| {
      var found := seq(|page|, i requires 0 <= i < |page| => page[i].0);
      AsManyAsDistinct(found);
      AtMostAsMany(values);
      forall k | k in KeySet(found) ensures k in KeySet(values) {
        var i :| 0 <= i < |found| && found[i] == k;
        assert page[i] in page;
      }
      SameSizeSubset(KeySet(found), KeySet(values));
      forall k | k in values && k in source ensures (k, source[k]) in page {
        assert k in KeySet(found);
        var i :| 0 <= i < |found| && found[i] == k;
        assert page[i] in page;
      }
    }
  }

  /** What is read back of `keys`. */
  function Current(source: Table, keys: seq<Key>): Table {
    map k | k in keys && k in source :: source[k]
  }

  /** The chunks' answers, joined; for a composite key a chunk is a single row. */
  method ReadSourceRows(ghost source: Table, keys: seq<Key>, composite: bool, browse: seq<Key> -> seq<(Key, Row)>)
    returns (found: Table)
    requires forall values :: IsPage(source, values, browse(values))
    ensures found == Current(source, keys)
  {
    var chunk := if composite then 1 else REFRESH_CHUNK;
    found := map[];
    var i := 0;
    while i < |keys|
      invariant 0 <= i <= |keys| && found == Current(source, keys[..i])
    {
      var end := if i + chunk < |keys| then i + chunk else |keys|;
      var page := browse(keys[i..end]);
      PageIsComplete(source, keys[i..end], page);
      found := found + (map p | p in page :: p.0 := p.1);
      assert keys[..end] == keys[..i] + keys[i..end];
      assert found == Current(source, keys[..end]);
      i := end;
    }
    assert keys[..i] == keys;
  }

  /* ----- sorting the recorded rows ----- */

  /** The source's rows for the first `n` recorded ones, where they are still in the bridge's scope. */
  function Present(rows: seq<Recorded>, current: Table, inScope: Row -> bool, n: nat): seq<Recorded>
    requires Keyed(rows) && n <= |rows|
  {
    if n == 0 then []
    else
      var k := (assert rows[n - 1] in rows; rows[n - 1].key.value);
      Present(rows, current, inScope, n - 1)
      + if k in current && inScope(current[k]) then [Recorded(Some(k), current[k])] else []
  }

  /** The first `n` recorded rows that are gone at the source. */
  function Absent(rows: seq<Recorded>, current: Table, n: nat): seq<Recorded>
    requires Keyed(rows) && n <= |rows|
  {
    if n == 0 then []
    else
      var k := (assert rows[n - 1] in rows; rows[n - 1].key.value);
      Absent(rows, current, n - 1) + if k in current then [] else [rows[n - 1]]
  }

  function Pick(targets: seq<Target>, done: seq<string>, mode: WriteMode): seq<Target> {
    if targets == [] then []
    else (if TargetKey(targets[0]) !in done && targets[0].writeMode == mode then [targets[0]] else [])
         + Pick(targets[1..], done, mode)
  }

  function KeysOfTargets(targets: seq<Target>): seq<string> {
    seq(|targets|, i requires 0 <= i < |targets| => TargetKey(targets[i]))
  }

  /** One step of a refresh: nothing to do, refused before anything is sent, or sent. */
  function StepCommits(targets: seq<Target>, work: Work, op: Option<Op>, try: Try): seq<Commit<Work>> {
    if targets == [] || work.rows == [] || try.Refused? then []
    else Committed(targets, work, op, {}, try.goes, |targets|)
  }

  predicate StepFine(targets: seq<Target>, work: Work, op: Option<Op>, try: Try) {
    targets == [] || work.rows == [] ||
    (try.Sent? && forall i :: 0 <= i < |targets| ==> Fine(targets, op, {}, try.goes, i))
  }

  function StepKeys(targets: seq<Target>, work: Work, op: Option<Op>, try: Try): seq<string> {
    if StepFine(targets, work, op, try) then KeysOfTargets(targets)
    else if try.Refused? then []
    else FineKeys(targets, op, {}, try.goes, |targets|)
  }

  datatype Tries = Tries(upsert: Try, removal: Try, append: Try)

  /** The three steps of a refresh: what is still there is written as it is now, what is gone is removed (or,
  forced, written as recorded), and append-only targets get the event itself. */
  datatype Plan = Plan(keyed: seq<Target>, appendOnly: seq<Target>, present: Work, gone: Work, goneOp: Option<Op>,
                       event: Work, op: Option<Op>)
  {
    function Commits(tries: Tries): seq<Commit<Work>> {
      StepCommits(keyed, present, None, tries.upsert) + StepCommits(keyed, gone, goneOp, tries.removal)
      + StepCommits(appendOnly, event, op, tries.append)
    }

    predicate Fine(tries: Tries) {
      && StepFine(keyed, present, None, tries.upsert) && StepFine(keyed, gone, goneOp, tries.removal)
      && StepFine(appendOnly, event, op, tries.append)
    }

    /** Which targets the entry need not be retried for: a keyed one both of whose steps worked, or one that took the event. */
    predicate Reached(tries: Tries, key: string) {
      || (key in KeysOfTargets(keyed) && key in StepKeys(keyed, present, None, tries.upsert)
          && key in StepKeys(keyed, gone, goneOp, tries.removal))
      || key in StepKeys(appendOnly, event, op, tries.append)
    }
  }

  function PlanOf(e: Entry, targets: seq<Target>, current: Table, inScope: Row -> bool, propagatesDeletes: bool): Plan
    requires Keyed(e.rows)
  {
    var absent := Absent(e.rows, current, |e.rows|);
    Plan(Pick(targets, e.succeeded, Upserts), Pick(targets, e.succeeded, Inserts),
         Upsert(Present(e.rows, current, inScope, |e.rows|)),
         if propagatesDeletes then Deletion(absent) else Upsert(absent),
         if propagatesDeletes then Some(Delete) else None,
         AsRecorded(e.rows), e.op)
  }

  /** The one case a retry cannot settle by itself. */
  predicate Undecided(plan: Plan, propagatesDeletes: bool, force: bool) {
    plan.keyed != [] && plan.gone.rows != [] && !propagatesDeletes && !force
  }

  method WithoutLeftovers(entries: seq<Entry>, job: string, from: nat) returns (kept: seq<Entry>)
    ensures kept == Kept(entries, job, from)
  {
    kept := [];
    var i := 0;
    while i < |entries|
      invariant 0 <= i <= |entries|
      invariant kept + Kept(entries[i..], job, from) == Kept(entries, job, from)
    {
      assert entries[i..][1..] == entries[i + 1..];
      if !Replaced(entries[i], job, from) {
        kept := kept + [entries[i]];
      }
      i := i + 1;
    }
  }

  lemma Associates<T>(a: seq<T>, b: seq<T>, c: seq<T>, d: seq<T>)
    ensures a + b + c + d == a + (b + c + d)
  {
  }

  class DeadLetterQueue {
    var entries: seq<Entry>
    const sink: DatabaseSink<Work>

    constructor (sink: DatabaseSink<Work>)
      ensures entries == [] && this.sink == sink
    {
      entries := [];
      this.sink := sink;
    }

    /** One transaction: the leftovers go and the new entries come, or neither. */
    method Park(added: seq<Entry>, replaceFrom: Option<nat>)
      modifies this`entries
      ensures entries == if replaceFrom.Some? then Parked(old(entries), added, replaceFrom.value) else old(entries) + added
    {
      if added == [] {
        return;
      }
      var kept := entries;
      if replaceFrom.Some? {
        kept := WithoutLeftovers(entries, added[0].job, replaceFrom.value);
      }
      entries := kept + added;
    }

    method Step(targets: seq<Target>, work: Work, op: Option<Op>, try: Try) returns (keys: seq<string>, fine: bool)
      modifies sink
      ensures sink.commits == old(sink.commits) + StepCommits(targets, work, op, try)
      ensures fine == StepFine(targets, work, op, try) && keys == StepKeys(targets, work, op, try)
    {
      keys := KeysOfTargets(targets);
      fine := true;
      if targets == [] || work.rows == [] {
        return;
      }
      if try.Refused? {
        return [], false;
      }
      var outcome := sink.Deliver(targets, work, op, {}, try.goes);
      fine := outcome.ok;
      if !fine {
        keys := outcome.succeeded.value;
      }
    }

    /** One retry of entry `i` by reading its rows again, for the targets not in its checkpoint. */
    method Refresh(i: nat, targets: seq<Target>, ghost source: Table, browse: seq<Key> -> seq<(Key, Row)>,
                   composite: bool, inScope: Row -> bool, propagatesDeletes: bool, force: bool, tries: Tries)
      returns (verdict: Verdict)
      requires i < |entries| && Keyed(entries[i].rows)
      requires forall values :: IsPage(source, values, browse(values))
      modifies this`entries, sink
      ensures var e := old(entries[i]);
              var plan := PlanOf(e, targets, Current(source, KeysOf(e.rows)), inScope, propagatesDeletes);
              if Undecided(plan, propagatesDeletes, force) then
                verdict == NeedsForce && entries == old(entries) && sink.commits == old(sink.commits)
              else
                && sink.commits == old(sink.commits) + plan.Commits(tries)
                && (verdict == Done <==> plan.Fine(tries)) && verdict != NeedsForce
                && |entries| == |old(entries)| && entries == old(entries)[i := entries[i]]
                && (verdict == Done ==> entries[i] == e.(status := StreamProtocol.Resolved))
                && (verdict == StillFailing ==>
                      && entries[i] == e.(succeeded := entries[i].succeeded)
                      && forall key :: key in entries[i].succeeded <==> key in e.succeeded || plan.Reached(tries, key))
    {
      var e := entries[i];
      var keyed, appendOnly := Pick(targets, e.succeeded, Upserts), Pick(targets, e.succeeded, Inserts);
      var current := ReadSourceRows(source, KeysOf(e.rows), composite, browse);
      var present, absent := Sorted(e.rows, current, inScope);
      if keyed != [] && absent != [] && !propagatesDeletes && !force {
        return NeedsForce;
      }
      // gone: removed where deletes are propagated, else (forced) written as recorded
      var plan := Plan(keyed, appendOnly, Upsert(present), if propagatesDeletes then Deletion(absent) else Upsert(absent),
                       if propagatesDeletes then Some(Delete) else None, AsRecorded(e.rows), e.op);
      var fine, succeeded := CarryOut(plan, tries, e.succeeded);
      if fine {
        entries := entries[i := e.(status := StreamProtocol.Resolved)];
        return Done;
      }
      entries := entries[i := e.(succeeded := succeeded)];
      verdict := StillFailing;
    }

    method CarryOut(plan: Plan, tries: Tries, done: seq<string>) returns (fine: bool, succeeded: seq<string>)
      modifies sink
      ensures sink.commits == old(sink.commits) + plan.Commits(tries)
      ensures fine == plan.Fine(tries)
      ensures forall key :: key in succeeded <==> key in done || plan.Reached(tries, key)
    {
      var upserted, fine1 := Step(plan.keyed, plan.present, None, tries.upsert);
      var removed, fine2 := Step(plan.keyed, plan.gone, plan.goneOp, tries.removal);
      var appended, fine3 := Step(plan.appendOnly, plan.event, plan.op, tries.append);
      fine := fine1 && fine2 && fine3;
      Associates(old(sink.commits), StepCommits(plan.keyed, plan.present, None, tries.upsert),
                 StepCommits(plan.keyed, plan.gone, plan.goneOp, tries.removal),
                 StepCommits(plan.appendOnly, plan.event, plan.op, tries.append));
      succeeded := Checkpoint(done, plan.keyed, upserted, removed, appended);
    }

    method Sorted(rows: seq<Recorded>, current: Table, inScope: Row -> bool)
      returns (present: seq<Recorded>, absent: seq<Recorded>)
      requires Keyed(rows)
      ensures present == Present(rows, current, inScope, |rows|) && absent == Absent(rows, current, |rows|)
    {
      present, absent := [], [];
      var n := 0;
      while n < |rows|
        invariant 0 <= n <= |rows|
        invariant present == Present(rows, current, inScope, n) && absent == Absent(rows, current, n)
      {
        assert rows[n] in rows;
        var k := rows[n].key.value;
        if k !in current {
          absent := absent + [rows[n]];
        } else if inScope(current[k]) {
          present := present + [Recorded(Some(k), current[k])];
        } // else filtered out: in neither list
        n := n + 1;
      }
    }

    method Checkpoint(done: seq<string>, keyed: seq<Target>, upserted: seq<string>, removed: seq<string>, appended: seq<string>)
      returns (succeeded: seq<string>)
      ensures forall key :: key in succeeded <==>
                key in done || (key in KeysOfTargets(keyed) && key in upserted && key in removed) || key in appended
    {
      succeeded := done;
      var n := 0;
      while n < |keyed|
        invariant 0 <= n <= |keyed|
        invariant forall key :: key in succeeded <==>
                    key in done || (key in KeysOfTargets(keyed)[..n] && key in upserted && key in removed)
      {
        var key := TargetKey(keyed[n]);
        assert KeysOfTargets(keyed)[..n + 1] == KeysOfTargets(keyed)[..n] + [key];
        if key in upserted && key in removed {
          succeeded := succeeded + [key];
        }
        n := n + 1;
      }
      assert KeysOfTargets(keyed)[..n] == KeysOfTargets(keyed);
      succeeded := succeeded + appended;
    }
  }

  /* ----- what the commits make of a target's table ----- */

  function PutRow(t: Table, r: Recorded): Table {
    if r.key.None? then t else t[r.key.value := Overlay(Lookup(t, r.key.value), r.cells)]
  }

  function Upserted(t: Table, rows: seq<Recorded>): Table
    decreases |rows|
  {
    if rows == [] then t else PutRow(Upserted(t, rows[..|rows| - 1]), rows[|rows| - 1])
  }

  function Deleted(t: Table, rows: seq<Recorded>): Table
    decreases |rows|
  {
    if rows == [] then t
    else
      var before, key := Deleted(t, rows[..|rows| - 1]), rows[|rows| - 1].key;
      if key.None? then before else before - {key.value}
  }

  function Carried(t: Table, w: Work): Table {
    match w
    case Upsert(rows) => Upserted(t, rows)
    case Deletion(rows) => Deleted(t, rows)
    case AsRecorded(_) => t // events of an append-only target: no keyed rows
  }

  function AllCarried(t: Table, works: seq<Work>): Table
    decreases |works|
  {
    if works == [] then t else AllCarried(Carried(t, works[0]), works[1..])
  }

  /** The target's table after the commits that are its own. */
  function Landed(t: Table, commits: seq<Commit<Work>>, key: string): Table {
    AllCarried(t, Received(commits, key))
  }

  lemma {:induction false} CarriedConcat(t: Table, a: seq<Work>, b: seq<Work>)
    ensures AllCarried(t, a + b) == AllCarried(AllCarried(t, a), b)
    decreases |a|
  {
    if a == [] {
      assert a + b == b;
    } else {
      assert (a + b)[1..] == a[1..] + b;
      CarriedConcat(Carried(t, a[0]), a[1..], b);
    }
  }

  lemma LandedConcat(t: Table, a: seq<Commit<Work>>, b: seq<Commit<Work>>, key: string)
    ensures Landed(t, a + b, key) == Landed(Landed(t, a, key), b, key)
  {
    ReceivedConcat(a, b, key);
    CarriedConcat(t, Received(a, key), Received(b, key));
  }

  /** A step that went through for a target has carried its work out there. */
  lemma StepLands(t: Table, targets: seq<Target>, work: Work, op: Option<Op>, try: Try, i: nat)
    requires DistinctKeys(targets) && i < |targets| && !NotApplied(targets[i], op)
    requires TargetKey(targets[i]) in StepKeys(targets, work, op, try)
    ensures Landed(t, StepCommits(targets, work, op, try), TargetKey(targets[i])) == Carried(t, work)
  {
    if work.rows != [] && try.Sent? {
      DistinctIsAlone(targets, i);
      WentThrough(targets, work, op, try, i);
      ReceivedOnce(targets, work, op, {}, try.goes, i, |targets|);
      OneCarried(t, work);
    }
  }

  lemma WentThrough(targets: seq<Target>, work: Work, op: Option<Op>, try: Try, i: nat)
    requires i < |targets| && Alone(targets, i) && !NotApplied(targets[i], op) && work.rows != [] && try.Sent?
    requires TargetKey(targets[i]) in StepKeys(targets, work, op, try)
    ensures Attempted(targets[i], op, {}) && try.goes(i)
  {
    FineKeysHold(targets, op, {}, try.goes, |targets|, i);
    assert Fine(targets, op, {}, try.goes, i);
  }

  lemma OneCarried(t: Table, work: Work)
    ensures AllCarried(t, [work]) == Carried(t, work)
  {
    assert [work][1..] == [];
    assert AllCarried(t, [work]) == AllCarried(Carried(t, work), []);
  }

  lemma {:induction false} PickHolds(targets: seq<Target>, done: seq<string>, mode: WriteMode)
    ensures forall t :: t in Pick(targets, done, mode) <==> t in targets && TargetKey(t) !in done && t.writeMode == mode
    decreases |targets|
  {
    if targets != [] {
      PickHolds(targets[1..], done, mode);
      assert targets == [targets[0]] + targets[1..];
    }
  }

  lemma {:induction false} PickDistinct(targets: seq<Target>, done: seq<string>, mode: WriteMode)
    requires DistinctKeys(targets)
    ensures DistinctKeys(Pick(targets, done, mode))
    decreases |targets|
  {
    if targets != [] {
      var rest := targets[1..];
      assert DistinctKeys(rest) by {
        assert forall i :: 0 <= i < |rest| ==> rest[i] == targets[i + 1];
      }
      PickDistinct(rest, done, mode);
      PickHolds(rest, done, mode);
      forall t | t in Pick(rest, done, mode) ensures TargetKey(t) != TargetKey(targets[0]) {
        var j :| 0 <= j < |rest| && rest[j] == t;
        assert targets[j + 1] == t;
      }
    }
  }

  /** The targets with another write mode have other keys. */
  lemma OtherModeOtherKey(targets: seq<Target>, done: seq<string>, t: Target, i: nat)
    requires DistinctKeys(targets) && t in targets && t.writeMode == Upserts && i < |Pick(targets, done, Inserts)|
    ensures TargetKey(Pick(targets, done, Inserts)[i]) != TargetKey(t)
  {
    PickHolds(targets, done, Inserts);
    var u := Pick(targets, done, Inserts)[i];
    assert u in Pick(targets, done, Inserts);
    var j :| 0 <= j < |targets| && targets[j] == t;
    var n :| 0 <= n < |targets| && targets[n] == u;
    assert j != n;
  }

  /* ----- and of its rows ----- */

  predicate Among(rows: seq<Recorded>, n: nat, k: Key)
    requires n <= |rows|
  {
    exists i :: 0 <= i < n && rows[i].key == Some(k)
  }

  lemma {:induction false} PresentLands(t: Table, rows: seq<Recorded>, current: Table, inScope: Row -> bool, n: nat, k: Key)
    requires Keyed(rows) && n <= |rows|
    ensures Lookup(Upserted(t, Present(rows, current, inScope, n)), k) ==
            if Among(rows, n, k) && k in current && inScope(current[k]) then Some(Overlay(Lookup(t, k), current[k]))
            else Lookup(t, k)
    decreases n
  {
    if n > 0 {
      PresentLands(t, rows, current, inScope, n - 1, k);
      assert rows[n - 1] in rows;
      var key, before := rows[n - 1].key.value, Present(rows, current, inScope, n - 1);
      assert Among(rows, n, k) <==> Among(rows, n - 1, k) || key == k;
      if key in current && inScope(current[key]) {
        var added := Recorded(Some(key), current[key]);
        assert (before + [added])[..|before|] == before;
        assert Present(rows, current, inScope, n) == before + [added];
        if key == k {
          OverlayTwice(Lookup(t, k), current[k]);
        }
      } else {
        assert Present(rows, current, inScope, n) == before;
      }
    }
  }

  lemma OverlayTwice(row: Option<Row>, cells: Row)
    ensures Overlay(Some(Overlay(row, cells)), cells) == Overlay(row, cells)
  {
    assert cells + cells == cells;
    assert row.Some? ==> (row.value + cells) + cells == row.value + cells;
  }

  lemma {:induction false} AbsentGoes(t: Table, rows: seq<Recorded>, current: Table, n: nat, k: Key)
    requires Keyed(rows) && n <= |rows|
    ensures Lookup(Deleted(t, Absent(rows, current, n)), k) ==
            if Among(rows, n, k) && k !in current then None else Lookup(t, k)
    decreases n
  {
    if n > 0 {
      AbsentGoes(t, rows, current, n - 1, k);
      assert rows[n - 1] in rows;
      var key, before := rows[n - 1].key.value, Absent(rows, current, n - 1);
      assert Among(rows, n, k) <==> Among(rows, n - 1, k) || key == k;
      if key !in current {
        assert (before + [rows[n - 1]])[..|before|] == before;
        assert Absent(rows, current, n) == before + [rows[n - 1]];
      } else {
        assert Absent(rows, current, n) == before;
      }
    }
  }

  lemma AmongKeys(rows: seq<Recorded>, k: Key)
    requires Keyed(rows)
    ensures Among(rows, |rows|, k) <==> k in KeysOf(rows)
  {
    if i :| 0 <= i < |rows| && rows[i].key == Some(k) {
      assert KeysOf(rows)[i] == k;
    }
    if i :| 0 <= i < |KeysOf(rows)| && KeysOf(rows)[i] == k {
      assert rows[i].key == Some(k);
    }
  }

  /** The row a refresh leaves under `k`, from the row that was there. */
  function Refreshed(row: Option<Row>, source: Table, keys: seq<Key>, inScope: Row -> bool, k: Key): Option<Row> {
    if k !in keys then row
    else if k !in source then None
    else if inScope(source[k]) then Some(Overlay(row, source[k]))
    else row
  }

  /** A retry converges. On a bridge that propagates deletes, every keyed target a refresh reports as done,
  when the entry is resolved or when only some targets made it, holds the source's current row under each of
  the entry's keys, or none where the source has none; a row outside the bridge's scope is left alone, and
  so is every other row. */
  lemma RefreshConverges(e: Entry, targets: seq<Target>, target: Target, source: Table, inScope: Row -> bool, tries: Tries,
                         t: Table, k: Key)
    requires Keyed(e.rows) && DistinctKeys(targets)
    requires target in targets && target.writeMode == Upserts && target.onDelete.Applied? && target.keyColumns != []
    requires TargetKey(target) !in e.succeeded
    requires var plan := PlanOf(e, targets, Current(source, KeysOf(e.rows)), inScope, true);
             plan.Fine(tries) || plan.Reached(tries, TargetKey(target))
    ensures var plan := PlanOf(e, targets, Current(source, KeysOf(e.rows)), inScope, true);
            Lookup(Landed(t, plan.Commits(tries), TargetKey(target)), k)
              == Refreshed(Lookup(t, k), source, KeysOf(e.rows), inScope, k)
  {
    var current := Current(source, KeysOf(e.rows));
    var plan := PlanOf(e, targets, current, inScope, true);
    PickHolds(targets, e.succeeded, Upserts);
    var i :| 0 <= i < |plan.keyed| && plan.keyed[i] == target;
    assert KeysOfTargets(plan.keyed)[i] == TargetKey(target);
    ReachedAsKeyed(e, targets, target, plan, tries);
    PlanLands(e, targets, target, plan, tries, t, i);
    var mid := Upserted(t, plan.present.rows);
    PresentLands(t, e.rows, current, inScope, |e.rows|, k);
    AbsentGoes(mid, e.rows, current, |e.rows|, k);
    AmongKeys(e.rows, k);
  }

  /** A keyed target among the reached ones had both of its steps go through. */
  lemma ReachedAsKeyed(e: Entry, targets: seq<Target>, target: Target, plan: Plan, tries: Tries)
    requires DistinctKeys(targets) && target in targets && target.writeMode == Upserts
    requires plan.keyed == Pick(targets, e.succeeded, Upserts) && plan.appendOnly == Pick(targets, e.succeeded, Inserts)
    requires TargetKey(target) in KeysOfTargets(plan.keyed)
    requires plan.Fine(tries) || plan.Reached(tries, TargetKey(target))
    ensures TargetKey(target) in StepKeys(plan.keyed, plan.present, None, tries.upsert)
    ensures TargetKey(target) in StepKeys(plan.keyed, plan.gone, plan.goneOp, tries.removal)
  {
    var keys := StepKeys(plan.appendOnly, plan.event, plan.op, tries.append);
    if TargetKey(target) in keys {
      StepKeysAreTargets(plan.appendOnly, plan.event, plan.op, tries.append, TargetKey(target));
      var n :| 0 <= n < |plan.appendOnly| && TargetKey(plan.appendOnly[n]) == TargetKey(target);
      OtherModeOtherKey(targets, e.succeeded, target, n);
    }
  }

  lemma StepKeysAreTargets(targets: seq<Target>, work: Work, op: Option<Op>, try: Try, key: string)
    requires key in StepKeys(targets, work, op, try)
    ensures exists n :: 0 <= n < |targets| && TargetKey(targets[n]) == key
  {
    if StepFine(targets, work, op, try) {
      var n :| 0 <= n < |KeysOfTargets(targets)| && KeysOfTargets(targets)[n] == key;
      assert TargetKey(targets[n]) == key;
    } else {
      FineKeysAreTargets(targets, op, {}, try.goes, |targets|, key);
    }
  }

  lemma {:induction false} FineKeysAreTargets(targets: seq<Target>, op: Option<Op>, skip: set<string>, goes: nat -> bool,
                                              n: nat, key: string)
    requires n <= |targets| && key in FineKeys(targets, op, skip, goes, n)
    ensures exists i :: 0 <= i < |targets| && TargetKey(targets[i]) == key
    decreases n
  {
    if n > 0 {
      if key in FineKeys(targets, op, skip, goes, n - 1) {
        FineKeysAreTargets(targets, op, skip, goes, n - 1, key);
      } else {
        assert TargetKey(targets[n - 1]) == key;
      }
    }
  }

  /** The target's table after the three steps: upserts, then deletions, and nothing of the events. */
  lemma PlanLands(e: Entry, targets: seq<Target>, target: Target, plan: Plan, tries: Tries, t: Table, i: nat)
    requires DistinctKeys(targets) && target in targets && target.writeMode == Upserts
    requires target.onDelete.Applied? && target.keyColumns != []
    requires plan.keyed == Pick(targets, e.succeeded, Upserts) && plan.appendOnly == Pick(targets, e.succeeded, Inserts)
    requires i < |plan.keyed| && plan.keyed[i] == target
    requires plan.present.Upsert? && plan.gone.Deletion?
    requires TargetKey(target) in StepKeys(plan.keyed, plan.present, None, tries.upsert)
    requires TargetKey(target) in StepKeys(plan.keyed, plan.gone, plan.goneOp, tries.removal)
    ensures Landed(t, plan.Commits(tries), TargetKey(target)) == Deleted(Upserted(t, plan.present.rows), plan.gone.rows)
  {
    var key := TargetKey(target);
    var c1 := StepCommits(plan.keyed, plan.present, None, tries.upsert);
    var c2 := StepCommits(plan.keyed, plan.gone, plan.goneOp, tries.removal);
    var c3 := StepCommits(plan.appendOnly, plan.event, plan.op, tries.append);
    PickDistinct(targets, e.succeeded, Upserts);
    StepLands(t, plan.keyed, plan.present, None, tries.upsert, i);
    StepLands(Upserted(t, plan.present.rows), plan.keyed, plan.gone, plan.goneOp, tries.removal, i);
    LandedConcat(t, c1, c2, key);
    LandedConcat(t, c1 + c2, c3, key);
    forall n | 0 <= n < |plan.appendOnly| ensures TargetKey(plan.appendOnly[n]) != key {
      OtherModeOtherKey(targets, e.succeeded, target, n);
    }
    if c3 != [] {
      NotReceived(plan.appendOnly, plan.event, plan.op, {}, tries.append.goes, |plan.appendOnly|, key);
    }
  }

  /** With every row in scope and rows read back whole, this is the retry step of the stream's model. */
  lemma RefreshIsTheStreamsRetry(e: Entry, targets: seq<Target>, target: Target, source: Table, inScope: Row -> bool,
                                 tries: Tries, t: Table)
    requires Keyed(e.rows) && DistinctKeys(targets)
    requires target in targets && target.writeMode == Upserts && target.onDelete.Applied? && target.keyColumns != []
    requires TargetKey(target) !in e.succeeded
    requires var plan := PlanOf(e, targets, Current(source, KeysOf(e.rows)), inScope, true);
             plan.Fine(tries) || plan.Reached(tries, TargetKey(target))
    requires forall k :: k in source ==> inScope(source[k]) && (k in t ==> t[k].Keys <= source[k].Keys)
    ensures var plan := PlanOf(e, targets, Current(source, KeysOf(e.rows)), inScope, true);
            Landed(t, plan.Commits(tries), TargetKey(target)) == StreamProtocol.Refresh(t, source, KeysOf(e.rows))
  {
    var plan := PlanOf(e, targets, Current(source, KeysOf(e.rows)), inScope, true);
    var landed := Landed(t, plan.Commits(tries), TargetKey(target));
    forall k ensures Lookup(landed, k) == Refreshed(Lookup(t, k), source, KeysOf(e.rows), inScope, k) {
      RefreshConverges(e, targets, target, source, inScope, tries, t, k);
    }
    SameAsTheStreams(t, landed, source, KeysOf(e.rows), inScope);
  }

  lemma SameAsTheStreams(t: Table, landed: Table, source: Table, keys: seq<Key>, inScope: Row -> bool)
    requires forall k :: Lookup(landed, k) == Refreshed(Lookup(t, k), source, keys, inScope, k)
    requires forall k :: k in source ==> inScope(source[k]) && (k in t ==> t[k].Keys <= source[k].Keys)
    ensures landed == StreamProtocol.Refresh(t, source, keys)
  {
    var refreshed := StreamProtocol.Refresh(t, source, keys);
    forall k ensures Lookup(landed, k) == Lookup(refreshed, k) {
      StreamTheorems.RefreshedRow(t, source, keys, k);
      if k in source {
        WholeRow(Lookup(t, k), source[k]);
      }
    }
    SameRows(landed, refreshed);
  }

  lemma WholeRow(row: Option<Row>, cells: Row)
    requires row.Some? ==> row.value.Keys <= cells.Keys
    ensures Overlay(row, cells) == cells
  {
  }
}
