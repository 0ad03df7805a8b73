/** How changes are grouped for delivery: the pending batch `accept` fills and flushes, and the runs the
spool's consumer cuts. Grouping must not change what the changes mean. */
module Batching {
  import opened Changes

  function Flatten<T>(groups: seq<seq<T>>): seq<T> {
    if groups == [] then [] else groups[0] + Flatten(groups[1..])
  }

  lemma {:induction false} FlattenConcat<T>(a: seq<seq<T>>, b: seq<seq<T>>)
    ensures Flatten(a + b) == Flatten(a) + Flatten(b)
    decreases |a|
  {
    if a == [] {
      assert a + b == b;
    } else {
      assert (a + b)[1..] == a[1..] + b;
      FlattenConcat(a[1..], b);
    }
  }

  lemma FlattenOneMore<T>(a: seq<seq<T>>, g: seq<T>)
    ensures Flatten(a + [g]) == Flatten(a) + g
  {
    FlattenConcat(a, [g]);
    assert Flatten([g]) == g + Flatten([g][1..]);
  }

  predicate SameOperation(cs: seq<Change>) {
    forall i, j :: 0 <= i < |cs| && 0 <= j < |cs| ==> cs[i].Operation() == cs[j].Operation()
  }

  /** One operation, a truncate by itself, and, where the source's key is known, no key twice. */
  predicate Deliverable(cs: seq<Change>, keyed: bool) {
    && SameOperation(cs)
    && (forall i :: 0 <= i < |cs| && cs[i].Empty? ==> |cs| == 1)
    && (keyed ==> Independent(cs))
  }

  /* ----- the pending batch ----- */

  datatype Pending = Pending(sent: seq<seq<Change>>, buffer: seq<Change>, room: Option<nat>)

  function BatchKeys(cs: seq<Change>): set<Key> {
    set c | c in cs && !c.Empty? :: c.key
  }

  /** What makes a batch refuse a change: that its operation differs, or that the key is in it. */
  predicate Conflicts(buffer: seq<Change>, c: Change, keyed: bool) {
    buffer != [] &&
    (buffer[0].Operation() != c.Operation() || (keyed && !c.Empty? && c.key in BatchKeys(buffer)))
  }

  /** Rows a batch may hold: the configured number, or fewer when the first row says the bytes run out. */
  function RoomFor(bytes: nat, batchBytes: nat): Option<nat> {
    if bytes == 0 then None
    else Some(if batchBytes / bytes > 1 then batchBytes / bytes else 1)
  }

  function Limit(maxBatch: nat, room: Option<nat>): nat {
    if room.Some? && room.value < maxBatch then room.value else maxBatch
  }

  function Flushed(p: Pending): Pending {
    if p.buffer == [] then p else Pending(p.sent + [p.buffer], [], None)
  }

  /** The pending batch after one change. */
  function Accepted(p: Pending, c: Change, keyed: bool, bytes: nat, maxBatch: nat, batchBytes: nat): Pending {
    if c.Empty? then Flushed(Flushed(p).(buffer := [c]))
    else
      var q := if Conflicts(p.buffer, c, keyed) then Flushed(p) else p;
      var room := if q.buffer == [] then RoomFor(bytes, batchBytes) else q.room;
      var r := Pending(q.sent, q.buffer + [c], room);
      if |r.buffer| >= Limit(maxBatch, room) then Flushed(r) else r
  }

  /** Everything accepted so far, in order. */
  function Taken(p: Pending): seq<Change> {
    Flatten(p.sent) + p.buffer
  }

  ghost predicate Sound(p: Pending, keyed: bool) {
    && (forall b :: b in p.sent ==> b != [] && Deliverable(b, keyed))
    && Deliverable(p.buffer, keyed)
    && (forall c :: c in p.buffer ==> !c.Empty?)
  }

  lemma FlushKeeps(p: Pending, keyed: bool)
    requires forall b :: b in p.sent ==> b != [] && Deliverable(b, keyed)
    requires Deliverable(p.buffer, keyed)
    ensures Sound(Flushed(p), keyed) && Taken(Flushed(p)) == Taken(p) && Flushed(p).buffer == []
  {
    FlattenOneMore(p.sent, p.buffer);
  }

  /** Accepting a change adds exactly that change to what was taken, and every batch stays deliverable. */
  lemma AcceptKeepsMeaning(p: Pending, c: Change, keyed: bool, bytes: nat, maxBatch: nat, batchBytes: nat)
    requires Sound(p, keyed)
    ensures var q := Accepted(p, c, keyed, bytes, maxBatch, batchBytes);
            && Sound(q, keyed)
            && Taken(q) == Taken(p) + [c]
            && (|q.buffer| < maxBatch || q.buffer == [])
  {
    FlushKeeps(p, keyed);
    if c.Empty? {
      EmptyGoesAlone(p, c, keyed);
    } else {
      var q := if Conflicts(p.buffer, c, keyed) then Flushed(p) else p;
      JoinedIsDeliverable(q.buffer, c, keyed);
      assert Flatten(q.sent) + (q.buffer + [c]) == Flatten(q.sent) + q.buffer + [c];
      var r := Pending(q.sent, q.buffer + [c], if q.buffer == [] then RoomFor(bytes, batchBytes) else q.room);
      FlushKeeps(r, keyed);
    }
  }

  lemma EmptyGoesAlone(p: Pending, c: Change, keyed: bool)
    requires Sound(p, keyed) && c.Empty?
    ensures var q := Flushed(Flushed(p).(buffer := [c]));
            Sound(q, keyed) && Taken(q) == Taken(p) + [c] && q.buffer == []
  {
    FlushKeeps(p, keyed);
    FlushKeeps(Flushed(p).(buffer := [c]), keyed);
    assert Taken(Flushed(p)) == Flatten(Flushed(p).sent) + [];
  }

  lemma JoinedIsDeliverable(buffer: seq<Change>, c: Change, keyed: bool)
    requires Deliverable(buffer, keyed) && !Conflicts(buffer, c, keyed) && !c.Empty?
    requires forall b :: b in buffer ==> !b.Empty?
    ensures Deliverable(buffer + [c], keyed)
  {
    var joined := buffer + [c];
    forall i | 0 <= i < |joined| ensures !joined[i].Empty? && joined[i].Operation() == c.Operation() {
      if i < |buffer| {
        assert buffer[i] in buffer && buffer[i].Operation() == buffer[0].Operation();
      }
    }
    if keyed {
      forall i, j | 0 <= i < j < |joined| ensures joined[i].key != joined[j].key {
        assert buffer[i] in buffer && buffer[i].key in BatchKeys(buffer);
      }
    }
  }

  lemma BatchKeysGrow(buffer: seq<Change>, c: Change)
    requires !c.Empty?
    ensures BatchKeys(buffer + [c]) == BatchKeys(buffer) + {c.key}
  {
    assert forall b :: b in buffer + [c] <==> b in buffer || b == c;
  }

  /** The part of a live stream that collects changes into batches. */
  class Collector {
    const keyed: bool
    const maxBatch: nat
    const batchBytes: nat
    var buffer: seq<Change>
    var bufferOp: Option<Op>
    var bufferKeys: set<Key>
    var byteCappedBatch: Option<nat>
    var sent: seq<seq<Change>> // what has been handed to delivery, one batch at a time

    ghost predicate Valid()
      reads this
    {
      && Sound(Contents(), keyed)
      && bufferOp == (if buffer == [] then None else Some(buffer[0].Operation()))
      && bufferKeys == (if keyed then BatchKeys(buffer) else {})
    }

    function Contents(): Pending
      reads this
    {
      Pending(sent, buffer, if buffer == [] then None else byteCappedBatch)
    }

    constructor (keyed: bool, maxBatch: nat, batchBytes: nat)
      ensures Valid() && Contents() == Pending([], [], None)
      ensures this.keyed == keyed && this.maxBatch == maxBatch && this.batchBytes == batchBytes
    {
      this.keyed, this.maxBatch, this.batchBytes := keyed, maxBatch, batchBytes;
      buffer, bufferOp, bufferKeys, byteCappedBatch, sent := [], None, {}, None, [];
    }

    method Flush()
      requires forall b :: b in sent ==> b != [] && Deliverable(b, keyed)
      requires Deliverable(buffer, keyed)
      modifies this
      ensures Valid()
      ensures buffer == [] && sent == old(if buffer == [] then sent else sent + [buffer])
    {
      if buffer != [] {
        sent := sent + [buffer];
      }
      buffer := [];
      bufferKeys := {};
      bufferOp := None;
      byteCappedBatch := None;
    }

    method Accept(c: Change, bytes: nat)
      requires Valid()
      modifies this
      ensures Valid()
      ensures Contents() == Accepted(old(Contents()), c, keyed, bytes, maxBatch, batchBytes)
      ensures Taken(Contents()) == old(Taken(Contents())) + [c]
    {
      AcceptKeepsMeaning(Contents(), c, keyed, bytes, maxBatch, batchBytes);
      if c.Empty? {
        // a truncate goes alone, behind everything read before it
        Flush();
        buffer := [c];
        bufferOp := Some(Truncate);
        Flush();
        return;
      }
      var conflicts := buffer != [] && (bufferOp != Some(c.Operation()) || (keyed && c.key in bufferKeys));
      assert conflicts == Conflicts(buffer, c, keyed);
      if conflicts {
        Flush();
      }
      if buffer == [] {
        // one measurement per batch
        byteCappedBatch := RoomFor(bytes, batchBytes);
      }
      JoinedIsDeliverable(buffer, c, keyed);
      BatchKeysGrow(buffer, c);
      buffer := buffer + [c];
      bufferOp := Some(c.Operation());
      if keyed {
        bufferKeys := bufferKeys + {c.key};
      }
      var limit := if byteCappedBatch.Some? && byteCappedBatch.value < maxBatch then byteCappedBatch.value else maxBatch;
      if |buffer| >= limit {
        Flush();
      }
    }
  }

  /* ----- runs cut from the spool ----- */

  /** An entry of the spool: a change, or a notice that something was deliberately not applied. */
  datatype Item = Data(change: Change) | Notice(message: string)

  datatype Kind = Of(op: Op) | Note

  function KindOf(i: Item): Kind {
    if i.Notice? then Note else Of(i.change.Operation())
  }

  predicate Alone(k: Kind) {
    k == Note || k == Of(Truncate)
  }

  function KeysIn(run: seq<Item>): set<Key> {
    set i | i in run && i.Data? && !i.change.Empty? :: i.change.key
  }

  /** Must `next` start a new run after `run`? */
  predicate Breaks(run: seq<Item>, next: Item, keyed: bool)
    requires run != []
  {
    || KindOf(run[|run| - 1]) != KindOf(next)
    || Alone(KindOf(next))
    || (keyed && next.Data? && !next.change.Empty? && next.change.key in KeysIn(run))
  }

  predicate NeedsCut(a: seq<Item>, b: seq<Item>, keyed: bool) {
    a != [] && b != [] && Breaks(a, b[0], keyed)
  }

  /** Every cut between two runs is one that had to be made. */
  ghost predicate CutWhereNeeded(runs: seq<seq<Item>>, keyed: bool) {
    && (forall r :: r in runs ==> r != [])
    && forall i, j :: 0 <= i && j == i + 1 && j < |runs| ==> NeedsCut(runs[i], runs[j], keyed)
  }

  function ChangesIn(run: seq<Item>): seq<Change> {
    if run == [] then []
    else (if run[0].Data? then [run[0].change] else []) + ChangesIn(run[1..])
  }

  predicate DifferentKeys(a: Item, b: Item) {
    a.Data? && b.Data? && !a.change.Empty? && !b.change.Empty? ==> a.change.key != b.change.key
  }

  /** One kind of entry throughout; notices and truncates alone; no key twice. */
  ghost predicate OneDelivery(run: seq<Item>, keyed: bool) {
    && run != []
    && (forall i, j :: 0 <= i < |run| && 0 <= j < |run| ==> KindOf(run[i]) == KindOf(run[j]))
    && (forall i :: 0 <= i < |run| && Alone(KindOf(run[i])) ==> |run| == 1)
    && (keyed ==> forall i, j :: 0 <= i < j < |run| ==> DifferentKeys(run[i], run[j]))
  }

  lemma {:induction false} ChangesInLength(run: seq<Item>)
    requires forall i :: 0 <= i < |run| ==> run[i].Data?
    ensures |ChangesIn(run)| == |run| && forall i :: 0 <= i < |run| ==> ChangesIn(run)[i] == run[i].change
    decreases |run|
  {
    if run != [] {
      ChangesInLength(run[1..]);
    }
  }

  /** A run of changes can be written as one statement. */
  lemma RunIsIndependent(run: seq<Item>)
    requires OneDelivery(run, true)
    ensures Independent(ChangesIn(run))
  {
    if run[0].Notice? {
      assert Alone(KindOf(run[0]));
      assert run[1..] == [];
    } else {
      forall i | 0 <= i < |run| ensures run[i].Data? {
        assert KindOf(run[i]) == KindOf(run[0]);
      }
      ChangesInLength(run);
      forall i | 0 <= i < |run| && run[i].change.Empty? ensures |run| == 1 {
        assert Alone(KindOf(run[i]));
      }
    }
  }

  lemma {:induction false} ChangesInConcat(a: seq<Item>, b: seq<Item>)
    ensures ChangesIn(a + b) == ChangesIn(a) + ChangesIn(b)
    decreases |a|
  {
    if a == [] {
      assert a + b == b;
    } else {
      var first := if a[0].Data? then [a[0].change] else [];
      assert (a + b)[0] == a[0] && (a + b)[1..] == a[1..] + b;
      ChangesInConcat(a[1..], b);
      assert first + (ChangesIn(a[1..]) + ChangesIn(b)) == (first + ChangesIn(a[1..])) + ChangesIn(b);
    }
  }

  /** Cuts spooled entries into runs, each fit for one delivery, and cuts nowhere it does not have to. */
  method DeliverableRuns(items: seq<Item>, keyed: bool) returns (runs: seq<seq<Item>>)
    ensures Flatten(runs) == items
    ensures forall r :: r in runs ==> OneDelivery(r, keyed)
    ensures CutWhereNeeded(runs, keyed)
  {
    runs := [];
    var current: seq<Item> := [];
    var seen: set<Key> := {};
    for n := 0 to |items|
      invariant Flatten(runs) + current == items[..n]
      invariant forall r :: r in runs ==> OneDelivery(r, keyed)
      invariant current == [] ==> n == 0
      invariant current != [] ==> OneDelivery(current, keyed)
      invariant current != [] ==> CutWhereNeeded(runs + [current], keyed)
      invariant current == [] ==> runs == []
      invariant keyed ==> seen == KeysIn(current)
    {
      var item := items[n];
      var sig := if keyed && item.Data? && !item.change.Empty? then Some(item.change.key) else None;
      var breaks :=
        current != [] &&
        (KindOf(current[|current| - 1]) != KindOf(item) || Alone(KindOf(item)) || (sig.Some? && sig.value in seen));
      assert current != [] ==> breaks == Breaks(current, item, keyed);
      if breaks {
        CutHere(runs, current, item, keyed);
        FlattenOneMore(runs, current);
        runs := runs + [current];
        current := [];
        seen := {};
      }
      assert items[..n + 1] == items[..n] + [item];
      Extends(current, item, keyed);
      GrowLast(runs, current, item, keyed);
      current := current + [item];
      if sig.Some? {
        seen := seen + {sig.value};
      }
    }
    if current != [] {
      FlattenOneMore(runs, current);
      runs := runs + [current];
    }
    assert items[..|items|] == items;
  }

  lemma CutHere(runs: seq<seq<Item>>, current: seq<Item>, next: Item, keyed: bool)
    requires current != [] && CutWhereNeeded(runs + [current], keyed) && Breaks(current, next, keyed)
    ensures CutWhereNeeded(runs + [current] + [[next]], keyed)
  {
    var was, cut := runs + [current], runs + [current] + [[next]];
    forall i, j | 0 <= i && j == i + 1 && j < |cut| ensures NeedsCut(cut[i], cut[j], keyed) {
      if j < |was| {
        assert cut[i] == was[i] && cut[j] == was[j];
      } else {
        assert cut[i] == current && cut[j] == [next];
      }
    }
  }

  lemma GrowLast(runs: seq<seq<Item>>, current: seq<Item>, next: Item, keyed: bool)
    requires if current == [] then runs == [] || CutWhereNeeded(runs + [[next]], keyed) else CutWhereNeeded(runs + [current], keyed)
    ensures CutWhereNeeded(runs + [current + [next]], keyed)
  {
    var was := runs + [if current == [] then [next] else current];
    var grown := runs + [current + [next]];
    forall r | r in grown ensures r != [] {
      assert r in runs ==> r in was;
    }
    forall i, j | 0 <= i && j == i + 1 && j < |grown|
      ensures NeedsCut(grown[i], grown[j], keyed)
    {
      assert NeedsCut(was[i], was[j], keyed);
      assert grown[i] == was[i] && grown[j][0] == was[j][0];
    }
  }

  lemma Extends(run: seq<Item>, next: Item, keyed: bool)
    requires run != [] ==> OneDelivery(run, keyed) && !Breaks(run, next, keyed)
    ensures OneDelivery(run + [next], keyed)
  {
    var grown := run + [next];
    if run != [] {
      assert forall i :: 0 <= i < |grown| ==> KindOf(grown[i]) == KindOf(next);
      assert forall i :: 0 <= i < |run| ==> run[i] in run && grown[i] == run[i];
    }
  }

  /* ----- grouping preserves meaning ----- */

  /** Writing each batch as a set, in whatever row order the engine likes, lands the table that applying the
  changes one at a time would have. */
  lemma {:induction false} WrittenAsSets(t: Table, batches: seq<seq<Change>>, written: seq<seq<Change>>)
    requires |batches| == |written|
    requires forall i :: 0 <= i < |batches| ==>
               Independent(batches[i]) && Independent(written[i]) && multiset(batches[i]) == multiset(written[i])
    ensures Apply(t, Flatten(written)) == Apply(t, Flatten(batches))
    decreases |batches|
  {
    if batches != [] {
      ApplyConcat(t, batches[0], Flatten(batches[1..]));
      ApplyConcat(t, written[0], Flatten(written[1..]));
      AnyOrder(t, batches[0], written[0]);
      WrittenAsSets(Apply(t, batches[0]), batches[1..], written[1..]);
    }
  }

  /** The same for the runs of the spool. */
  lemma {:induction false} RunsKeepMeaning(t: Table, runs: seq<seq<Item>>, written: seq<seq<Change>>)
    requires |runs| == |written| && forall r :: r in runs ==> OneDelivery(r, true)
    requires forall i :: 0 <= i < |runs| ==>
               Independent(written[i]) && multiset(written[i]) == multiset(ChangesIn(runs[i]))
    ensures Apply(t, Flatten(written)) == Apply(t, ChangesIn(Flatten(runs)))
    decreases |runs|
  {
    if runs != [] {
      assert runs[0] in runs;
      ApplyConcat(t, written[0], Flatten(written[1..]));
      ChangesInConcat(runs[0], Flatten(runs[1..]));
      ApplyConcat(t, ChangesIn(runs[0]), ChangesIn(Flatten(runs[1..])));
      RunIsIndependent(runs[0]);
      AnyOrder(t, ChangesIn(runs[0]), written[0]);
      RunsKeepMeaning(Apply(t, written[0]), runs[1..], written[1..]);
    }
  }
}
