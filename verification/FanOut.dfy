/** Delivering one batch to several database targets, and retrying it: targets that have committed are
remembered with the failed delivery, and skipped by every later attempt.

A target's write is atomic (it commits whole or throws and leaves nothing), and a delivery is recorded
before anything else happens to it. What each target does with a write is a parameter. */
module FanOut {
  import opened Changes

  datatype OnDelete = Applied | Ignored | Soft

  datatype WriteMode = Upserts | Inserts

  datatype Target = Target(connectionId: string, database: Option<string>, schema: Option<string>, table: string,
                           keyColumns: seq<Column>, writeMode: WriteMode, onDelete: OnDelete)

  datatype Commit<B> = Commit(target: string, batch: B)

  /** A success has no checkpoint. */
  datatype Outcome = Outcome(ok: bool, succeeded: Option<seq<string>>)

  function OrEmpty(s: Option<string>): string {
    if s.Some? then s.value else ""
  }

  function TargetKey(t: Target): string {
    t.connectionId + "::" + OrEmpty(t.database) + "::" + OrEmpty(t.schema) + "::" + t.table
  }

  /** An operation the target is not asked to carry out; that counts as done. */
  predicate NotApplied(t: Target, op: Option<Op>) {
    || (op == Some(Delete) && t.keyColumns == [])
    || ((op == Some(Delete) || op == Some(Truncate)) && t.onDelete.Ignored?)
    || (op == Some(Truncate) && t.onDelete.Soft?)
  }

  predicate Attempted(t: Target, op: Option<Op>, skip: set<string>) {
    TargetKey(t) !in skip && !NotApplied(t, op)
  }

  /** Does target `i` end this attempt without an error? */
  predicate Fine(targets: seq<Target>, op: Option<Op>, skip: set<string>, goes: nat -> bool, i: nat)
    requires i < |targets|
  {
    Attempted(targets[i], op, skip) ==> goes(i)
  }

  /** The keys of the first `n` targets that ended without an error. */
  function FineKeys(targets: seq<Target>, op: Option<Op>, skip: set<string>, goes: nat -> bool, n: nat): seq<string>
    requires n <= |targets|
  {
    if n == 0 then []
    else FineKeys(targets, op, skip, goes, n - 1)
         + (if Fine(targets, op, skip, goes, n - 1) then [TargetKey(targets[n - 1])] else [])
  }

  /** What the first `n` targets commit. */
  function Committed<B>(targets: seq<Target>, batch: B, op: Option<Op>, skip: set<string>, goes: nat -> bool, n: nat): seq<Commit<B>>
    requires n <= |targets|
  {
    if n == 0 then []
    else
      var before := Committed(targets, batch, op, skip, goes, n - 1);
      if Attempted(targets[n - 1], op, skip) && goes(n - 1) then before + [Commit(TargetKey(targets[n - 1]), batch)] else before
  }

  class DatabaseSink<B> {
    var commits: seq<Commit<B>>

    constructor ()
      ensures commits == []
    {
      commits := [];
    }

    /** One attempt at every target, in order; a target that fails does not keep the others from being tried. */
    method Deliver(targets: seq<Target>, batch: B, op: Option<Op>, skip: set<string>, goes: nat -> bool)
      returns (outcome: Outcome)
      modifies this
      ensures commits == old(commits) + Committed(targets, batch, op, skip, goes, |targets|)
      ensures outcome.ok <==> forall i :: 0 <= i < |targets| ==> Fine(targets, op, skip, goes, i)
      ensures outcome.succeeded == if outcome.ok then None else Some(FineKeys(targets, op, skip, goes, |targets|))
    {
      var succeeded: seq<string> := [];
      var failed := false;
      var i := 0;
      while i < |targets|
        invariant 0 <= i <= |targets|
        invariant commits == old(commits) + Committed(targets, batch, op, skip, goes, i)
        invariant succeeded == FineKeys(targets, op, skip, goes, i)
        invariant failed <==> exists j :: 0 <= j < i && !Fine(targets, op, skip, goes, j)
      {
        var target := targets[i];
        var key := TargetKey(target);
        if key in skip { // in the checkpoint already, and stays there
          succeeded := succeeded + [key];
        } else if op == Some(Delete) && target.keyColumns == [] { // nothing to delete by
          succeeded := succeeded + [key];
        } else if (op == Some(Delete) || op == Some(Truncate)) && target.onDelete.Ignored? {
          succeeded := succeeded + [key];
        } else if op == Some(Truncate) && target.onDelete.Soft? {
          succeeded := succeeded + [key];
        } else if goes(i) {
          commits := commits + [Commit(key, batch)];
          succeeded := succeeded + [key];
        } else {
          failed := true;
        }
        i := i + 1;
      }
      outcome := Outcome(!failed, if failed then Some(succeeded) else None);
    }
  }

  /* ----- retries ----- */

  /** One attempt: refused before anything was sent (a column transform failed), or sent to the targets. */
  datatype Try = Refused | Sent(goes: nat -> bool)

  datatype History<B> = History(commits: seq<Commit<B>>, done: bool, checkpoint: seq<string>)

  function AsSet(keys: seq<string>): set<string> {
    set k | k in keys
  }

  /** What a series of attempts comes to: each failed one leaves its checkpoint to the next, a refused one
  knows nothing of the targets and leaves the stored checkpoint as it is, and a success ends the series. */
  function Retried<B>(targets: seq<Target>, batch: B, op: Option<Op>, checkpoint: seq<string>, tries: seq<Try>): History<B>
    decreases |tries|
  {
    if tries == [] then History([], false, checkpoint)
    else if tries[0].Refused? then Retried(targets, batch, op, checkpoint, tries[1..])
    else
      var skip, goes := AsSet(checkpoint), tries[0].goes;
      var now := Committed(targets, batch, op, skip, goes, |targets|);
      if forall i :: 0 <= i < |targets| ==> Fine(targets, op, skip, goes, i) then History(now, true, [])
      else
        var rest := Retried(targets, batch, op, FineKeys(targets, op, skip, goes, |targets|), tries[1..]);
        rest.(commits := now + rest.commits)
  }

  method DeliverUntilDone<B>(sink: DatabaseSink<B>, targets: seq<Target>, batch: B, op: Option<Op>,
                             stored: seq<string>, tries: seq<Try>)
    returns (done: bool, checkpoint: seq<string>)
    modifies sink
    ensures var h := Retried(targets, batch, op, stored, tries);
            sink.commits == old(sink.commits) + h.commits && done == h.done && checkpoint == h.checkpoint
  {
    checkpoint, done := stored, false;
    var i := 0;
    while i < |tries| && !done
      invariant 0 <= i <= |tries|
      invariant var h, rest := Retried(targets, batch, op, stored, tries), Retried(targets, batch, op, checkpoint, tries[i..]);
                if done then sink.commits == old(sink.commits) + h.commits && h.done && h.checkpoint == checkpoint
                else old(sink.commits) + h.commits == sink.commits + rest.commits
                     && h.done == rest.done && h.checkpoint == rest.checkpoint
    {
      assert tries[i..][1..] == tries[i + 1..];
      if tries[i].Sent? {
        var outcome := sink.Deliver(targets, batch, op, AsSet(checkpoint), tries[i].goes);
        done := outcome.ok;
        checkpoint := if outcome.ok then [] else outcome.succeeded.value;
      }
      i := i + 1;
    }
  }

  /** What a target has received, in order. */
  function Received<B>(commits: seq<Commit<B>>, key: string): seq<B> {
    if commits == [] then []
    else (if commits[0].target == key then [commits[0].batch] else []) + Received(commits[1..], key)
  }

  predicate DistinctKeys(targets: seq<Target>) {
    forall i, j :: 0 <= i < j < |targets| ==> TargetKey(targets[i]) != TargetKey(targets[j])
  }

  /** No other target has the key of target `i`. */
  predicate Alone(targets: seq<Target>, i: nat)
    requires i < |targets|
  {
    forall j :: 0 <= j < |targets| && j != i ==> TargetKey(targets[j]) != TargetKey(targets[i])
  }

  lemma DistinctIsAlone(targets: seq<Target>, i: nat)
    requires DistinctKeys(targets) && i < |targets|
    ensures Alone(targets, i)
  {
    forall j | 0 <= j < |targets| && j != i ensures TargetKey(targets[j]) != TargetKey(targets[i]) {
      assert j < i || i < j;
    }
  }

  lemma {:induction false} ReceivedConcat<B>(a: seq<Commit<B>>, b: seq<Commit<B>>, key: string)
    ensures Received(a + b, key) == Received(a, key) + Received(b, key)
    decreases |a|
  {
    if a == [] {
      assert a + b == b;
    } else {
      assert (a + b)[1..] == a[1..] + b;
      ReceivedConcat(a[1..], b, key);
      Regrouped(if a[0].target == key then [a[0].batch] else [], Received(a[1..], key), Received(b, key));
    }
  }

  lemma Regrouped<T>(a: seq<T>, b: seq<T>, c: seq<T>)
    ensures a + (b + c) == a + b + c
  {
  }

  lemma OneMore<B>(commits: seq<Commit<B>>, target: string, batch: B, key: string)
    ensures Received(commits + [Commit(target, batch)], key) ==
            if target == key then Received(commits, key) + [batch] else Received(commits, key)
  {
    ReceivedConcat(commits, [Commit(target, batch)], key);
    assert [Commit(target, batch)][1..] == [];
  }

  /** What comes to a key in one attempt, target by target. */
  function Got<B>(targets: seq<Target>, batch: B, op: Option<Op>, skip: set<string>, goes: nat -> bool, n: nat, key: string): seq<B>
    requires n <= |targets|
  {
    if n == 0 then []
    else
      var before := Got(targets, batch, op, skip, goes, n - 1, key);
      if TargetKey(targets[n - 1]) == key && Attempted(targets[n - 1], op, skip) && goes(n - 1) then before + [batch] else before
  }

  lemma {:induction false} ReceivedIsGot<B>(targets: seq<Target>, batch: B, op: Option<Op>, skip: set<string>,
                                            goes: nat -> bool, n: nat, key: string)
    requires n <= |targets|
    ensures Received(Committed(targets, batch, op, skip, goes, n), key) == Got(targets, batch, op, skip, goes, n, key)
    decreases n
  {
    if n > 0 {
      ReceivedIsGot(targets, batch, op, skip, goes, n - 1, key);
      OneMore(Committed(targets, batch, op, skip, goes, n - 1), TargetKey(targets[n - 1]), batch, key);
    }
  }

  lemma {:induction false} NothingGot<B>(targets: seq<Target>, batch: B, op: Option<Op>, skip: set<string>, goes: nat -> bool,
                                         n: nat, key: string)
    requires n <= |targets| && (key in skip || forall j :: 0 <= j < n ==> TargetKey(targets[j]) != key)
    ensures Got(targets, batch, op, skip, goes, n, key) == []
    decreases n
  {
    if n > 0 {
      NothingGot(targets, batch, op, skip, goes, n - 1, key);
    }
  }

  lemma {:induction false} GotOnce<B>(targets: seq<Target>, batch: B, op: Option<Op>, skip: set<string>, goes: nat -> bool,
                                      i: nat, n: nat)
    requires i < n <= |targets| && Alone(targets, i)
    ensures Got(targets, batch, op, skip, goes, n, TargetKey(targets[i])) ==
            if Attempted(targets[i], op, skip) && goes(i) then [batch] else []
    decreases n
  {
    if n - 1 == i {
      NothingGot(targets, batch, op, skip, goes, i, TargetKey(targets[i]));
    } else {
      GotOnce(targets, batch, op, skip, goes, i, n - 1);
    }
  }

  lemma NotReceived<B>(targets: seq<Target>, batch: B, op: Option<Op>, skip: set<string>, goes: nat -> bool, n: nat, key: string)
    requires n <= |targets| && (key in skip || forall j :: 0 <= j < n ==> TargetKey(targets[j]) != key)
    ensures Received(Committed(targets, batch, op, skip, goes, n), key) == []
  {
    ReceivedIsGot(targets, batch, op, skip, goes, n, key);
    NothingGot(targets, batch, op, skip, goes, n, key);
  }

  /** In one attempt a target whose key is its own receives the batch once, if it is tried and does not fail. */
  lemma ReceivedOnce<B>(targets: seq<Target>, batch: B, op: Option<Op>, skip: set<string>, goes: nat -> bool, i: nat, n: nat)
    requires i < n <= |targets| && Alone(targets, i)
    ensures Received(Committed(targets, batch, op, skip, goes, n), TargetKey(targets[i])) ==
            if Attempted(targets[i], op, skip) && goes(i) then [batch] else []
  {
    ReceivedIsGot(targets, batch, op, skip, goes, n, TargetKey(targets[i]));
    GotOnce(targets, batch, op, skip, goes, i, n);
  }

  lemma {:induction false} FineKeysHold(targets: seq<Target>, op: Option<Op>, skip: set<string>, goes: nat -> bool, n: nat, i: nat)
    requires n <= |targets| && i < |targets| && Alone(targets, i)
    ensures TargetKey(targets[i]) in FineKeys(targets, op, skip, goes, n) <==> i < n && Fine(targets, op, skip, goes, i)
    decreases n
  {
    if n > 0 {
      FineKeysHold(targets, op, skip, goes, n - 1, i);
    }
  }

  /** Over any series of attempts, whatever fails when: a target whose key is its own does not commit the batch
  twice, nor again when it is in the checkpoint, and once the delivery succeeds it has committed it exactly
  once, if the operation applies to it. That holds for `insert` targets too, which could not absorb a second write. */
  lemma {:induction false} OncePerTarget<B>(targets: seq<Target>, batch: B, op: Option<Op>, checkpoint: seq<string>,
                                            tries: seq<Try>, i: nat)
    requires i < |targets| && Alone(targets, i)
    ensures var h, key := Retried(targets, batch, op, checkpoint, tries), TargetKey(targets[i]);
            && (Received(h.commits, key) == [] || Received(h.commits, key) == [batch])
            && (key in checkpoint || NotApplied(targets[i], op) ==> Received(h.commits, key) == [])
            && (h.done && key !in checkpoint && !NotApplied(targets[i], op) ==> Received(h.commits, key) == [batch])
    decreases |tries|
  {
    var key := TargetKey(targets[i]);
    if tries == [] {
    } else if tries[0].Refused? {
      OncePerTarget(targets, batch, op, checkpoint, tries[1..], i);
    } else {
      var skip, goes := AsSet(checkpoint), tries[0].goes;
      var now := Committed(targets, batch, op, skip, goes, |targets|);
      var next := FineKeys(targets, op, skip, goes, |targets|);
      ReceivedOnce(targets, batch, op, skip, goes, i, |targets|);
      FineKeysHold(targets, op, skip, goes, |targets|, i);
      assert key in skip <==> key in checkpoint;
      assert Attempted(targets[i], op, skip) <==> key !in checkpoint && !NotApplied(targets[i], op);
      if !(forall j :: 0 <= j < |targets| ==> Fine(targets, op, skip, goes, j)) {
        OncePerTarget(targets, batch, op, next, tries[1..], i);
        ReceivedConcat(now, Retried(targets, batch, op, next, tries[1..]).commits, key);
      } else {
        assert Fine(targets, op, skip, goes, i);
      }
    }
  }

  /* ----- when the keys tell the targets apart well enough ----- */

  /** How many of the first `n` targets are owed the batch under this key. */
  function Owed(targets: seq<Target>, op: Option<Op>, key: string, n: nat): nat
    requires n <= |targets|
  {
    if n == 0 then 0
    else Owed(targets, op, key, n - 1)
         + (if TargetKey(targets[n - 1]) == key && !NotApplied(targets[n - 1], op) then 1 else 0)
  }

  /** If this series of attempts ends in a success, each target the operation applies to got the batch once. */
  ghost predicate EachOnce<B>(targets: seq<Target>, batch: B, op: Option<Op>, tries: seq<Try>) {
    var h := Retried(targets, batch, op, [], tries);
    h.done ==> forall i :: 0 <= i < |targets| && !NotApplied(targets[i], op) ==>
      |Received(h.commits, TargetKey(targets[i]))| == Owed(targets, op, TargetKey(targets[i]), |targets|)
  }

  lemma {:induction false} NothingOwed(targets: seq<Target>, op: Option<Op>, key: string, n: nat)
    requires n <= |targets| && forall j :: 0 <= j < n ==> TargetKey(targets[j]) != key
    ensures Owed(targets, op, key, n) == 0
    decreases n
  {
    if n > 0 {
      NothingOwed(targets, op, key, n - 1);
    }
  }

  lemma {:induction false} OwedOnce(targets: seq<Target>, op: Option<Op>, n: nat, i: nat)
    requires i < n <= |targets| && Alone(targets, i) && !NotApplied(targets[i], op)
    ensures Owed(targets, op, TargetKey(targets[i]), n) == 1
    decreases n
  {
    if i == n - 1 {
      NothingOwed(targets, op, TargetKey(targets[i]), n - 1);
    } else {
      OwedOnce(targets, op, n - 1, i);
    }
  }

  /** A first attempt in which only target `i` fails: everything else owed under its key is committed. */
  lemma {:induction false} AllButOne<B>(targets: seq<Target>, batch: B, op: Option<Op>, goes: nat -> bool, i: nat, n: nat)
    requires n <= |targets| && i < |targets| && !NotApplied(targets[i], op) && forall j :: goes(j) <==> j != i
    ensures var key := TargetKey(targets[i]);
            |Got(targets, batch, op, {}, goes, n, key)| + (if i < n then 1 else 0) == Owed(targets, op, key, n)
    decreases n
  {
    if n > 0 {
      AllButOne(targets, batch, op, goes, i, n - 1);
    }
  }

  lemma {:induction false} FineKeyKept(targets: seq<Target>, op: Option<Op>, skip: set<string>, goes: nat -> bool, n: nat, j: nat)
    requires j < n <= |targets| && Fine(targets, op, skip, goes, j)
    ensures TargetKey(targets[j]) in FineKeys(targets, op, skip, goes, n)
    decreases n
  {
    if j < n - 1 {
      FineKeyKept(targets, op, skip, goes, n - 1, j);
    }
  }

  /** A target that shares its key, with any other: it alone fails, the other one's success (even at having
  nothing to do) marks the key as done, and the retry reports a success without sending it the batch. */
  lemma ASharedKeyLosesATarget<B>(targets: seq<Target>, batch: B, op: Option<Op>, i: nat, j: nat)
    requires i < |targets| && j < |targets| && i != j && TargetKey(targets[i]) == TargetKey(targets[j])
    requires !NotApplied(targets[i], op)
    ensures var h, key := Retried(targets, batch, op, [], [Sent((n: nat) => n != i), Sent((n: nat) => true)]), TargetKey(targets[i]);
            h.done && |Received(h.commits, key)| == Owed(targets, op, key, |targets|) - 1
  {
    var key := TargetKey(targets[i]);
    var others, every := (n: nat) => n != i, (n: nat) => true;
    var tries := [Sent(others), Sent(every)];
    var first := Committed(targets, batch, op, {}, others, |targets|);
    var next := FineKeys(targets, op, {}, others, |targets|);
    var second := Committed(targets, batch, op, AsSet(next), every, |targets|);
    assert AsSet([]) == {};
    assert !Fine(targets, op, {}, others, i);
    FineKeyKept(targets, op, {}, others, |targets|, j);
    AllButOne(targets, batch, op, others, i, |targets|);
    ReceivedIsGot(targets, batch, op, {}, others, |targets|, key);
    NotReceived(targets, batch, op, AsSet(next), every, |targets|, key);
    assert tries[1..] == [Sent(every)];
    assert Retried(targets, batch, op, next, tries[1..]) == History(second, true, []);
    assert Retried(targets, batch, op, [], tries) == History(first + second, true, []);
    ReceivedConcat(first, second, key);
  }

  /** Every series of attempts that succeeds has given each target the batch exactly once if and only if no
  target the operation applies to shares its key with another one. */
  lemma OnceForEachIffAlone<B>(targets: seq<Target>, batch: B, op: Option<Op>)
    ensures (forall tries: seq<Try> :: EachOnce(targets, batch, op, tries)) <==>
            forall i :: 0 <= i < |targets| && !NotApplied(targets[i], op) ==> Alone(targets, i)
  {
    if forall i :: 0 <= i < |targets| && !NotApplied(targets[i], op) ==> Alone(targets, i) {
      forall tries: seq<Try> ensures EachOnce(targets, batch, op, tries) {
        var h := Retried(targets, batch, op, [], tries);
        forall i | h.done && 0 <= i < |targets| && !NotApplied(targets[i], op)
          ensures |Received(h.commits, TargetKey(targets[i]))| == Owed(targets, op, TargetKey(targets[i]), |targets|)
        {
          OncePerTarget(targets, batch, op, [], tries, i);
          OwedOnce(targets, op, |targets|, i);
        }
      }
    } else {
      var i: nat :| i < |targets| && !NotApplied(targets[i], op) && !Alone(targets, i);
      var j: nat :| j < |targets| && j != i && TargetKey(targets[j]) == TargetKey(targets[i]);
      ASharedKeyLosesATarget(targets, batch, op, i, j);
      assert !EachOnce(targets, batch, op, [Sent((n: nat) => n != i), Sent((n: nat) => true)]);
    }
  }

  /** The key joins the parts with "::" and does not quote them, so different tables can have one key. */
  lemma DifferentTablesMayShareAKey()
    ensures exists a: Target, b: Target ::
              a.connectionId == b.connectionId && a.database == b.database && a.schema != b.schema && a.table != b.table &&
              TargetKey(a) == TargetKey(b)
  {
    var a := Target("c", None, Some("s::t"), "u", [], Inserts, Applied);
    var b := Target("c", None, Some("s"), "t::u", [], Inserts, Applied);
    assert TargetKey(a) == "c::::s::t::u" == TargetKey(b);
    assert a.table != b.table && a.schema.value != b.schema.value;
  }

  predicate HasNoColon(s: string) {
    ':' !in s
  }

  lemma FirstColon(a: string, x: string)
    requires HasNoColon(a)
    ensures var s := a + "::" + x;
            |s| >= |a| + 2 && s[|a|] == ':' && s[..|a|] == a && s[|a| + 2..] == x && forall i :: 0 <= i < |a| ==> s[i] != ':'
  {
    var s := a + "::" + x;
    forall i | 0 <= i < |a| ensures s[i] != ':' {
      assert s[i] == a[i] && a[i] in a;
    }
  }

  /** The part before the first colon, and so the rest, can be read off. */
  lemma FirstPart(a: string, b: string, x: string, y: string)
    requires HasNoColon(a) && HasNoColon(b) && a + "::" + x == b + "::" + y
    ensures a == b && x == y
  {
    FirstColon(a, x);
    FirstColon(b, y);
  }

  /** Where no name has a colon in it, one key is one table (with a database and a schema that are either
  both named or both left out of it). */
  lemma KeysTellTablesApart(a: Target, b: Target)
    requires TargetKey(a) == TargetKey(b)
    requires HasNoColon(a.connectionId) && HasNoColon(b.connectionId)
    requires HasNoColon(OrEmpty(a.database)) && HasNoColon(OrEmpty(b.database))
    requires HasNoColon(OrEmpty(a.schema)) && HasNoColon(OrEmpty(b.schema))
    ensures a.connectionId == b.connectionId && OrEmpty(a.database) == OrEmpty(b.database)
    ensures OrEmpty(a.schema) == OrEmpty(b.schema) && a.table == b.table
  {
    var s1 := OrEmpty(a.database) + "::" + (OrEmpty(a.schema) + "::" + a.table);
    var t1 := OrEmpty(b.database) + "::" + (OrEmpty(b.schema) + "::" + b.table);
    Nested(a.connectionId, OrEmpty(a.database), OrEmpty(a.schema), a.table);
    Nested(b.connectionId, OrEmpty(b.database), OrEmpty(b.schema), b.table);
    FirstPart(a.connectionId, b.connectionId, s1, t1);
    RestsTellApart(OrEmpty(a.database), OrEmpty(b.database), OrEmpty(a.schema), OrEmpty(b.schema), a.table, b.table);
  }

  lemma Nested(c: string, d: string, s: string, t: string)
    ensures c + "::" + d + "::" + s + "::" + t == c + "::" + (d + "::" + (s + "::" + t))
  {
  }

  lemma RestsTellApart(d1: string, d2: string, s1: string, s2: string, t1: string, t2: string)
    requires d1 + "::" + (s1 + "::" + t1) == d2 + "::" + (s2 + "::" + t2)
    requires HasNoColon(d1) && HasNoColon(d2) && HasNoColon(s1) && HasNoColon(s2)
    ensures d1 == d2 && s1 == s2 && t1 == t2
  {
    FirstPart(d1, d2, s1 + "::" + t1, s2 + "::" + t2);
    FirstPart(s1, s2, t1, t2);
  }
}
