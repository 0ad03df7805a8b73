/** The search for the bad rows of a failed batch: a queue of groups, each tried or cut in two, until every row has
landed or has failed by itself; or until a limit is hit. */
module Isolation {
  type Target = string

  /** What one delivery attempt reports: success, or an error and the targets that committed all the same. */
  datatype Outcome = Outcome(ok: bool, succeeded: set<Target>)

  datatype Attempt = Attempt(rows: seq<nat>, skip: set<Target>, outcome: Outcome)

  datatype Segment = Segment(id: nat, rows: seq<nat>, skip: set<Target>, sibling: nat, knownBad: bool)

  datatype Poisoned = Poisoned(row: nat, succeeded: set<Target>)

  datatype Found = Found(delivered: seq<nat>, poisoned: seq<Poisoned>, systemic: bool, attempts: nat)

  /* ----- bookkeeping of rows ----- */

  function RowsIn(queue: seq<Segment>): multiset<nat> {
    if queue == [] then multiset{} else multiset(queue[0].rows) + RowsIn(queue[1..])
  }

  function RowsOf(ps: seq<Poisoned>): seq<nat> {
    seq(|ps|, i requires 0 <= i < |ps| => ps[i].row)
  }

  function Work(queue: seq<Segment>): nat
    requires forall s :: s in queue ==> s.rows != []
  {
    if queue == [] then 0 else (assert queue[0] in queue; 2 * |queue[0].rows| - 1) + Work(queue[1..])
  }

  lemma {:induction false} RowsConcat(a: seq<Segment>, b: seq<Segment>)
    ensures RowsIn(a + b) == RowsIn(a) + RowsIn(b)
    decreases |a|
  {
    if a == [] {
      assert a + b == b;
    } else {
      assert (a + b)[1..] == a[1..] + b;
      RowsConcat(a[1..], b);
    }
  }

  lemma {:induction false} WorkConcat(a: seq<Segment>, b: seq<Segment>)
    requires forall s :: s in a + b ==> s.rows != []
    ensures (forall s :: s in a ==> s.rows != []) && (forall s :: s in b ==> s.rows != [])
    ensures Work(a + b) == Work(a) + Work(b)
    decreases |a|
  {
    assert forall s :: s in a || s in b ==> s in a + b;
    if a == [] {
      assert a + b == b;
    } else {
      assert (a + b)[1..] == a[1..] + b;
      assert forall s :: s in a[1..] ==> s in a;
      WorkConcat(a[1..], b);
    }
  }

  lemma {:induction false} SegmentRows(queue: seq<Segment>, s: Segment)
    requires s in queue
    ensures multiset(s.rows) <= RowsIn(queue)
    decreases |queue|
  {
    if queue[0] != s {
      SegmentRows(queue[1..], s);
    }
  }

  lemma RowsOneMore(ps: seq<Poisoned>, p: Poisoned)
    ensures RowsOf(ps + [p]) == RowsOf(ps) + [p.row]
  {
  }

  /* ----- the search ----- */

  /** The two halves of a group, the larger first. */
  function Halves(rows: seq<nat>, skip: set<Target>, id: nat): (h: seq<Segment>)
    requires |rows| > 1
    ensures |h| == 2 && h[0].rows != [] && h[1].rows != [] && h[0].rows + h[1].rows == rows
    ensures h[0].skip == skip && h[1].skip == skip && !h[0].knownBad && !h[1].knownBad
  {
    var mid := (|rows| + 1) / 2;
    [Segment(id, rows[..mid], skip, id + 1, false), Segment(id + 1, rows[mid..], skip, id, false)]
  }

  lemma HalvesRows(rows: seq<nat>, skip: set<Target>, id: nat)
    requires |rows| > 1
    ensures var h := Halves(rows, skip, id);
            RowsIn(h) == multiset(rows) && Work(h) == 2 * |rows| - 2
  {
    var h := Halves(rows, skip, id);
    assert h[1..][1..] == [];
    assert RowsIn(h[1..]) == multiset(h[1].rows) + RowsIn([]);
    assert Work(h[1..]) == (2 * |h[1].rows| - 1) + Work([]);
    assert multiset(rows) == multiset(h[0].rows + h[1].rows);
  }

  /** Once one half has gone through, the other one must hold a bad row: its group is marked. */
  function MarkBad(queue: seq<Segment>, id: nat): (r: seq<Segment>)
    ensures |r| == |queue|
    ensures forall i :: 0 <= i < |r| ==> r[i].rows == queue[i].rows && r[i].skip == queue[i].skip
  {
    if queue == [] then []
    else [if queue[0].id == id then queue[0].(knownBad := true) else queue[0]] + MarkBad(queue[1..], id)
  }

  lemma {:induction false} MarkBadKeeps(queue: seq<Segment>, id: nat)
    requires forall s :: s in queue ==> s.rows != []
    ensures forall s :: s in MarkBad(queue, id) ==> s.rows != []
    ensures RowsIn(MarkBad(queue, id)) == RowsIn(queue) && Work(MarkBad(queue, id)) == Work(queue)
    decreases |queue|
  {
    if queue != [] {
      assert queue[0] in queue;
      assert forall s :: s in queue[1..] ==> s in queue;
      MarkBadKeeps(queue[1..], id);
    }
  }

  /** What was written of a row in a failed attempt is skipped in every later attempt that carries it. */
  ghost predicate SkipsWhatIsWritten(log: seq<Attempt>, rows: seq<nat>, skip: set<Target>) {
    forall a, x :: a in log && x in a.rows && x in rows ==> !a.outcome.ok && a.outcome.succeeded <= skip
  }

  /** No attempt repeats a row that went through, or a target that already holds the row. */
  ghost predicate WritesOnce(log: seq<Attempt>) {
    forall i, j :: 0 <= i < j < |log| ==> SkipsWhatIsWritten([log[i]], log[j].rows, log[j].skip)
  }

  function Delivered(log: seq<Attempt>): seq<nat> {
    if log == [] then []
    else Delivered(log[..|log| - 1]) + if log[|log| - 1].outcome.ok then log[|log| - 1].rows else []
  }

  predicate Distinct(rows: seq<nat>) {
    forall i, j :: 0 <= i < j < |rows| ==> rows[i] != rows[j]
  }

  lemma {:induction false} DistinctOnce(rows: seq<nat>, x: nat)
    requires Distinct(rows)
    ensures multiset(rows)[x] <= 1
    decreases |rows|
  {
    if rows != [] {
      assert rows == [rows[0]] + rows[1..];
      DistinctOnce(rows[1..], x);
      assert multiset(rows) == multiset{rows[0]} + multiset(rows[1..]);
      assert forall i :: 0 <= i < |rows[1..]| ==> rows[1..][i] == rows[i + 1] != rows[0];
    }
  }

  /** Two groups that together hold no row twice share none. */
  lemma Apart(a: seq<nat>, b: seq<nat>, all: multiset<nat>)
    requires multiset(a) + multiset(b) <= all && forall x :: all[x] <= 1
    ensures forall x :: x in a ==> x !in b
  {
    forall x | x in a ensures x !in b {
      assert x in multiset(a) && (x in b <==> x in multiset(b));
      assert (multiset(a) + multiset(b))[x] <= all[x];
    }
  }

  /** What holds throughout: every row is delivered, set aside, or still in the queue, exactly once. */
  ghost predicate Accounts(rows: seq<nat>, queue: seq<Segment>, delivered: seq<nat>, poisoned: seq<Poisoned>) {
    multiset(delivered) + multiset(RowsOf(poisoned)) + RowsIn(queue) == multiset(rows)
  }

  ghost predicate QueueSkips(log: seq<Attempt>, queue: seq<Segment>) {
    forall s :: s in queue ==> s.rows != [] && SkipsWhatIsWritten(log, s.rows, s.skip)
  }

  ghost predicate FailedAlone(log: seq<Attempt>, poisoned: seq<Poisoned>) {
    forall p :: p in poisoned ==>
      (exists a :: a in log && a.rows == [p.row] && !a.outcome.ok) && SkipsWhatIsWritten(log, [p.row], p.succeeded)
  }

  /** The rows of a popped segment are in no other segment. */
  lemma PoppedApart(rows: seq<nat>, first: Segment, rest: seq<Segment>, delivered: seq<nat>, poisoned: seq<Poisoned>, s: seq<nat>)
    requires Distinct(rows) && Accounts(rows, [first] + rest, delivered, poisoned)
    requires (exists t :: t in rest && t.rows == s) || (exists p :: p in poisoned && s == [p.row])
    ensures forall x :: x in first.rows ==> x !in s
  {
    RowsConcat([first], rest);
    assert RowsIn([first]) == multiset(first.rows) + RowsIn([]);
    forall x ensures multiset(rows)[x] <= 1 {
      DistinctOnce(rows, x);
    }
    if t :| t in rest && t.rows == s {
      SegmentRows(rest, t);
    } else {
      var p :| p in poisoned && s == [p.row];
      var i :| 0 <= i < |poisoned| && poisoned[i] == p;
      assert RowsOf(poisoned)[i] == p.row;
      assert multiset(s) <= multiset(RowsOf(poisoned));
    }
    Apart(first.rows, s, multiset(rows));
  }

  /** After an attempt on rows apart from `rows`, nothing has changed for them. */
  lemma ApartStillSkips(log: seq<Attempt>, a: Attempt, rows: seq<nat>, skip: set<Target>)
    requires SkipsWhatIsWritten(log, rows, skip) && forall x :: x in a.rows ==> x !in rows
    ensures SkipsWhatIsWritten(log + [a], rows, skip)
  {
  }

  lemma LoggedOnce(log: seq<Attempt>, a: Attempt)
    requires WritesOnce(log) && SkipsWhatIsWritten(log, a.rows, a.skip)
    ensures WritesOnce(log + [a])
  {
    var grown := log + [a];
    forall i, j | 0 <= i < j < |grown| ensures SkipsWhatIsWritten([grown[i]], grown[j].rows, grown[j].skip) {
      if j == |log| {
        assert log[i] in log;
      } else {
        assert SkipsWhatIsWritten([log[i]], log[j].rows, log[j].skip);
      }
    }
  }

  /** Everything else in the queue and among the poisoned is untouched by an attempt on the popped segment. */
  lemma OthersUntouched(rows: seq<nat>, first: Segment, rest: seq<Segment>, delivered: seq<nat>, poisoned: seq<Poisoned>,
                        log: seq<Attempt>, a: Attempt)
    requires Distinct(rows) && Accounts(rows, [first] + rest, delivered, poisoned) && a.rows == first.rows
    requires QueueSkips(log, [first] + rest) && FailedAlone(log, poisoned)
    ensures QueueSkips(log + [a], rest) && FailedAlone(log + [a], poisoned)
  {
    forall t | t in rest ensures t.rows != [] && SkipsWhatIsWritten(log + [a], t.rows, t.skip) {
      assert t in [first] + rest;
      PoppedApart(rows, first, rest, delivered, poisoned, t.rows);
      ApartStillSkips(log, a, t.rows, t.skip);
    }
    forall p | p in poisoned
      ensures exists b :: b in log + [a] && b.rows == [p.row] && !b.outcome.ok
      ensures SkipsWhatIsWritten(log + [a], [p.row], p.succeeded)
    {
      var b :| b in log && b.rows == [p.row] && !b.outcome.ok;
      assert b in log + [a];
      PoppedApart(rows, first, rest, delivered, poisoned, [p.row]);
      ApartStillSkips(log, a, [p.row], p.succeeded);
    }
  }

  /** The search between two attempts. */
  ghost predicate Searching(rows: seq<nat>, queue: seq<Segment>, delivered: seq<nat>, poisoned: seq<Poisoned>,
                            log: seq<Attempt>, already: set<Target>)
  {
    && Distinct(rows)
    && Accounts(rows, queue, delivered, poisoned)
    && QueueSkips(log, queue) && FailedAlone(log, poisoned)
    && delivered == Delivered(log) && WritesOnce(log)
    && (forall s :: s in queue ==> already <= s.skip)
    && (forall a :: a in log ==> already <= a.skip && forall x :: x in a.rows ==> x in rows)
  }

  lemma Regroup(d: multiset<nat>, p: multiset<nat>, first: multiset<nat>, rest: multiset<nat>)
    ensures d + p + (first + rest) == d + p + (rest + first)
    ensures d + p + (first + rest) == (d + first) + p + rest
    ensures d + p + (first + rest) == d + (p + first) + rest
  {
  }

  /** A marked group of several rows is cut in two untried. */
  lemma SplitUntried(rows: seq<nat>, first: Segment, rest: seq<Segment>, delivered: seq<nat>, poisoned: seq<Poisoned>,
                     log: seq<Attempt>, already: set<Target>, skip: set<Target>, id: nat)
    requires Searching(rows, [first] + rest, delivered, poisoned, log, already)
    requires |first.rows| > 1 && first.skip <= skip && SkipsWhatIsWritten(log, first.rows, skip)
    ensures var queue := rest + Halves(first.rows, skip, id);
            && Searching(rows, queue, delivered, poisoned, log, already)
            && Work(queue) < Work([first] + rest)
  {
    var halves := Halves(first.rows, skip, id);
    assert forall s :: s in [first] + rest <==> s == first || s in rest;
    SplitKeeps(log, first, skip, id);
    SameRowsLessWork(first, rest, skip, id);
    Regroup(multiset(delivered), multiset(RowsOf(poisoned)), multiset(first.rows), RowsIn(rest));
  }

  lemma SameRowsLessWork(first: Segment, rest: seq<Segment>, skip: set<Target>, id: nat)
    requires |first.rows| > 1 && forall s :: s in [first] + rest ==> s.rows != []
    ensures var queue := rest + Halves(first.rows, skip, id);
            && RowsIn([first] + rest) == multiset(first.rows) + RowsIn(rest)
            && RowsIn(queue) == RowsIn(rest) + multiset(first.rows)
            && (forall s :: s in queue ==> s.rows != []) && Work(queue) < Work([first] + rest)
  {
    Appended([first], rest);
    Appended(rest, Halves(first.rows, skip, id));
    HalvesRows(first.rows, skip, id);
    One(first);
  }

  lemma One(first: Segment)
    requires first.rows != []
    ensures RowsIn([first]) == multiset(first.rows) && Work([first]) == 2 * |first.rows| - 1
  {
    assert RowsIn([first]) == multiset(first.rows) + RowsIn([]);
    assert Work([first]) == 2 * |first.rows| - 1 + Work([]);
  }

  /** An attempt on the popped group, before anything is made of its outcome. */
  lemma Tried(rows: seq<nat>, first: Segment, rest: seq<Segment>, delivered: seq<nat>, poisoned: seq<Poisoned>,
              log: seq<Attempt>, already: set<Target>, outcome: Outcome)
    requires Searching(rows, [first] + rest, delivered, poisoned, log, already)
    ensures var grown := log + [Attempt(first.rows, first.skip, outcome)];
            && WritesOnce(grown) && QueueSkips(grown, rest) && FailedAlone(grown, poisoned)
            && Delivered(grown) == delivered + (if outcome.ok then first.rows else [])
            && (forall a :: a in grown ==> already <= a.skip && forall x :: x in a.rows ==> x in rows)
            && (!outcome.ok ==> SkipsWhatIsWritten(grown, first.rows, first.skip + outcome.succeeded))
  {
    var made := Attempt(first.rows, first.skip, outcome);
    assert first in [first] + rest;
    LoggedOnce(log, made);
    OthersUntouched(rows, first, rest, delivered, poisoned, log, made);
    assert (log + [made])[..|log|] == log;
    RowsAmong(rows, first.rows, [first] + rest, delivered, poisoned);
  }

  lemma Succeeded(rows: seq<nat>, first: Segment, rest: seq<Segment>, delivered: seq<nat>, poisoned: seq<Poisoned>,
                  log: seq<Attempt>, already: set<Target>, outcome: Outcome)
    requires Searching(rows, [first] + rest, delivered, poisoned, log, already) && outcome.ok
    ensures var queue := MarkBad(rest, first.sibling);
            && Searching(rows, queue, delivered + first.rows, poisoned, log + [Attempt(first.rows, first.skip, outcome)], already)
            && Work(queue) < Work([first] + rest)
  {
    var grown := log + [Attempt(first.rows, first.skip, outcome)];
    Tried(rows, first, rest, delivered, poisoned, log, already, outcome);
    assert forall s :: s in [first] + rest <==> s == first || s in rest;
    MarkBadKeeps(rest, first.sibling);
    MarkedSkips(grown, rest, first.sibling);
    Appended([first], rest);
    One(first);
    Regroup(multiset(delivered), multiset(RowsOf(poisoned)), multiset(first.rows), RowsIn(rest));
  }

  lemma SetAside(rows: seq<nat>, first: Segment, rest: seq<Segment>, delivered: seq<nat>, poisoned: seq<Poisoned>,
                 log: seq<Attempt>, already: set<Target>, outcome: Outcome)
    requires Searching(rows, [first] + rest, delivered, poisoned, log, already) && !outcome.ok && |first.rows| == 1
    ensures Searching(rows, rest, delivered, poisoned + [Poisoned(first.rows[0], first.skip + outcome.succeeded)],
                      log + [Attempt(first.rows, first.skip, outcome)], already)
    ensures Work(rest) < Work([first] + rest)
  {
    var made := Attempt(first.rows, first.skip, outcome);
    var p := Poisoned(first.rows[0], first.skip + outcome.succeeded);
    Tried(rows, first, rest, delivered, poisoned, log, already, outcome);
    assert forall s :: s in [first] + rest <==> s == first || s in rest;
    Appended([first], rest);
    One(first);
    assert first.rows == [p.row];
    RowsOneMore(poisoned, p);
    Regroup(multiset(delivered), multiset(RowsOf(poisoned)), multiset(first.rows), RowsIn(rest));
    assert made in log + [made];
  }

  lemma SplitFailed(rows: seq<nat>, first: Segment, rest: seq<Segment>, delivered: seq<nat>, poisoned: seq<Poisoned>,
                    log: seq<Attempt>, already: set<Target>, outcome: Outcome, id: nat)
    requires Searching(rows, [first] + rest, delivered, poisoned, log, already) && !outcome.ok && |first.rows| > 1
    ensures var queue := rest + Halves(first.rows, first.skip + outcome.succeeded, id);
            && Searching(rows, queue, delivered, poisoned, log + [Attempt(first.rows, first.skip, outcome)], already)
            && Work(queue) < Work([first] + rest)
  {
    var grown := log + [Attempt(first.rows, first.skip, outcome)];
    Tried(rows, first, rest, delivered, poisoned, log, already, outcome);
    assert forall s :: s in [first] + rest <==> s == first || s in rest;
    assert Searching(rows, [first.(skip := first.skip + outcome.succeeded)] + rest, delivered, poisoned, grown, already) by {
      var wider := first.(skip := first.skip + outcome.succeeded);
      assert forall s :: s in [wider] + rest <==> s == wider || s in rest;
      Appended([first], rest);
      Appended([wider], rest);
      One(first);
      One(wider);
    }
    SplitUntried(rows, first.(skip := first.skip + outcome.succeeded), rest, delivered, poisoned, grown, already,
                 first.skip + outcome.succeeded, id);
    Appended([first], rest);
    Appended([first.(skip := first.skip + outcome.succeeded)], rest);
    One(first);
    One(first.(skip := first.skip + outcome.succeeded));
  }

  lemma Start(rows: seq<nat>, already: set<Target>)
    requires Distinct(rows) && |rows| > 1
    ensures Searching(rows, Halves(rows, already, 0), [], [], [], already)
  {
    HalvesRows(rows, already, 0);
    assert RowsOf([]) == [];
  }

  lemma Concluded(rows: seq<nat>, queue: seq<Segment>, delivered: seq<nat>, poisoned: seq<Poisoned>,
                  log: seq<Attempt>, already: set<Target>)
    requires Searching(rows, queue, delivered, poisoned, log, already)
    ensures delivered == Delivered(log) && WritesOnce(log) && FailedAlone(log, poisoned)
    ensures queue == [] ==> multiset(delivered) + multiset(RowsOf(poisoned)) == multiset(rows)
    ensures forall a :: a in log ==> already <= a.skip && forall x :: x in a.rows ==> x in rows
  {
    if queue == [] {
      assert RowsIn(queue) == multiset{};
    }
  }

  /** What an attempt on the popped group makes of the search. */
  method Settle(
    ghost rows: seq<nat>, segment: Segment, rest: seq<Segment>, delivered: seq<nat>, poisoned: seq<Poisoned>,
    ghost log: seq<Attempt>, ghost already: set<Target>, outcome: Outcome, nextId: nat)
    returns (queue: seq<Segment>, nowDelivered: seq<nat>, nowPoisoned: seq<Poisoned>)
    requires Searching(rows, [segment] + rest, delivered, poisoned, log, already)
    ensures Searching(rows, queue, nowDelivered, nowPoisoned, log + [Attempt(segment.rows, segment.skip, outcome)], already)
    ensures Work(queue) < Work([segment] + rest)
    ensures outcome.ok ==> nowDelivered != [] && nowPoisoned == poisoned
    ensures !outcome.ok ==> nowDelivered == delivered
  {
    nowDelivered, nowPoisoned := delivered, poisoned;
    assert segment in [segment] + rest;
    if outcome.ok {
      Succeeded(rows, segment, rest, delivered, poisoned, log, already, outcome);
      nowDelivered := delivered + segment.rows;
      queue := MarkBad(rest, segment.sibling);
      return;
    }
    var skip := segment.skip + outcome.succeeded;
    if |segment.rows| == 1 {
      SetAside(rows, segment, rest, delivered, poisoned, log, already, outcome);
      nowPoisoned := poisoned + [Poisoned(segment.rows[0], skip)];
      queue := rest;
      return;
    }
    SplitFailed(rows, segment, rest, delivered, poisoned, log, already, outcome, nextId);
    queue := rest + Halves(segment.rows, skip, nextId);
  }

  /** The outcome of an attempt, and the attempt put on record. */
  method Record(
    ghost rows: seq<nat>, segment: Segment, rest: seq<Segment>, delivered: seq<nat>, poisoned: seq<Poisoned>,
    log: seq<Attempt>, ghost already: set<Target>, outcome: Outcome, nextId: nat)
    returns (queue: seq<Segment>, nowDelivered: seq<nat>, nowPoisoned: seq<Poisoned>, nowLog: seq<Attempt>)
    requires Searching(rows, [segment] + rest, delivered, poisoned, log, already)
    ensures Searching(rows, queue, nowDelivered, nowPoisoned, nowLog, already) && |nowLog| == |log| + 1
    ensures Work(queue) < Work([segment] + rest)
    ensures if outcome.ok then nowDelivered != [] && nowPoisoned == poisoned else nowDelivered == delivered
  {
    queue, nowDelivered, nowPoisoned := Settle(rows, segment, rest, delivered, poisoned, log, already, outcome, nextId);
    nowLog := log + [Attempt(segment.rows, segment.skip, outcome)];
  }

  /** Search `rows`. `attempt` tells how the n-th delivery of a group goes, skipping some targets. A systemic answer
  promises nothing of the rows in it. Otherwise every row is either delivered by an attempt that succeeded, or failed
  in an attempt of its own, and no row or target is written twice on the way. */
  method IsolateFailures(
    rows: seq<nat>, attempt: (seq<nat>, set<Target>, nat) -> Outcome, already: set<Target>,
    maxAttempts: nat, maxPoisoned: nat, failuresBeforeSystemic: nat)
    returns (found: Found, log: seq<Attempt>)
    requires Distinct(rows)
    ensures found.delivered == Delivered(log) && WritesOnce(log)
    ensures |rows| > 1 ==> found.attempts == |log| <= maxAttempts
    ensures !found.systemic ==>
              multiset(found.delivered) + multiset(RowsOf(found.poisoned)) == multiset(rows)
    ensures !found.systemic && |rows| > 1 ==> FailedAlone(log, found.poisoned) && |found.poisoned| <= maxPoisoned
    ensures |rows| <= 1 ==> !found.systemic && found.delivered == [] && RowsOf(found.poisoned) == rows
    ensures !found.systemic && |rows| > 1 && found.delivered == [] ==> found.attempts < failuresBeforeSystemic
    ensures forall a :: a in log ==> already <= a.skip && forall x :: x in a.rows ==> x in rows
  {
    if |rows| > 1 {
      found, log := Search(rows, attempt, already, maxAttempts, maxPoisoned, failuresBeforeSystemic);
      return;
    }
    var poisoned := if |rows| == 1 then [Poisoned(rows[0], already)] else []; // nothing to search
    assert RowsOf(poisoned) == rows;
    found, log := Found([], poisoned, false, 0), [];
  }

  method Search(
    rows: seq<nat>, attempt: (seq<nat>, set<Target>, nat) -> Outcome, already: set<Target>,
    maxAttempts: nat, maxPoisoned: nat, failuresBeforeSystemic: nat)
    returns (found: Found, log: seq<Attempt>)
    requires Distinct(rows) && |rows| > 1
    ensures found.delivered == Delivered(log) && WritesOnce(log) && found.attempts == |log| <= maxAttempts
    ensures !found.systemic ==>
              && multiset(found.delivered) + multiset(RowsOf(found.poisoned)) == multiset(rows)
              && FailedAlone(log, found.poisoned) && |found.poisoned| <= maxPoisoned
              && (found.delivered == [] ==> found.attempts < failuresBeforeSystemic)
    ensures forall a :: a in log ==> already <= a.skip && forall x :: x in a.rows ==> x in rows
  {
    log := [];
    var delivered: seq<nat> := [];
    var poisoned: seq<Poisoned> := [];
    var successes, systemic, nextId := 0, false, 2;
    var queue := Halves(rows, already, 0);
    Start(rows, already);
    while queue != []
      invariant Searching(rows, queue, delivered, poisoned, log, already)
      invariant |log| <= maxAttempts && |poisoned| <= maxPoisoned
      invariant successes == 0 ==> |log| == 0 || |log| < failuresBeforeSystemic
      invariant successes > 0 ==> delivered != []
      invariant !systemic && (queue == [] ==> log != [])
      decreases Work(queue)
    {
      var segment, rest := queue[0], queue[1..];
      assert queue == [segment] + rest;
      if segment.knownBad && |segment.rows| > 1 {
        SplitUntried(rows, segment, rest, delivered, poisoned, log, already, segment.skip, nextId);
        queue := rest + Halves(segment.rows, segment.skip, nextId);
        nextId := nextId + 2;
        continue;
      }
      if |log| >= maxAttempts {
        systemic := true;
        break;
      }
      var outcome := attempt(segment.rows, segment.skip, |log|);
      queue, delivered, poisoned, log := Record(rows, segment, rest, delivered, poisoned, log, already, outcome, nextId);
      nextId := nextId + 2;
      successes := successes + if outcome.ok then 1 else 0;
      if (successes == 0 && |log| >= failuresBeforeSystemic) || |poisoned| > maxPoisoned {
        systemic := true; // every attempt failed, or too many rows are failing
        break;
      }
    }
    Concluded(rows, queue, delivered, poisoned, log, already);
    found := Found(delivered, poisoned, systemic, |log|);
  }

  lemma Appended(rest: seq<Segment>, halves: seq<Segment>)
    requires forall s :: s in rest + halves ==> s.rows != []
    ensures (forall s :: s in rest ==> s.rows != []) && (forall s :: s in halves ==> s.rows != [])
    ensures RowsIn(rest + halves) == RowsIn(rest) + RowsIn(halves)
    ensures Work(rest + halves) == Work(rest) + Work(halves)
  {
    RowsConcat(rest, halves);
    WorkConcat(rest, halves);
  }

  lemma SplitKeeps(log: seq<Attempt>, segment: Segment, skip: set<Target>, id: nat)
    requires |segment.rows| > 1 && SkipsWhatIsWritten(log, segment.rows, skip)
    ensures QueueSkips(log, Halves(segment.rows, skip, id))
  {
    var h := Halves(segment.rows, skip, id);
    forall s | s in h ensures s.rows != [] && SkipsWhatIsWritten(log, s.rows, s.skip) {
      assert forall x :: x in s.rows ==> x in h[0].rows + h[1].rows;
    }
  }

  lemma {:induction false} MarkedSkips(log: seq<Attempt>, queue: seq<Segment>, id: nat)
    requires QueueSkips(log, queue)
    ensures QueueSkips(log, MarkBad(queue, id))
    ensures forall s :: s in MarkBad(queue, id) ==> exists t :: t in queue && t.skip == s.skip
  {
    var marked := MarkBad(queue, id);
    forall s | s in marked
      ensures s.rows != [] && SkipsWhatIsWritten(log, s.rows, s.skip)
      ensures exists t :: t in queue && t.skip == s.skip
    {
      var i :| 0 <= i < |marked| && marked[i] == s;
      assert queue[i] in queue;
    }
  }

  lemma RowsAmong(rows: seq<nat>, some: seq<nat>, queue: seq<Segment>, delivered: seq<nat>, poisoned: seq<Poisoned>)
    requires Accounts(rows, queue, delivered, poisoned) && queue != [] && queue[0].rows == some
    ensures forall x :: x in some ==> x in rows
  {
    forall x | x in some ensures x in rows {
      assert x in multiset(some);
      assert multiset(rows)[x] >= multiset(some)[x];
      assert x in multiset(rows);
    }
  }
}
