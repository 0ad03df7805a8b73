/** Verifying a destination against its source, and reconciling it: two passes, in pages and recheck batches,
that must come to the exact set differences. Both ends are static but for the repairs themselves; keys have
no NULL in them, and no two source rows are written under one key. */
module Verify {
  import opened Changes
  import opened KeysetPages

  /** A table by key. A key is compared as a whole, however many columns it has. */
  type Keyed = map<Tuple, Row>

  datatype SourceRow = SourceRow(key: Tuple, cells: Row)

  const RECHECK_BATCH: nat := 500
  const FETCH_LIMIT: nat := 1000

  /* ----- looking rows up by key ----- */

  /** One `IN` per key column: for a composite key that lets more rows through than were asked for. */
  predicate InEachColumn(key: Tuple, wanted: seq<Tuple>) {
    forall i :: 0 <= i < |key| ==> exists w :: w in wanted && i < |w| && w[i] == key[i]
  }

  /** What the server lists for the filters: the rows let through, each once, in some fixed order. */
  predicate IsListing(table: Keyed, wanted: seq<Tuple>, listing: seq<(Tuple, Row)>) {
    && (forall p :: p in listing ==> p.0 in table && p.1 == table[p.0] && InEachColumn(p.0, wanted))
    && (forall k :: k in table && InEachColumn(k, wanted) ==> (k, table[k]) in listing)
    && (forall i, j :: 0 <= i < j < |listing| ==> listing[i].0 != listing[j].0)
  }

  function Restricted(table: Keyed, wanted: seq<Tuple>): Keyed {
    map k | k in table && k in wanted :: table[k]
  }

  /** What the first `n` listed rows come to, matched exactly. */
  function Collected(listing: seq<(Tuple, Row)>, wanted: seq<Tuple>, n: nat): Keyed
    requires n <= |listing|
  {
    if n == 0 then map[]
    else
      var before, p := Collected(listing, wanted, n - 1), listing[n - 1];
      if p.0 in wanted then before[p.0 := p.1] else before
  }

  lemma {:induction false} CollectedHolds(listing: seq<(Tuple, Row)>, wanted: seq<Tuple>, table: Keyed, n: nat)
    requires n <= |listing| && forall p :: p in listing ==> p.0 in table && p.1 == table[p.0]
    ensures forall k :: k in Collected(listing, wanted, n) ==> k in wanted && k in table && Collected(listing, wanted, n)[k] == table[k]
    ensures forall j :: 0 <= j < n && listing[j].0 in wanted ==> listing[j].0 in Collected(listing, wanted, n)
    decreases n
  {
    if n > 0 {
      assert listing[n - 1] in listing;
      CollectedHolds(listing, wanted, table, n - 1);
    }
  }

  lemma CollectedIsRestricted(table: Keyed, wanted: seq<Tuple>, listing: seq<(Tuple, Row)>)
    requires IsListing(table, wanted, listing)
    ensures Collected(listing, wanted, |listing|) == Restricted(table, wanted)
  {
    CollectedHolds(listing, wanted, table, |listing|);
    forall k | k in table && k in wanted ensures k in Collected(listing, wanted, |listing|) {
      assert InEachColumn(k, wanted);
      assert (k, table[k]) in listing;
    }
  }

  /** Look rows up by key: of what the server lists, only exact matches are kept. */
  method FetchByKeys(ghost table: Keyed, wanted: seq<Tuple>, listing: seq<(Tuple, Row)>) returns (out: Keyed)
    requires IsListing(table, wanted, listing)
    ensures out == Restricted(table, wanted)
  {
    out := map[];
    var offset := 0;
    while offset < |listing|
      invariant 0 <= offset <= |listing| && out == Collected(listing, wanted, offset)
    {
      var end := if offset + FETCH_LIMIT < |listing| then offset + FETCH_LIMIT else |listing|;
      while offset < end
        invariant offset <= end <= |listing| && out == Collected(listing, wanted, offset)
      {
        if listing[offset].0 in wanted {
          out := out[listing[offset].0 := listing[offset].1];
        }
        offset := offset + 1;
      }
    }
    CollectedIsRestricted(table, wanted, listing);
  }

  /* ----- what is wrong with a target ----- */

  /** How the bridge writes a source row, and when a row that is there counts as the same. */
  datatype Rules = Rules(mapped: SourceRow -> SourceRow, same: (Row, Row) -> bool, keyIsTransformed: bool)

  predicate Apart(rules: Rules, a: SourceRow, b: SourceRow) {
    rules.mapped(a).key == rules.mapped(b).key ==> a.key == b.key
  }

  predicate ReadBack(rules: Rules, cells: Row, row: Option<Row>) {
    rules.same(cells, Overlay(row, cells))
  }

  predicate KeyKept(rules: Rules, a: SourceRow) {
    rules.keyIsTransformed || rules.mapped(a).key == a.key
  }

  /** Keys stay apart, an untransformed key stays the source's, and what is written is found the same. */
  ghost predicate Sound(rules: Rules) {
    && (forall a, b :: Apart(rules, a, b))
    && (forall a :: KeyKept(rules, a))
    && (forall cells, row :: ReadBack(rules, cells, row))
  }

  predicate Good(rules: Rules, r: SourceRow, table: Keyed) {
    var m := rules.mapped(r);
    m.key in table && rules.same(m.cells, table[m.key])
  }

  predicate IsMissing(rules: Rules, r: SourceRow, table: Keyed) {
    rules.mapped(r).key !in table
  }

  /** The rows among `rows` that are not as they should be. */
  function Wrong(rules: Rules, rows: seq<SourceRow>, table: Keyed): seq<SourceRow> {
    if rows == [] then []
    else (if Good(rules, rows[0], table) then [] else [rows[0]]) + Wrong(rules, rows[1..], table)
  }

  function MissingCount(rules: Rules, rows: seq<SourceRow>, table: Keyed): nat {
    if rows == [] then 0
    else (if IsMissing(rules, rows[0], table) then 1 else 0) + MissingCount(rules, rows[1..], table)
  }

  function DifferentCount(rules: Rules, rows: seq<SourceRow>, table: Keyed): nat {
    if rows == [] then 0
    else (if !IsMissing(rules, rows[0], table) && !Good(rules, rows[0], table) then 1 else 0)
         + DifferentCount(rules, rows[1..], table)
  }

  /** Upserting rows, one over the other. */
  function Written(rules: Rules, rows: seq<SourceRow>, table: Keyed): Keyed
    decreases |rows|
  {
    if rows == [] then table
    else
      var m := rules.mapped(rows[0]);
      Written(rules, rows[1..], table[m.key := Overlay(if m.key in table then Some(table[m.key]) else None, m.cells)])
  }

  predicate DistinctRows(rows: seq<SourceRow>) {
    forall i, j :: 0 <= i < j < |rows| ==> rows[i].key != rows[j].key
  }

  lemma {:induction false} WrongConcat(rules: Rules, a: seq<SourceRow>, b: seq<SourceRow>, table: Keyed)
    ensures Wrong(rules, a + b, table) == Wrong(rules, a, table) + Wrong(rules, b, table)
    ensures MissingCount(rules, a + b, table) == MissingCount(rules, a, table) + MissingCount(rules, b, table)
    ensures DifferentCount(rules, a + b, table) == DifferentCount(rules, a, table) + DifferentCount(rules, b, table)
    decreases |a|
  {
    if a == [] {
      assert a + b == b;
    } else {
      assert (a + b)[1..] == a[1..] + b;
      WrongConcat(rules, a[1..], b, table);
      var first := if Good(rules, a[0], table) then [] else [a[0]];
      assert first + (Wrong(rules, a[1..], table) + Wrong(rules, b, table)) == first + Wrong(rules, a[1..], table) + Wrong(rules, b, table);
    }
  }

  /** Only wrong rows count, so counting the wrong ones counts them all. */
  lemma {:induction false} WrongCounts(rules: Rules, rows: seq<SourceRow>, table: Keyed)
    ensures MissingCount(rules, Wrong(rules, rows, table), table) == MissingCount(rules, rows, table)
    ensures DifferentCount(rules, Wrong(rules, rows, table), table) == DifferentCount(rules, rows, table)
    ensures forall r :: r in Wrong(rules, rows, table) <==> r in rows && !Good(rules, r, table)
    decreases |rows|
  {
    if rows != [] {
      WrongCounts(rules, rows[1..], table);
      assert forall r :: r in rows <==> r == rows[0] || r in rows[1..];
      if !Good(rules, rows[0], table) {
        assert Wrong(rules, rows, table)[1..] == Wrong(rules, rows[1..], table);
      } else {
        assert Wrong(rules, rows, table) == Wrong(rules, rows[1..], table);
      }
    }
  }

  function Found(table: Keyed, k: Tuple): Option<Row> {
    if k in table then Some(table[k]) else None
  }

  /** Two tables that agree on the rows' keys find the same things wrong. */
  lemma {:induction false} SameVerdicts(rules: Rules, rows: seq<SourceRow>, a: Keyed, b: Keyed)
    requires forall r :: r in rows ==> Found(a, rules.mapped(r).key) == Found(b, rules.mapped(r).key)
    ensures Wrong(rules, rows, a) == Wrong(rules, rows, b)
    ensures MissingCount(rules, rows, a) == MissingCount(rules, rows, b)
    ensures DifferentCount(rules, rows, a) == DifferentCount(rules, rows, b)
    decreases |rows|
  {
    if rows != [] {
      assert rows[0] in rows && forall r :: r in rows[1..] ==> r in rows;
      assert Found(a, rules.mapped(rows[0]).key) == Found(b, rules.mapped(rows[0]).key);
      SameVerdicts(rules, rows[1..], a, b);
    }
  }

  lemma {:induction false} WrittenElsewhere(rules: Rules, rows: seq<SourceRow>, table: Keyed, k: Tuple)
    requires forall r :: r in rows ==> rules.mapped(r).key != k
    ensures Found(Written(rules, rows, table), k) == Found(table, k)
    decreases |rows|
  {
    if rows != [] {
      assert rows[0] in rows && forall r :: r in rows[1..] ==> r in rows;
      var m := rules.mapped(rows[0]);
      WrittenElsewhere(rules, rows[1..], table[m.key := Overlay(if m.key in table then Some(table[m.key]) else None, m.cells)], k);
    }
  }

  /** The first row's key is no other row's. */
  lemma FirstApart(rules: Rules, rows: seq<SourceRow>)
    requires Sound(rules) && DistinctRows(rows) && rows != []
    ensures DistinctRows(rows[1..]) && forall r :: r in rows[1..] ==> rules.mapped(r).key != rules.mapped(rows[0]).key
  {
    assert forall i :: 0 <= i < |rows[1..]| ==> rows[1..][i] == rows[i + 1];
    forall r | r in rows[1..] ensures rules.mapped(r).key != rules.mapped(rows[0]).key {
      var j :| 0 <= j < |rows[1..]| && rows[1..][j] == r;
      assert rows[0].key != rows[j + 1].key;
      assert Apart(rules, r, rows[0]);
    }
  }

  /** A written row is as it should be. */
  lemma {:induction false} WrittenIsGood(rules: Rules, rows: seq<SourceRow>, table: Keyed, r: SourceRow)
    requires Sound(rules) && DistinctRows(rows) && r in rows
    ensures Good(rules, r, Written(rules, rows, table))
    decreases |rows|
  {
    var m := rules.mapped(rows[0]);
    var was := if m.key in table then Some(table[m.key]) else None;
    var next := table[m.key := Overlay(was, m.cells)];
    FirstApart(rules, rows);
    if r == rows[0] {
      WrittenElsewhere(rules, rows[1..], next, m.key);
      assert Found(Written(rules, rows[1..], next), m.key) == Some(Overlay(was, m.cells));
      assert ReadBack(rules, m.cells, was);
    } else {
      WrittenIsGood(rules, rows[1..], next, r);
    }
  }

  /** Writing other rows leaves a good one good. */
  lemma GoodStays(rules: Rules, rows: seq<SourceRow>, table: Keyed, r: SourceRow)
    requires Sound(rules) && Good(rules, r, table) && forall s :: s in rows ==> s.key != r.key
    ensures Good(rules, r, Written(rules, rows, table))
  {
    forall s | s in rows ensures rules.mapped(s).key != rules.mapped(r).key {
      assert Apart(rules, s, r);
    }
    WrittenElsewhere(rules, rows, table, rules.mapped(r).key);
  }

  /* ----- the counts are the set differences ----- */

  function MappedKeys(rules: Rules, rows: seq<SourceRow>): set<Tuple> {
    set r | r in rows :: rules.mapped(r).key
  }

  function DifferentKeys(rules: Rules, rows: seq<SourceRow>, table: Keyed): set<Tuple> {
    set r | r in rows && !IsMissing(rules, r, table) && !Good(rules, r, table) :: rules.mapped(r).key
  }

  function MissingKeys(rules: Rules, rows: seq<SourceRow>, table: Keyed): set<Tuple> {
    set r | r in rows && IsMissing(rules, r, table) :: rules.mapped(r).key
  }

  lemma MissingKeysAreADifference(rules: Rules, rows: seq<SourceRow>, table: Keyed)
    ensures MissingKeys(rules, rows, table) == MappedKeys(rules, rows) - table.Keys
  {
  }

  /** A comprehension over one more row. */
  lemma OneMoreKey(rules: Rules, rows: seq<SourceRow>, table: Keyed)
    requires rows != []
    ensures var k := rules.mapped(rows[0]).key;
            && MissingKeys(rules, rows, table) ==
                 MissingKeys(rules, rows[1..], table) + (if IsMissing(rules, rows[0], table) then {k} else {})
            && DifferentKeys(rules, rows, table) ==
                 DifferentKeys(rules, rows[1..], table)
                 + (if !IsMissing(rules, rows[0], table) && !Good(rules, rows[0], table) then {k} else {})
  {
    assert forall r :: r in rows <==> r == rows[0] || r in rows[1..];
  }

  lemma {:induction false} MissingIsADifference(rules: Rules, rows: seq<SourceRow>, table: Keyed)
    requires Sound(rules) && DistinctRows(rows)
    ensures MissingCount(rules, rows, table) == |MissingKeys(rules, rows, table)|
    decreases |rows|
  {
    if rows != [] {
      var k, rest := rules.mapped(rows[0]).key, MissingKeys(rules, rows[1..], table);
      FirstApart(rules, rows);
      MissingIsADifference(rules, rows[1..], table);
      OneMoreKey(rules, rows, table);
      assert k !in rest;
    }
  }

  lemma {:induction false} DifferentIsADifference(rules: Rules, rows: seq<SourceRow>, table: Keyed)
    requires Sound(rules) && DistinctRows(rows)
    ensures DifferentCount(rules, rows, table) == |DifferentKeys(rules, rows, table)|
    decreases |rows|
  {
    if rows != [] {
      var k, rest := rules.mapped(rows[0]).key, DifferentKeys(rules, rows[1..], table);
      FirstApart(rules, rows);
      DifferentIsADifference(rules, rows[1..], table);
      OneMoreKey(rules, rows, table);
      assert k !in rest;
    }
  }

  /* ----- one target, while it is being verified ----- */

  datatype Options = Options(fix: bool, deleteExtra: bool, pageSize: nat)

  /** How far pass 1 has come over the rows read so far, from the table as it was. */
  ghost predicate Compared(rules: Rules, source: seq<SourceRow>, n: nat, before: Keyed, table: Keyed,
                           suspects: seq<SourceRow>, missing: nat, different: nat, fix: bool, failed: nat)
    requires n <= |source|
  {
    var seen := source[..n];
    && suspects == Wrong(rules, suspects, table) && DistinctRows(suspects)
    && (forall r :: r in suspects ==> r in seen)
    && missing + MissingCount(rules, suspects, table) == MissingCount(rules, seen, before)
    && different + DifferentCount(rules, suspects, table) == DifferentCount(rules, seen, before)
    && (forall k :: k !in MappedKeys(rules, seen) ==> Found(table, k) == Found(before, k))
    && (before.Keys <= table.Keys <= before.Keys + MappedKeys(rules, seen))
    && (!fix ==> table == before)
    && (fix && failed == 0 ==> forall r :: r in seen && r !in suspects ==> Good(rules, r, table))
  }

  /** A page: what looks wrong in it becomes a suspect. */
  lemma PageCompared(rules: Rules, source: seq<SourceRow>, n: nat, m: nat, before: Keyed, table: Keyed,
                     suspects: seq<SourceRow>, missing: nat, different: nat, fix: bool, failed: nat)
    requires Sound(rules) && DistinctRows(source) && n <= m <= |source|
    requires Compared(rules, source, n, before, table, suspects, missing, different, fix, failed)
    ensures Compared(rules, source, m, before, table, suspects + Wrong(rules, source[n..m], table), missing, different, fix, failed)
  {
    var seen, page := source[..n], source[n..m];
    var wrong := Wrong(rules, page, table);
    assert source[..m] == seen + page;
    WrongCounts(rules, page, table);
    WrongConcat(rules, suspects, wrong, table);
    WrongConcat(rules, seen, page, before);
    WrongTwice(rules, page, table);
    forall r | r in page ensures Found(table, rules.mapped(r).key) == Found(before, rules.mapped(r).key) {
      NotSeenYet(rules, source, n, m, r);
    }
    SameVerdicts(rules, page, table, before);
    DistinctSuspects(rules, source, n, m, suspects, table);
    assert MappedKeys(rules, source[..m]) == MappedKeys(rules, seen) + MappedKeys(rules, page);
  }

  lemma WrongTwice(rules: Rules, rows: seq<SourceRow>, table: Keyed)
    ensures Wrong(rules, Wrong(rules, rows, table), table) == Wrong(rules, rows, table)
    decreases |rows|
  {
    if rows != [] {
      WrongTwice(rules, rows[1..], table);
      if !Good(rules, rows[0], table) {
        assert Wrong(rules, rows, table)[1..] == Wrong(rules, rows[1..], table);
      } else {
        assert Wrong(rules, rows, table) == Wrong(rules, rows[1..], table);
      }
    }
  }

  lemma NotSeenYet(rules: Rules, source: seq<SourceRow>, n: nat, m: nat, r: SourceRow)
    requires Sound(rules) && DistinctRows(source) && n <= m <= |source| && r in source[n..m]
    ensures rules.mapped(r).key !in MappedKeys(rules, source[..n])
  {
    var j :| 0 <= j < |source[n..m]| && source[n..m][j] == r;
    forall s | s in source[..n] ensures rules.mapped(s).key != rules.mapped(r).key {
      var i :| 0 <= i < |source[..n]| && source[..n][i] == s;
      assert source[i].key != source[n + j].key;
      assert Apart(rules, s, r);
    }
  }

  lemma {:induction false} WrongDistinct(rules: Rules, rows: seq<SourceRow>, table: Keyed)
    requires DistinctRows(rows)
    ensures DistinctRows(Wrong(rules, rows, table))
    decreases |rows|
  {
    if rows != [] {
      var rest := rows[1..];
      assert forall i :: 0 <= i < |rest| ==> rest[i] == rows[i + 1];
      WrongDistinct(rules, rest, table);
      WrongCounts(rules, rest, table);
      forall r | r in Wrong(rules, rest, table) ensures r.key != rows[0].key {
        var j :| 0 <= j < |rest| && rest[j] == r;
      }
    }
  }

  lemma DistinctSuspects(rules: Rules, source: seq<SourceRow>, n: nat, m: nat, suspects: seq<SourceRow>, table: Keyed)
    requires DistinctRows(source) && n <= m <= |source| && DistinctRows(suspects)
    requires forall r :: r in suspects ==> r in source[..n]
    ensures DistinctRows(suspects + Wrong(rules, source[n..m], table))
  {
    var page := source[n..m];
    assert forall i :: 0 <= i < |page| ==> page[i] == source[n + i];
    WrongDistinct(rules, page, table);
    WrongCounts(rules, page, table);
    var wrong := Wrong(rules, page, table);
    forall i, j | 0 <= i < |suspects| && 0 <= j < |wrong| ensures suspects[i].key != wrong[j].key {
      assert suspects[i] in suspects && wrong[j] in wrong;
      var a :| 0 <= a < |source[..n]| && source[..n][a] == suspects[i];
      var b :| 0 <= b < |page| && page[b] == wrong[j];
      assert source[a].key != source[n + b].key;
    }
  }

  /** What the second look does to the comparison: suspects that are wrong count, and a reconcile writes them. */
  lemma SuspectsSettled(rules: Rules, source: seq<SourceRow>, n: nat, before: Keyed, table: Keyed,
                        suspects: seq<SourceRow>, missing: nat, different: nat, fix: bool, failed: nat, written: bool,
                        nowFailed: nat)
    requires Sound(rules) && DistinctRows(source) && n <= |source| && (written ==> fix)
    requires fix && nowFailed == 0 ==> failed == 0 && (written || suspects == [])
    requires Compared(rules, source, n, before, table, suspects, missing, different, fix, failed)
    ensures Compared(rules, source, n, before, if written then Written(rules, suspects, table) else table, [],
                     missing + MissingCount(rules, suspects, table), different + DifferentCount(rules, suspects, table),
                     fix, nowFailed)
  {
    if written {
      RepairKeepsTheRest(rules, source[..n], before, table, suspects);
      if failed == 0 {
        AllGood(rules, source, n, suspects, table);
      }
    }
  }

  lemma RepairKeepsTheRest(rules: Rules, seen: seq<SourceRow>, before: Keyed, table: Keyed, suspects: seq<SourceRow>)
    requires forall r :: r in suspects ==> r in seen
    requires before.Keys <= table.Keys <= before.Keys + MappedKeys(rules, seen)
    requires forall k :: k !in MappedKeys(rules, seen) ==> Found(table, k) == Found(before, k)
    ensures var after := Written(rules, suspects, table);
            && (forall k :: k !in MappedKeys(rules, seen) ==> Found(after, k) == Found(before, k))
            && before.Keys <= after.Keys <= before.Keys + MappedKeys(rules, seen)
  {
    forall k | k !in MappedKeys(rules, seen) ensures Found(Written(rules, suspects, table), k) == Found(before, k) {
      WrittenElsewhere(rules, suspects, table, k);
    }
    WrittenKeys(rules, suspects, table);
  }

  /** Once the suspects are written, every row seen is good. */
  lemma AllGood(rules: Rules, source: seq<SourceRow>, n: nat, suspects: seq<SourceRow>, table: Keyed)
    requires Sound(rules) && DistinctRows(source) && n <= |source| && DistinctRows(suspects)
    requires forall r :: r in suspects ==> r in source[..n]
    requires forall r :: r in source[..n] && r !in suspects ==> Good(rules, r, table)
    ensures forall r :: r in source[..n] ==> Good(rules, r, Written(rules, suspects, table))
  {
    forall r | r in source[..n] ensures Good(rules, r, Written(rules, suspects, table)) {
      if r in suspects {
        WrittenIsGood(rules, suspects, table, r);
      } else {
        forall s | s in suspects ensures s.key != r.key {
          OtherRowOtherKey(source, n, s, r);
        }
        GoodStays(rules, suspects, table, r);
      }
    }
  }

  lemma OtherRowOtherKey(source: seq<SourceRow>, n: nat, s: SourceRow, r: SourceRow)
    requires DistinctRows(source) && n <= |source| && s in source[..n] && r in source[..n] && s != r
    ensures s.key != r.key
  {
    var i :| 0 <= i < n && source[i] == s;
    var j :| 0 <= j < n && source[j] == r;
    assert i < j || j < i;
  }

  lemma {:induction false} WrittenKeys(rules: Rules, rows: seq<SourceRow>, table: Keyed)
    ensures Written(rules, rows, table).Keys == table.Keys + MappedKeys(rules, rows)
    decreases |rows|
  {
    if rows != [] {
      var m := rules.mapped(rows[0]);
      var next := table[m.key := Overlay(if m.key in table then Some(table[m.key]) else None, m.cells)];
      WrittenKeys(rules, rows[1..], next);
      assert forall r :: r in rows <==> r == rows[0] || r in rows[1..];
      assert MappedKeys(rules, rows) == {m.key} + MappedKeys(rules, rows[1..]);
    }
  }

  /* ----- pass 2, key by key ----- */

  /** The keys of the destination that have been read and are not the source's. */
  function Extras(less: (Tuple, Tuple) -> bool, before: Keyed, source: Keyed, last: Option<Tuple>): set<Tuple> {
    set k | k in before && !Beyond(less, last, k) && k !in source
  }

  /** The extras found so far are counted or suspect; in a reconcile the counted ones are gone, and nothing else. */
  ghost predicate SweptBy(before: Keyed, table: Keyed, extras: set<Tuple>, suspects: set<Tuple>, extra: nat, remove: bool,
                          failed: nat)
  {
    && (forall k :: k in table ==> k in before && table[k] == before[k])
    && (forall k :: k in before && k !in extras ==> k in table)
    && suspects <= extras && (forall k :: k in suspects ==> k in table)
    && extra + |suspects| == |extras|
    && (remove && failed == 0 ==> forall k :: k in extras && k in table ==> k in suspects)
    && (!remove ==> table == before)
  }

  ghost predicate Swept(less: (Tuple, Tuple) -> bool, before: Keyed, table: Keyed, source: Keyed, last: Option<Tuple>,
                        suspects: set<Tuple>, extra: nat, remove: bool, failed: nat)
  {
    SweptBy(before, table, Extras(less, before, source, last), suspects, extra, remove, failed)
  }

  ghost predicate ListsInOrder(less: (Tuple, Tuple) -> bool, table: Keyed, rows: seq<Listed>) {
    Increasing(less, rows) && forall k :: Read(rows, k) <==> k in table
  }

  function Common(keys: seq<Tuple>, source: Keyed): set<Tuple> {
    set k | k in keys && k in source
  }

  function Strangers(keys: seq<Tuple>, source: Keyed): set<Tuple> {
    set k | k in keys && k !in source
  }

  function PageKeys(rows: seq<Listed>): seq<Tuple> {
    seq(|rows|, i requires 0 <= i < |rows| => rows[i].key)
  }

  /** A page read after `last` from the table as it is now holds every key of the table as it was that lies
  between `last` and the page's end: what was removed lies behind. */
  lemma PageKeysAreNext(less: (Tuple, Tuple) -> bool, before: Keyed, table: Keyed, source: Keyed, last: Option<Tuple>,
                        suspects: set<Tuple>, extra: nat, remove: bool, failed: nat, rows: seq<Listed>, n: nat, k: Tuple)
    requires StrictOrder(less) && ListsInOrder(less, table, rows)
    requires Swept(less, before, table, source, last, suspects, extra, remove, failed)
    requires 0 < n <= |Rest(less, rows, last)|
    ensures var page := Rest(less, rows, last)[..n];
            k in before ==> (!Beyond(less, Some(page[n - 1].key), k) <==> !Beyond(less, last, k) || k in PageKeys(page))
  {
    var rest := Rest(less, rows, last);
    var page, end := rest[..n], rest[n - 1].key;
    RestIsBeyond(less, rows, last);
    assert rest[n - 1] in rest;
    if k in before {
      if !Beyond(less, last, k) {
        assert Passes(less, last.value, end, k);
      } else {
        assert k !in Extras(less, before, source, last) && k in table && Read(rows, k);
        var r :| r in rows && r.key == k;
        assert r in rest;
        var j :| 0 <= j < |rest| && rest[j] == r;
        if j < n {
          assert PageKeys(page)[j] == k;
          if j < n - 1 {
            assert less(k, end);
            assert Passes(less, k, end, k);
          }
        } else {
          assert less(end, k);
        }
      }
    }
  }

  lemma ExtrasGrow(less: (Tuple, Tuple) -> bool, before: Keyed, table: Keyed, source: Keyed, last: Option<Tuple>,
                   suspects: set<Tuple>, extra: nat, remove: bool, failed: nat, rows: seq<Listed>, n: nat)
    requires StrictOrder(less) && ListsInOrder(less, table, rows)
    requires Swept(less, before, table, source, last, suspects, extra, remove, failed)
    requires 0 < n <= |Rest(less, rows, last)|
    ensures var page := Rest(less, rows, last)[..n];
            var added := Strangers(PageKeys(page), source);
            && Extras(less, before, source, Some(page[n - 1].key)) == Extras(less, before, source, last) + added
            && Extras(less, before, source, last) !! added && forall k :: k in added ==> k in table
  {
    var page := Rest(less, rows, last)[..n];
    forall k ensures k in before ==>
        (!Beyond(less, Some(page[n - 1].key), k) <==> !Beyond(less, last, k) || k in PageKeys(page)) {
      PageKeysAreNext(less, before, table, source, last, suspects, extra, remove, failed, rows, n, k);
    }
    PageIsInTheTable(less, table, last, rows, n);
  }

  lemma MoreSuspects(before: Keyed, table: Keyed, extras: set<Tuple>, suspects: set<Tuple>, added: set<Tuple>, extra: nat,
                     remove: bool, failed: nat)
    requires extras !! added && (forall k :: k in added ==> k in table)
    requires SweptBy(before, table, extras, suspects, extra, remove, failed)
    ensures SweptBy(before, table, extras + added, suspects + added, extra, remove, failed)
  {
    assert suspects !! added;
    assert |suspects + added| == |suspects| + |added|;
    assert |extras + added| == |extras| + |added|;
  }

  lemma PageSwept(less: (Tuple, Tuple) -> bool, before: Keyed, table: Keyed, source: Keyed, last: Option<Tuple>,
                  suspects: set<Tuple>, extra: nat, remove: bool, failed: nat, rows: seq<Listed>, n: nat)
    requires StrictOrder(less) && ListsInOrder(less, table, rows)
    requires Swept(less, before, table, source, last, suspects, extra, remove, failed)
    requires 0 < n <= |Rest(less, rows, last)|
    ensures var page := Rest(less, rows, last)[..n];
            Swept(less, before, table, source, Some(page[n - 1].key),
                  suspects + Strangers(PageKeys(page), source), extra, remove, failed)
  {
    ExtrasGrow(less, before, table, source, last, suspects, extra, remove, failed, rows, n);
    var added := Strangers(PageKeys(Rest(less, rows, last)[..n]), source);
    MoreSuspects(before, table, Extras(less, before, source, last), suspects, added, extra, remove, failed);
  }

  lemma PageIsInTheTable(less: (Tuple, Tuple) -> bool, table: Keyed, last: Option<Tuple>, rows: seq<Listed>, n: nat)
    requires StrictOrder(less) && ListsInOrder(less, table, rows) && n <= |Rest(less, rows, last)|
    ensures forall k :: k in PageKeys(Rest(less, rows, last)[..n]) ==> k in table && Beyond(less, last, k)
  {
    var rest := Rest(less, rows, last);
    RestIsBeyond(less, rows, last);
    forall k | k in PageKeys(rest[..n]) ensures k in table && Beyond(less, last, k) {
      var i :| 0 <= i < n && rest[i].key == k;
      assert rest[i] in rest && rest[i] in rows;
      assert Read(rows, k);
    }
  }

  lemma SuspectsCounted(less: (Tuple, Tuple) -> bool, before: Keyed, table: Keyed, source: Keyed, last: Option<Tuple>,
                        suspects: set<Tuple>, extra: nat, remove: bool, failed: nat, gone: bool, nowFailed: nat)
    requires Swept(less, before, table, source, last, suspects, extra, remove, failed)
    requires (gone ==> remove) && (remove && nowFailed == 0 ==> failed == 0 && (gone || suspects == {}))
    ensures Swept(less, before, if gone then table - suspects else table, source, last, {}, extra + |suspects|, remove, nowFailed)
  {
  }

  /** Read to its end, the extras are all the destination has and the source has not. */
  lemma SweptToTheEnd(less: (Tuple, Tuple) -> bool, before: Keyed, table: Keyed, source: Keyed, last: Option<Tuple>,
                      suspects: set<Tuple>, extra: nat, remove: bool, failed: nat, rows: seq<Listed>)
    requires StrictOrder(less) && ListsInOrder(less, table, rows) && Rest(less, rows, last) == []
    requires Swept(less, before, table, source, last, suspects, extra, remove, failed)
    ensures Extras(less, before, source, last) == before.Keys - source.Keys
  {
    RestIsBeyond(less, rows, last);
    assert forall r :: r in rows ==> !Beyond(less, last, r.key);
    forall k | k in before ensures !Beyond(less, last, k) {
      assert k !in Extras(less, before, source, last) ==> Read(rows, k);
    }
  }

  /* ----- the two passes ----- */

  function AsTable(source: seq<SourceRow>): Keyed
    requires DistinctRows(source)
  {
    map r | r in source :: r.key := r.cells
  }

  function MappedKeysOf(rules: Rules, rows: seq<SourceRow>): seq<Tuple> {
    seq(|rows|, i requires 0 <= i < |rows| => rules.mapped(rows[i]).key)
  }

  /** What was fetched for the rows' keys tells as much of the next row as the table itself. */
  lemma RowByRow(rules: Rules, rows: seq<SourceRow>, i: nat, table: Keyed, actual: Keyed, wrong: seq<SourceRow>)
    requires i < |rows| && actual == Restricted(table, MappedKeysOf(rules, rows))
    ensures IsMissing(rules, rows[i], actual) == IsMissing(rules, rows[i], table)
    ensures Good(rules, rows[i], actual) == Good(rules, rows[i], table)
    ensures wrong + Wrong(rules, rows[i..], table) ==
            (if Good(rules, rows[i], table) then wrong else wrong + [rows[i]]) + Wrong(rules, rows[i + 1..], table)
    ensures MissingCount(rules, rows[i..], table) ==
            (if IsMissing(rules, rows[i], table) then 1 else 0) + MissingCount(rules, rows[i + 1..], table)
    ensures DifferentCount(rules, rows[i..], table) ==
            (if !IsMissing(rules, rows[i], table) && !Good(rules, rows[i], table) then 1 else 0)
            + DifferentCount(rules, rows[i + 1..], table)
  {
    assert MappedKeysOf(rules, rows)[i] == rules.mapped(rows[i]).key;
    assert rows[i..][1..] == rows[i + 1..];
    var row, rest := if Good(rules, rows[i], table) then [] else [rows[i]], Wrong(rules, rows[i + 1..], table);
    assert wrong + (row + rest) == (wrong + row) + rest;
  }

  /** How the two ends can be read: by key, and the destination in key order. */
  datatype Ends = Ends(less: (Tuple, Tuple) -> bool, inOrder: Keyed -> seq<Listed>,
                       byKey: (Keyed, seq<Tuple>) -> seq<(Tuple, Row)>)

  ghost predicate Readable(ends: Ends) {
    && StrictOrder(ends.less)
    && (forall t :: ListsInOrder(ends.less, t, ends.inOrder(t)))
    && (forall t, wanted :: IsListing(t, wanted, ends.byKey(t, wanted)))
  }

  class TargetRun {
    const rules: Rules
    const ends: Ends
    const keepsDeleted: bool // this target ignores deletes
    const goes: nat -> bool // does the n-th write to the target go through?
    var table: Keyed
    var suspects: seq<SourceRow>
    var extraSuspects: set<Tuple>
    var missing: nat
    var different: nat
    var extra: Option<nat>
    var fixed: nat
    var removed: nat
    var writes: nat
    var failed: nat

    constructor (rules: Rules, ends: Ends, keepsDeleted: bool, goes: nat -> bool, table: Keyed)
      ensures this.rules == rules && this.ends == ends && this.keepsDeleted == keepsDeleted && this.table == table
      ensures suspects == [] && extraSuspects == {} && missing == different == failed == 0 && extra == None
    {
      this.rules, this.ends, this.keepsDeleted, this.goes, this.table := rules, ends, keepsDeleted, goes, table;
      suspects, extraSuspects, missing, different, extra := [], {}, 0, 0, None;
      fixed, removed, writes, failed := 0, 0, 0, 0;
    }

    method Fetch(from: Keyed, wanted: seq<Tuple>) returns (out: Keyed)
      requires Readable(ends)
      ensures out == Restricted(from, wanted)
    {
      out := FetchByKeys(from, wanted, ends.byKey(from, wanted));
    }

    method InKeyOrder() returns (rows: seq<Listed>)
      requires Readable(ends)
      ensures StrictOrder(ends.less) && ListsInOrder(ends.less, table, rows)
    {
      rows := ends.inOrder(table);
    }

    /** Which of `rows` are not found as they should be. */
    method FindWrong(rows: seq<SourceRow>) returns (wrong: seq<SourceRow>, gone: nat, other: nat)
      requires Readable(ends)
      ensures wrong == Wrong(rules, rows, table)
      ensures gone == MissingCount(rules, rows, table) && other == DifferentCount(rules, rows, table)
    {
      var keys := MappedKeysOf(rules, rows);
      var actual := Fetch(table, keys);
      wrong, gone, other := [], 0, 0;
      var i := 0;
      while i < |rows|
        invariant 0 <= i <= |rows|
        invariant wrong + Wrong(rules, rows[i..], table) == Wrong(rules, rows, table)
        invariant gone + MissingCount(rules, rows[i..], table) == MissingCount(rules, rows, table)
        invariant other + DifferentCount(rules, rows[i..], table) == DifferentCount(rules, rows, table)
      {
        var m := rules.mapped(rows[i]);
        RowByRow(rules, rows, i, table, actual, wrong);
        if m.key !in actual {
          wrong, gone := wrong + [rows[i]], gone + 1;
        } else if !rules.same(m.cells, actual[m.key]) {
          wrong, other := wrong + [rows[i]], other + 1;
        }
        i := i + 1;
      }
    }

    /** Wrong rows of a page are only noted here. */
    method Compare(rows: seq<SourceRow>)
      requires Readable(ends)
      modifies this`suspects
      ensures suspects == old(suspects) + Wrong(rules, rows, table)
    {
      var wrong, _, _ := FindWrong(rows);
      suspects := suspects + wrong;
    }

    /** The suspects, fetched again: wrong ones count, and are written if `fix` says so. */
    method SecondLook(fix: bool)
      requires Readable(ends)
      modifies this`suspects, this`missing, this`different, this`table, this`fixed, this`writes, this`failed
      ensures suspects == []
      ensures missing == old(missing) + MissingCount(rules, old(suspects), old(table))
      ensures different == old(different) + DifferentCount(rules, old(suspects), old(table))
      ensures var wrong := Wrong(rules, old(suspects), old(table));
              if fix && wrong != [] && failed == old(failed) then
                table == Written(rules, wrong, old(table)) && fixed == old(fixed) + |wrong|
              else table == old(table) && fixed == old(fixed) && (fix && wrong != [] ==> failed == old(failed) + 1)
      ensures failed >= old(failed) && (!fix ==> failed == old(failed))
    {
      if suspects == [] {
        return;
      }
      var pending := suspects;
      suspects := [];
      var wrong, gone, other := FindWrong(pending);
      missing, different := missing + gone, different + other;
      if !fix || wrong == [] {
        return;
      }
      writes := writes + 1;
      if goes(writes) {
        WriteAll(wrong);
        fixed := fixed + |wrong|;
      } else {
        failed := failed + 1;
      }
    }

    method WriteAll(rows: seq<SourceRow>)
      modifies this`table
      ensures table == Written(rules, rows, old(table))
    {
      var i := 0;
      while i < |rows|
        invariant 0 <= i <= |rows| && Written(rules, rows[i..], table) == Written(rules, rows, old(table))
      {
        assert rows[i..][1..] == rows[i + 1..];
        var m := rules.mapped(rows[i]);
        table := table[m.key := Overlay(if m.key in table then Some(table[m.key]) else None, m.cells)];
        i := i + 1;
      }
    }

    /** The source, page by page, against the target. */
    method FirstPass(source: seq<SourceRow>, pageSize: nat, fix: bool)
      requires Readable(ends) && Sound(rules) && DistinctRows(source) && pageSize > 0
      requires suspects == [] && missing == different == failed == 0
      modifies this`suspects, this`missing, this`different, this`table, this`fixed, this`writes, this`failed
      ensures Compared(rules, source, |source|, old(table), table, suspects, missing, different, fix, failed) && suspects == []
    {
      ghost var before := table;
      var n := 0;
      NothingCompared(rules, source, table, fix);
      while n < |source|
        invariant 0 <= n <= |source|
        invariant Compared(rules, source, n, before, table, suspects, missing, different, fix, failed)
      {
        var m := if n + pageSize < |source| then n + pageSize else |source|;
        PageCompared(rules, source, n, m, before, table, suspects, missing, different, fix, failed);
        Compare(source[n..m]);
        n := m;
        if |suspects| >= RECHECK_BATCH {
          LookAgain(source, n, before, fix);
        }
      }
      LookAgain(source, n, before, fix);
    }

    method LookAgain(ghost source: seq<SourceRow>, ghost n: nat, ghost before: Keyed, fix: bool)
      requires Readable(ends) && Sound(rules) && DistinctRows(source) && n <= |source|
      requires Compared(rules, source, n, before, table, suspects, missing, different, fix, failed)
      modifies this`suspects, this`missing, this`different, this`table, this`fixed, this`writes, this`failed
      ensures Compared(rules, source, n, before, table, suspects, missing, different, fix, failed) && suspects == []
    {
      ghost var was, rows, count, others, fails := table, suspects, missing, different, failed;
      SecondLook(fix);
      SuspectsSettled(rules, source, n, before, was, rows, count, others, fix, fails,
                      fix && rows != [] && failed == fails, failed);
      assert fix && rows == [] ==> table == was;
    }

    /** Which candidates have a source row. Rows are looked up by source key, and compared under the key they are
    written under. */
    method SourceKeys(source: Keyed, candidates: seq<Tuple>) returns (keys: set<Tuple>)
      requires Readable(ends) && Sound(rules) && !rules.keyIsTransformed
      ensures keys == Common(candidates, source)
    {
      var found := Fetch(source, candidates);
      keys := WrittenUnder(rules, found);
      KeysKept(rules, found);
      assert found.Keys == Common(candidates, source);
    }

    /** The extra suspects count, and go if `remove` says so. */
    method Settle(remove: bool)
      requires extra.Some?
      modifies this`extraSuspects, this`extra, this`table, this`removed, this`writes, this`failed
      ensures extraSuspects == {} && extra == Some(old(extra).value + |old(extraSuspects)|)
      ensures if remove && old(extraSuspects) != {} && failed == old(failed) then
                table == old(table) - old(extraSuspects) && removed == old(removed) + |old(extraSuspects)|
              else table == old(table) && removed == old(removed) && (remove && old(extraSuspects) != {} ==> failed == old(failed) + 1)
      ensures failed >= old(failed) && (!remove ==> failed == old(failed))
    {
      var found := extraSuspects;
      extraSuspects := {};
      extra := Some(extra.value + |found|);
      if found == {} || !remove {
        return;
      }
      writes := writes + 1;
      if goes(writes) {
        table := table - found;
        removed := removed + |found|;
      } else {
        failed := failed + 1;
      }
    }

    method SettleExtras(ghost before: Keyed, ghost source: Keyed, ghost last: Option<Tuple>, remove: bool, ghost base: nat)
      requires extra.Some? && base <= failed
      requires Swept(ends.less, before, table, source, last, extraSuspects, extra.value, remove, failed - base)
      modifies this`extraSuspects, this`extra, this`table, this`removed, this`writes, this`failed
      ensures extra.Some? && extraSuspects == {} && failed >= old(failed)
      ensures Swept(ends.less, before, table, source, last, extraSuspects, extra.value, remove, failed - base)
    {
      ghost var was, found, count, fails := table, extraSuspects, extra.value, failed;
      Settle(remove);
      SuspectsCounted(ends.less, before, was, source, last, found, count, remove, fails - base,
                      remove && found != {} && failed == fails, failed - base);
    }

    /** The next page of the target, and which of its keys the source does not have; `more` as long as the
    target goes on behind it. */
    method NextPage(ghost before: Keyed, source: Keyed, last: Option<Tuple>, ghost suspects: set<Tuple>, pageSize: nat,
                    ghost counted: nat, ghost remove: bool, ghost fails: nat)
      returns (end: Option<Tuple>, added: set<Tuple>, more: bool)
      requires Readable(ends) && Sound(rules) && !rules.keyIsTransformed && pageSize > 0
      requires Swept(ends.less, before, table, source, last, suspects, counted, remove, fails)
      ensures Swept(ends.less, before, table, source, end, suspects + added, counted, remove, fails)
      ensures if more then Ahead(ends.less, before, end) < Ahead(ends.less, before, last)
              else Extras(ends.less, before, source, end) == before.Keys - source.Keys
    {
      var rows := InKeyOrder();
      var rest := Rest(ends.less, rows, last);
      if rest == [] {
        SweptToTheEnd(ends.less, before, table, source, last, suspects, counted, remove, fails, rows);
        assert suspects + {} == suspects;
        return last, {}, false;
      }
      var n := if pageSize < |rest| then pageSize else |rest|;
      var keys := PageKeys(rest[..n]);
      var inSource := SourceKeys(source, keys);
      added := set k | k in keys && k !in inSource;
      NotAnswered(keys, source, inSource);
      end, more := Some(rest[n - 1].key), n < |rest|;
      PageTurned(ends.less, before, table, source, last, suspects, counted, remove, fails, rows, n);
    }

    /** The target, page by page, against the source. Pages are read behind the last key, so removals leave the pages
    to come as they were. */
    method FindExtras(source: Keyed, pageSize: nat, remove: bool)
      requires Readable(ends) && Sound(rules) && pageSize > 0 && extraSuspects == {}
      modifies this`extraSuspects, this`extra, this`table, this`removed, this`writes, this`failed
      ensures failed >= old(failed)
      ensures extra == if keepsDeleted || rules.keyIsTransformed then old(extra) else Some(|old(table).Keys - source.Keys|)
      ensures !remove || keepsDeleted || rules.keyIsTransformed ==> table == old(table)
      ensures remove && !keepsDeleted && !rules.keyIsTransformed && failed == old(failed) ==>
                table == old(table) - (old(table).Keys - source.Keys)
    {
      if keepsDeleted || rules.keyIsTransformed {
        return;
      }
      ghost var before, base := table, failed;
      SweepTarget(source, pageSize, remove);
      SweptResult(before, table, before.Keys - source.Keys, extra.value, remove, failed - base);
    }

    method SweepTarget(source: Keyed, pageSize: nat, remove: bool)
      requires Readable(ends) && Sound(rules) && !rules.keyIsTransformed && pageSize > 0 && extraSuspects == {}
      modifies this`extraSuspects, this`extra, this`table, this`removed, this`writes, this`failed
      ensures extra.Some? && failed >= old(failed)
      ensures SweptBy(old(table), table, old(table).Keys - source.Keys, {}, extra.value, remove, failed - old(failed))
    {
      extra := Some(0);
      ghost var before, base := table, failed;
      var last: Option<Tuple> := None;
      NothingSwept(ends.less, table, source, remove);
      var more := true;
      while more
        invariant extra.Some? && base <= failed
        invariant Swept(ends.less, before, table, source, last, extraSuspects, extra.value, remove, failed - base)
        invariant !more ==> Extras(ends.less, before, source, last) == before.Keys - source.Keys
        decreases more, Ahead(ends.less, before, last)
      {
        var added;
        last, added, more := NextPage(before, source, last, extraSuspects, pageSize, extra.value, remove, failed - base);
        extraSuspects := extraSuspects + added;
        if |extraSuspects| >= RECHECK_BATCH {
          SettleExtras(before, source, last, remove, base);
        }
      }
      SettleExtras(before, source, last, remove, base);
    }
  }

  lemma SweptResult(before: Keyed, table: Keyed, extras: set<Tuple>, extra: nat, remove: bool, failed: nat)
    requires SweptBy(before, table, extras, {}, extra, remove, failed)
    ensures extra == |extras| && (!remove ==> table == before) && (remove && failed == 0 ==> table == before - extras)
  {
  }

  lemma PageTurned(less: (Tuple, Tuple) -> bool, before: Keyed, table: Keyed, source: Keyed, last: Option<Tuple>,
                   suspects: set<Tuple>, counted: nat, remove: bool, fails: nat, rows: seq<Listed>, n: nat)
    requires StrictOrder(less) && ListsInOrder(less, table, rows)
    requires Swept(less, before, table, source, last, suspects, counted, remove, fails)
    requires 0 < n <= |Rest(less, rows, last)|
    ensures var rest := Rest(less, rows, last);
            var end := Some(rest[n - 1].key);
            && Swept(less, before, table, source, end, suspects + Strangers(PageKeys(rest[..n]), source), counted, remove, fails)
            && Ahead(less, before, end) < Ahead(less, before, last)
            && (n == |rest| ==> Extras(less, before, source, end) == before.Keys - source.Keys)
  {
    var rest := Rest(less, rows, last);
    AheadShrinks(less, before, table, source, last, suspects, counted, remove, fails, rows, n);
    RestOfRest(less, rows, last, n);
    PageSwept(less, before, table, source, last, suspects, counted, remove, fails, rows, n);
    if n == |rest| {
      SweptToTheEnd(less, before, table, source, Some(rest[n - 1].key),
                    suspects + Strangers(PageKeys(rest[..n]), source), counted, remove, fails, rows);
    }
  }

  /** The keys these source rows are written under. */
  function WrittenUnder(rules: Rules, found: Keyed): set<Tuple> {
    set k | k in found :: rules.mapped(SourceRow(k, found[k])).key
  }

  lemma KeysKept(rules: Rules, found: Keyed)
    requires Sound(rules) && !rules.keyIsTransformed
    ensures WrittenUnder(rules, found) == found.Keys
  {
    forall k | k in found ensures rules.mapped(SourceRow(k, found[k])).key == k {
      assert KeyKept(rules, SourceRow(k, found[k]));
    }
    forall k | k in found ensures k in WrittenUnder(rules, found) {
      assert rules.mapped(SourceRow(k, found[k])).key == k;
    }
  }

  lemma NotAnswered(keys: seq<Tuple>, source: Keyed, inSource: set<Tuple>)
    requires inSource == Common(keys, source)
    ensures (set k | k in keys && k !in inSource) == Strangers(keys, source)
  {
  }

  lemma NothingSwept(less: (Tuple, Tuple) -> bool, table: Keyed, source: Keyed, remove: bool)
    ensures Swept(less, table, table, source, None, {}, 0, remove, 0)
  {
    assert Extras(less, table, source, None) == {};
  }

  /** The keys still to be read, of those there were. */
  function Ahead(less: (Tuple, Tuple) -> bool, before: Keyed, last: Option<Tuple>): set<Tuple> {
    set k | k in before && Beyond(less, last, k)
  }

  lemma AheadShrinks(less: (Tuple, Tuple) -> bool, before: Keyed, table: Keyed, source: Keyed, last: Option<Tuple>,
                     suspects: set<Tuple>, extra: nat, remove: bool, failed: nat, rows: seq<Listed>, n: nat)
    requires StrictOrder(less) && ListsInOrder(less, table, rows)
    requires Swept(less, before, table, source, last, suspects, extra, remove, failed)
    requires 0 < n <= |Rest(less, rows, last)|
    ensures Ahead(less, before, Some(Rest(less, rows, last)[n - 1].key)) < Ahead(less, before, last)
  {
    var page := Rest(less, rows, last)[..n];
    forall k ensures k in before ==>
        (!Beyond(less, Some(page[n - 1].key), k) <==> !Beyond(less, last, k) || k in PageKeys(page)) {
      PageKeysAreNext(less, before, table, source, last, suspects, extra, remove, failed, rows, n, k);
    }
    PageIsInTheTable(less, table, last, rows, n);
    var k := page[0].key;
    assert PageKeys(page)[0] == k;
    assert k in Ahead(less, before, last) && k !in Ahead(less, before, Some(page[n - 1].key));
  }

  lemma NothingCompared(rules: Rules, source: seq<SourceRow>, table: Keyed, fix: bool)
    ensures Compared(rules, source, 0, table, table, [], 0, 0, fix, 0)
  {
    assert source[..0] == [];
  }

  /** As the source would have it: a row for every source row, as it is written, and no other. */
  ghost predicate Repaired(rules: Rules, source: seq<SourceRow>, table: Keyed) {
    table.Keys == MappedKeys(rules, source) && forall r :: r in source ==> Good(rules, r, table)
  }

  /** Verify, or reconcile, one target. The counts are the exact set differences between the mapped source and
  the target as it was, whatever the page size; and a reconcile that removes extras, none of whose writes
  failed, leaves the target as the source would have it. */
  method Run(run: TargetRun, source: seq<SourceRow>, opts: Options)
    requires Readable(run.ends) && Sound(run.rules) && DistinctRows(source) && opts.pageSize > 0
    requires run.suspects == [] && run.extraSuspects == {} && run.missing == run.different == run.failed == 0 && run.extra == None
    modifies run
    ensures run.missing == |MappedKeys(run.rules, source) - old(run.table).Keys|
    ensures run.different == |DifferentKeys(run.rules, source, old(run.table))|
    ensures run.extra == if run.keepsDeleted || run.rules.keyIsTransformed then None
                         else Some(|old(run.table).Keys - MappedKeys(run.rules, source)|)
    ensures !opts.fix ==> run.table == old(run.table)
    ensures opts.fix && opts.deleteExtra && run.failed == 0 && !run.keepsDeleted && !run.rules.keyIsTransformed ==>
              Repaired(run.rules, source, run.table)
  {
    ghost var before, rules := run.table, run.rules;
    FirstPassExactly(run, source, opts.pageSize, opts.fix);
    ghost var middle := run.table;
    run.FindExtras(AsTable(source), opts.pageSize, opts.fix && opts.deleteExtra);
    if !run.keepsDeleted && !rules.keyIsTransformed {
      ExtrasAreExact(rules, source, before, middle);
      if opts.fix && opts.deleteExtra && run.failed == 0 {
        NothingLeftOver(rules, source, middle, run.table);
      }
    }
  }

  lemma ExtrasAreExact(rules: Rules, source: seq<SourceRow>, before: Keyed, middle: Keyed)
    requires Sound(rules) && DistinctRows(source) && !rules.keyIsTransformed
    requires before.Keys <= middle.Keys <= before.Keys + MappedKeys(rules, source)
    ensures middle.Keys - AsTable(source).Keys == before.Keys - MappedKeys(rules, source)
    ensures middle.Keys - AsTable(source).Keys == middle.Keys - MappedKeys(rules, source)
  {
    SameKeys(rules, source);
  }

  method FirstPassExactly(run: TargetRun, source: seq<SourceRow>, pageSize: nat, fix: bool)
    requires Readable(run.ends) && Sound(run.rules) && DistinctRows(source) && pageSize > 0
    requires run.suspects == [] && run.missing == run.different == run.failed == 0
    modifies run
    ensures run.extra == old(run.extra) && run.extraSuspects == old(run.extraSuspects)
    ensures run.missing == |MappedKeys(run.rules, source) - old(run.table).Keys|
    ensures run.different == |DifferentKeys(run.rules, source, old(run.table))|
    ensures old(run.table).Keys <= run.table.Keys <= old(run.table).Keys + MappedKeys(run.rules, source)
    ensures !fix ==> run.table == old(run.table)
    ensures fix && run.failed == 0 ==> forall r :: r in source ==> Good(run.rules, r, run.table)
  {
    run.FirstPass(source, pageSize, fix);
    FirstPassIsExact(run.rules, source, old(run.table), run.table, run.missing, run.different, fix, run.failed);
  }

  lemma FirstPassIsExact(rules: Rules, source: seq<SourceRow>, before: Keyed, table: Keyed, missing: nat, different: nat,
                         fix: bool, failed: nat)
    requires Sound(rules) && DistinctRows(source)
    requires Compared(rules, source, |source|, before, table, [], missing, different, fix, failed)
    ensures missing == |MappedKeys(rules, source) - before.Keys| && different == |DifferentKeys(rules, source, before)|
    ensures before.Keys <= table.Keys <= before.Keys + MappedKeys(rules, source) && (!fix ==> table == before)
    ensures fix && failed == 0 ==> forall r :: r in source ==> Good(rules, r, table)
  {
    assert source[..|source|] == source;
    MissingIsADifference(rules, source, before);
    MissingKeysAreADifference(rules, source, before);
    DifferentIsADifference(rules, source, before);
  }

  lemma SameKeys(rules: Rules, source: seq<SourceRow>)
    requires Sound(rules) && DistinctRows(source) && !rules.keyIsTransformed
    ensures AsTable(source).Keys == MappedKeys(rules, source)
  {
    forall r | r in source ensures rules.mapped(r).key == r.key {
      assert KeyKept(rules, r);
    }
  }

  lemma NothingLeftOver(rules: Rules, source: seq<SourceRow>, middle: Keyed, table: Keyed)
    requires forall r :: r in source ==> Good(rules, r, middle)
    requires table == middle - (middle.Keys - MappedKeys(rules, source))
    ensures Repaired(rules, source, table)
  {
    forall k | k in MappedKeys(rules, source) ensures k in table && table[k] == middle[k] {
      var r :| r in source && rules.mapped(r).key == k;
      assert Good(rules, r, middle);
    }
  }

  /** A second verification of a repaired target finds nothing. */
  lemma RepairedIsClean(rules: Rules, source: seq<SourceRow>, table: Keyed)
    requires Repaired(rules, source, table)
    ensures MappedKeys(rules, source) - table.Keys == {} && DifferentKeys(rules, source, table) == {}
    ensures table.Keys - MappedKeys(rules, source) == {}
  {
  }
}
