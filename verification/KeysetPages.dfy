/** Reading a table page by page after the last key, while it is being changed: what the generator yields,
and what a resumed one does. Keys are compared by any strict order. */
module KeysetPages {
  import opened Changes

  type Tuple = seq<int>

  predicate Passes(less: (Tuple, Tuple) -> bool, u: Tuple, v: Tuple, w: Tuple) {
    less(u, v) && less(v, w) ==> less(u, w)
  }

  /** Irreflexive and transitive. */
  ghost predicate StrictOrder(less: (Tuple, Tuple) -> bool) {
    (forall u :: !less(u, u)) && forall u, v, w :: Passes(less, u, v, w)
  }

  /** A row as a page lists it: its sort key, and everything else. */
  datatype Listed = Listed(key: Tuple, cells: map<Column, Value>)

  datatype Page = Page(rows: seq<Listed>, hasMore: bool)

  datatype Checkpoint = Checkpoint(column: string, value: Tuple)

  datatype Item = Item(row: Listed, index: nat, keyset: Checkpoint)

  /** Strictly increasing by key. */
  predicate Increasing(less: (Tuple, Tuple) -> bool, rows: seq<Listed>) {
    forall i, j :: 0 <= i < j < |rows| ==> less(rows[i].key, rows[j].key)
  }

  predicate Beyond(less: (Tuple, Tuple) -> bool, last: Option<Tuple>, key: Tuple) {
    last.Some? ==> less(last.value, key)
  }

  /** The rows of a listing beyond `last`. */
  function Rest(less: (Tuple, Tuple) -> bool, rows: seq<Listed>, last: Option<Tuple>): (rest: seq<Listed>)
    ensures |rest| <= |rows|
  {
    if rows == [] || Beyond(less, last, rows[0].key) then rows else Rest(less, rows[1..], last)
  }

  lemma TailIncreases(less: (Tuple, Tuple) -> bool, rows: seq<Listed>, n: nat)
    requires Increasing(less, rows) && n <= |rows|
    ensures Increasing(less, rows[n..])
  {
    assert forall i :: 0 <= i < |rows[n..]| ==> rows[n..][i] == rows[n + i];
  }

  lemma {:induction false} RestIsBeyond(less: (Tuple, Tuple) -> bool, rows: seq<Listed>, last: Option<Tuple>)
    requires StrictOrder(less) && Increasing(less, rows)
    ensures forall r :: r in Rest(less, rows, last) <==> r in rows && Beyond(less, last, r.key)
    ensures Increasing(less, Rest(less, rows, last))
    decreases |rows|
  {
    if rows != [] {
      assert forall r :: r in rows <==> r == rows[0] || r in rows[1..];
      if Beyond(less, last, rows[0].key) {
        forall r | r in rows ensures Beyond(less, last, r.key) {
          if r in rows[1..] {
            var j :| 0 <= j < |rows[1..]| && rows[1..][j] == r;
            assert less(rows[0].key, rows[j + 1].key);
            assert last.Some? ==> Passes(less, last.value, rows[0].key, r.key);
          }
        }
      } else {
        TailIncreases(less, rows, 1);
        RestIsBeyond(less, rows[1..], last);
      }
    }
  }

  /** One page, as the adapter promises it: a stretch of what is beyond the key, empty only when nothing is. */
  predicate IsPage(rest: seq<Listed>, pageSize: nat, page: Page) {
    && |page.rows| <= pageSize && page.rows <= rest
    && (page.hasMore <==> |page.rows| < |rest|)
    && (page.rows == [] ==> rest == [])
  }

  /** The key of the last row of `rows`, or where the reading began. */
  function LastKey(start: Option<Tuple>, rows: seq<Listed>): Option<Tuple> {
    if rows == [] then start else Some(rows[|rows| - 1].key)
  }

  predicate AllBeyond(less: (Tuple, Tuple) -> bool, start: Option<Tuple>, rows: seq<Listed>) {
    forall r :: r in rows ==> Beyond(less, start, r.key)
  }

  /** What one page adds to what has been read. */
  lemma PageExtends(less: (Tuple, Tuple) -> bool, start: Option<Tuple>, out: seq<Listed>, rows: seq<Listed>)
    requires StrictOrder(less) && Increasing(less, out) && Increasing(less, rows)
    requires AllBeyond(less, start, out) && AllBeyond(less, LastKey(start, out), rows)
    ensures Increasing(less, out + rows) && AllBeyond(less, start, out + rows)
  {
    var grown := out + rows;
    forall i, j | 0 <= i < j < |grown| ensures less(grown[i].key, grown[j].key) {
      if i < |out| <= j {
        assert grown[j] in rows && less(out[|out| - 1].key, grown[j].key);
        assert i < |out| - 1 ==> less(out[i].key, out[|out| - 1].key);
        assert Passes(less, out[i].key, out[|out| - 1].key, grown[j].key);
      }
    }
    forall r | r in rows ensures Beyond(less, start, r.key) {
      if out != [] && start.Some? {
        assert out[|out| - 1] in out;
        assert less(start.value, out[|out| - 1].key) && less(out[|out| - 1].key, r.key);
        assert Passes(less, start.value, out[|out| - 1].key, r.key);
      }
    }
  }

  lemma PageIsBeyond(less: (Tuple, Tuple) -> bool, table: seq<Listed>, last: Option<Tuple>, pageSize: nat, page: Page)
    requires StrictOrder(less) && Increasing(less, table) && IsPage(Rest(less, table, last), pageSize, page)
    ensures Increasing(less, page.rows) && AllBeyond(less, last, page.rows)
  {
    var rest := Rest(less, table, last);
    RestIsBeyond(less, table, last);
    assert forall i :: 0 <= i < |page.rows| ==> page.rows[i] == rest[i];
    assert forall r :: r in page.rows ==> r in rest;
  }

  predicate Read(out: seq<Listed>, key: Tuple) {
    exists r :: r in out && r.key == key
  }

  /** A key that is in every state of the table. */
  ghost predicate Throughout(table: nat -> seq<Listed>, key: Tuple) {
    forall i: nat :: Read(table(i), key)
  }

  lemma LastOfConcat(start: Option<Tuple>, out: seq<Listed>, rows: seq<Listed>)
    ensures LastKey(start, out + rows) == if rows == [] then LastKey(start, out) else Some(rows[|rows| - 1].key)
  {
    if rows == [] {
      assert out + rows == out;
    }
  }

  lemma RestReads(less: (Tuple, Tuple) -> bool, table: seq<Listed>, last: Option<Tuple>, key: Tuple)
    requires StrictOrder(less) && Increasing(less, table)
    ensures Increasing(less, Rest(less, table, last))
    ensures Read(table, key) && Beyond(less, last, key) ==> Read(Rest(less, table, last), key)
  {
    RestIsBeyond(less, table, last);
    if Read(table, key) && Beyond(less, last, key) {
      var r :| r in table && r.key == key;
      assert r in Rest(less, table, last);
    }
  }

  /** Of what was still ahead, a page reads it or leaves it ahead. */
  lemma PageSkipsNothing(less: (Tuple, Tuple) -> bool, rest: seq<Listed>, pageSize: nat, page: Page, key: Tuple)
    requires Increasing(less, rest) && Read(rest, key) && IsPage(rest, pageSize, page)
    ensures Read(page.rows, key) ||
            (page.hasMore && page.rows != [] && less(page.rows[|page.rows| - 1].key, key))
  {
    var r :| r in rest && r.key == key;
    var j :| 0 <= j < |rest| && rest[j] == r;
    var n := |page.rows|;
    if j < n {
      assert page.rows[j] == r;
    } else {
      assert page.rows[n - 1] == rest[n - 1];
    }
  }

  lemma StaysRead(out: seq<Listed>, more: seq<Listed>, key: Tuple)
    requires Read(out, key)
    ensures Read(out + more, key)
  {
    var r :| r in out && r.key == key;
    assert r in out + more;
  }

  /** What is beyond the key of row `n - 1` is everything from row `n` on. */
  lemma {:induction false} SuffixAfter(less: (Tuple, Tuple) -> bool, table: seq<Listed>, n: nat)
    requires StrictOrder(less) && Increasing(less, table) && 0 < n <= |table|
    ensures Rest(less, table, Some(table[n - 1].key)) == table[n..]
    decreases |table|
  {
    var last := Some(table[n - 1].key);
    if n > 1 {
      assert less(table[0].key, table[n - 1].key);
      assert Passes(less, table[n - 1].key, table[0].key, table[n - 1].key);
      assert !Beyond(less, last, table[0].key);
      TailIncreases(less, table, 1);
      assert table[1..][n - 2] == table[n - 1];
      SuffixAfter(less, table[1..], n - 1);
    } else {
      assert Rest(less, table, last) == Rest(less, table[1..], last);
      assert |table| > 1 ==> less(table[0].key, table[1].key);
    }
  }

  lemma {:induction false} RestOfRest(less: (Tuple, Tuple) -> bool, table: seq<Listed>, last: Option<Tuple>, n: nat)
    requires StrictOrder(less) && Increasing(less, table) && 0 < n <= |Rest(less, table, last)|
    ensures Rest(less, table, Some(Rest(less, table, last)[n - 1].key)) == Rest(less, table, last)[n..]
    decreases |table|
  {
    if Beyond(less, last, table[0].key) {
      SuffixAfter(less, table, n);
    } else {
      var row := Rest(less, table, last)[n - 1];
      TailIncreases(less, table, 1);
      RestOfRest(less, table[1..], last, n);
      RestIsBeyond(less, table[1..], last);
      assert row in table[1..];
      var j :| 0 <= j < |table[1..]| && table[1..][j] == row;
      assert less(table[0].key, table[j + 1].key);
      assert Passes(less, row.key, table[0].key, row.key);
    }
  }

  /** While the table stays as it is, a page takes its rows off the front of what is left. */
  lemma PageTakesTheFront(less: (Tuple, Tuple) -> bool, start: Option<Tuple>, out: seq<Listed>, table: seq<Listed>,
                          pageSize: nat, page: Page)
    requires StrictOrder(less) && Increasing(less, table)
    requires IsPage(Rest(less, table, LastKey(start, out)), pageSize, page)
    ensures Rest(less, table, LastKey(start, out)) == page.rows + Rest(less, table, LastKey(start, out + page.rows))
  {
    var rest, n := Rest(less, table, LastKey(start, out)), |page.rows|;
    LastOfConcat(start, out, page.rows);
    if n > 0 {
      assert page.rows[n - 1] == rest[n - 1];
      RestOfRest(less, table, LastKey(start, out), n);
      assert rest == rest[..n] + rest[n..];
    }
  }

  /** Where a reading starts: at the checkpointed key, else at the key of the row before the offset. */
  function StartKey(width: nat, name: string, table: seq<Listed>, startOffset: nat, resume: Option<Checkpoint>): Option<Tuple> {
    if startOffset == 0 then None
    else if resume.Some? && resume.value.column == name && |resume.value.value| == width then Some(resume.value.value)
    else if startOffset <= |table| then Some(table[startOffset - 1].key)
    else None
  }

  function RowsOf(items: seq<Item>): seq<Listed> {
    seq(|items|, i requires 0 <= i < |items| => items[i].row)
  }

  /** Each row carries its position and the checkpoint to resume by. */
  predicate Marked(items: seq<Item>, from: nat, name: string) {
    forall i :: 0 <= i < |items| ==> items[i].index == from + i && items[i].keyset == Checkpoint(name, items[i].row.key)
  }

  /** Every key that stays in the table is read, or still ahead of a reading that goes on. */
  ghost predicate Covered(less: (Tuple, Tuple) -> bool, table: nat -> seq<Listed>, start: Option<Tuple>, out: seq<Listed>, more: bool) {
    forall key :: Throughout(table, key) && Beyond(less, start, key) ==>
      (more && Beyond(less, LastKey(start, out), key)) || Read(out, key)
  }

  lemma PageCovers(less: (Tuple, Tuple) -> bool, table: nat -> seq<Listed>, start: Option<Tuple>, out: seq<Listed>,
                   i: nat, pageSize: nat, page: Page)
    requires StrictOrder(less) && Increasing(less, table(i)) && Covered(less, table, start, out, true)
    requires IsPage(Rest(less, table(i), LastKey(start, out)), pageSize, page)
    ensures Covered(less, table, start, out + page.rows, page.hasMore)
  {
    forall key | Throughout(table, key) && Beyond(less, start, key)
      ensures (page.hasMore && Beyond(less, LastKey(start, out + page.rows), key)) || Read(out + page.rows, key)
    {
      LastOfConcat(start, out, page.rows);
      if Read(out, key) {
        StaysRead(out, page.rows, key);
      } else {
        assert Read(table(i), key);
        RestReads(less, table(i), LastKey(start, out), key);
        PageSkipsNothing(less, Rest(less, table(i), LastKey(start, out)), pageSize, page, key);
        if r :| r in page.rows && r.key == key {
          assert r in out + page.rows;
        }
      }
    }
  }

  /** What holds between two pages. */
  ghost predicate Reading(less: (Tuple, Tuple) -> bool, table: nat -> seq<Listed>, settled: nat, start: Option<Tuple>,
                          out: seq<Listed>, more: bool)
  {
    && Increasing(less, out) && AllBeyond(less, start, out)
    && Covered(less, table, start, out, more)
    && (settled == 0 ==> Rest(less, table(0), start) == out + (if more then Rest(less, table(0), LastKey(start, out)) else []))
  }

  ghost predicate Tables(less: (Tuple, Tuple) -> bool, table: nat -> seq<Listed>, settled: nat) {
    && StrictOrder(less) && (forall i :: Increasing(less, table(i)))
    && forall i :: i >= settled ==> table(i) == table(settled)
  }

  /** The reading makes headway: pages, then rows of the table as it settles. */
  function Left(settled: nat, i: nat): nat {
    if i < settled then settled - i else 0
  }

  lemma PageStep(less: (Tuple, Tuple) -> bool, table: nat -> seq<Listed>, settled: nat, start: Option<Tuple>,
                 out: seq<Listed>, i: nat, pageSize: nat, page: Page)
    requires Tables(less, table, settled) && Reading(less, table, settled, start, out, true)
    requires IsPage(Rest(less, table(i), LastKey(start, out)), pageSize, page)
    ensures Reading(less, table, settled, start, out + page.rows, page.hasMore && page.rows != [])
    ensures settled <= i && page.rows != [] ==>
              |Rest(less, table(settled), LastKey(start, out + page.rows))| < |Rest(less, table(settled), LastKey(start, out))|
  {
    PageIsBeyond(less, table(i), LastKey(start, out), pageSize, page);
    PageExtends(less, start, out, page.rows);
    PageCovers(less, table, start, out, i, pageSize, page);
    if settled <= i {
      assert table(i) == table(settled);
      PageExact(less, start, out, table(settled), pageSize, page);
    }
  }

  lemma PageExact(less: (Tuple, Tuple) -> bool, start: Option<Tuple>, out: seq<Listed>, table: seq<Listed>, pageSize: nat, page: Page)
    requires StrictOrder(less) && Increasing(less, table)
    requires IsPage(Rest(less, table, LastKey(start, out)), pageSize, page)
    ensures out + Rest(less, table, LastKey(start, out)) ==
            out + page.rows + (if page.hasMore then Rest(less, table, LastKey(start, out + page.rows)) else [])
    ensures page.hasMore ==> page.rows != []
    ensures page.rows != [] ==>
              |Rest(less, table, LastKey(start, out + page.rows))| < |Rest(less, table, LastKey(start, out))|
  {
    PageTakesTheFront(less, start, out, table, pageSize, page);
    var rest := Rest(less, table, LastKey(start, out + page.rows));
    assert out + (page.rows + rest) == out + page.rows + rest;
    assert !page.hasMore ==> rest == [];
  }

  lemma BeginReading(less: (Tuple, Tuple) -> bool, table: nat -> seq<Listed>, settled: nat, start: Option<Tuple>)
    ensures Reading(less, table, settled, start, [], true)
  {
    assert [] + Rest(less, table(0), start) == Rest(less, table(0), start);
  }

  /** The generator, by keyset. `table(i)` is the table when the i-th page is read; it may change between any
  two pages, and stops changing at some point (or the reading would never end). */
  method Rows(ghost less: (Tuple, Tuple) -> bool, width: nat, name: string, table: nat -> seq<Listed>, ghost settled: nat,
              ghost pageSize: nat, browse: (nat, Option<Tuple>) -> Page, startOffset: nat, resume: Option<Checkpoint>)
    returns (items: seq<Item>)
    requires Tables(less, table, settled)
    requires forall i, last :: IsPage(Rest(less, table(i), last), pageSize, browse(i, last))
    ensures var start := StartKey(width, name, table(0), startOffset, resume);
            // the keys strictly increase, so nothing is yielded twice, and nothing at or before the start
            && Increasing(less, RowsOf(items)) && AllBeyond(less, start, RowsOf(items))
            // whatever stays in the table, and is beyond the start, is yielded
            && (forall key :: Throughout(table, key) && Beyond(less, start, key) ==> Read(RowsOf(items), key))
            // a table nobody changes is yielded exactly
            && (settled == 0 ==> RowsOf(items) == Rest(less, table(0), start))
    ensures Marked(items, startOffset, name)
  {
    var last: Option<Tuple> := None;
    if startOffset > 0 {
      if resume.Some? && resume.value.column == name && |resume.value.value| == width {
        last := Some(resume.value.value);
      } else if startOffset <= |table(0)| { // row `startOffset - 1`, looked up by offset
        last := Some(table(0)[startOffset - 1].key);
      }
    }
    ghost var start, out := last, [];
    BeginReading(less, table, settled, start);
    items := [];
    var i, more := 0, true;
    while more
      invariant RowsOf(items) == out && last == LastKey(start, out) && Marked(items, startOffset, name)
      invariant Reading(less, table, settled, start, out, more)
      decreases more, Left(settled, i), |Rest(less, table(settled), last)|
    {
      var page := browse(i, last);
      PageStep(less, table, settled, start, out, i, pageSize, page);
      LastOfConcat(start, out, page.rows);
      items := Yielded(items, page.rows, startOffset, name);
      out := out + page.rows;
      if page.rows != [] {
        last := Some(page.rows[|page.rows| - 1].key);
      }
      more := page.hasMore && page.rows != [];
      i := i + 1;
    }
    assert out + [] == out;
  }

  method Yielded(before: seq<Item>, rows: seq<Listed>, from: nat, name: string) returns (items: seq<Item>)
    requires Marked(before, from, name)
    ensures RowsOf(items) == RowsOf(before) + rows && Marked(items, from, name)
  {
    items := before;
    var i := 0;
    while i < |rows|
      invariant 0 <= i <= |rows| && RowsOf(items) == RowsOf(before) + rows[..i] && Marked(items, from, name)
    {
      ghost var was := items;
      items := items + [Item(rows[i], from + |items|, Checkpoint(name, rows[i].key))];
      assert rows[..i + 1] == rows[..i] + [rows[i]];
      assert RowsOf(items) == RowsOf(was) + [rows[i]];
      i := i + 1;
    }
    assert rows[..i] == rows;
  }

  /** Resuming from the checkpoint of any row of a static table yields exactly the rows after it. */
  lemma ResumeIsExact(less: (Tuple, Tuple) -> bool, width: nat, name: string, table: seq<Listed>, n: nat)
    requires StrictOrder(less) && Increasing(less, table) && 0 < n <= |table| && |table[n - 1].key| == width
    ensures Rest(less, table, StartKey(width, name, table, n, Some(Checkpoint(name, table[n - 1].key)))) == table[n..]
  {
    SuffixAfter(less, table, n);
  }

  predicate ExactFrom(less: (Tuple, Tuple) -> bool, table: seq<Listed>, start: Option<Tuple>, offset: nat) {
    Rest(less, table, start) == if offset <= |table| then table[offset..] else []
  }

  /** Without a checkpoint the offset is looked up, and that is exact if and only if the table still has that
  many rows (or none at all): beyond the end, the reading starts over from the top. */
  lemma SeekIsExactWithinTheTable(less: (Tuple, Tuple) -> bool, width: nat, name: string, table: seq<Listed>, startOffset: nat)
    requires StrictOrder(less) && Increasing(less, table)
    ensures ExactFrom(less, table, StartKey(width, name, table, startOffset, None), startOffset) <==>
            startOffset <= |table| || table == []
  {
    if 0 < startOffset <= |table| {
      SuffixAfter(less, table, startOffset);
    } else {
      assert Rest(less, table, None) == table;
    }
  }
}
