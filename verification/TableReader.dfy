/** The order a table is read in: when a keyset is picked, it is a strict total order of the table's rows. */
module TableReader {
  import opened Changes
  import KeysetPages

  /** A column value that sorts; NULL is neither before nor after anything. */
  type Cells = map<Column, Option<int>>

  datatype Direction = Ascending | Descending

  datatype SortColumn = SortColumn(column: Column, direction: Direction)

  type Tuple = KeysetPages.Tuple

  /* ----- the order of tuples ----- */

  predicate ValueBefore(d: Direction, a: int, b: int) {
    if d.Ascending? then a < b else b < a
  }

  /** Lexicographic, each position in its own direction. */
  predicate Before(sort: seq<SortColumn>, u: Tuple, v: Tuple)
    requires |u| == |v| == |sort|
  {
    sort != [] &&
    (ValueBefore(sort[0].direction, u[0], v[0]) || (u[0] == v[0] && Before(sort[1..], u[1..], v[1..])))
  }

  lemma {:induction false} Irreflexive(sort: seq<SortColumn>, u: Tuple)
    requires |u| == |sort|
    ensures !Before(sort, u, u)
    decreases |sort|
  {
    if sort != [] {
      Irreflexive(sort[1..], u[1..]);
    }
  }

  lemma {:induction false} Transitive(sort: seq<SortColumn>, u: Tuple, v: Tuple, w: Tuple)
    requires |u| == |v| == |w| == |sort| && Before(sort, u, v) && Before(sort, v, w)
    ensures Before(sort, u, w)
    decreases |sort|
  {
    if u[0] == v[0] == w[0] {
      Transitive(sort[1..], u[1..], v[1..], w[1..]);
    }
  }

  lemma {:induction false} Total(sort: seq<SortColumn>, u: Tuple, v: Tuple)
    requires |u| == |v| == |sort| && u != v
    ensures Before(sort, u, v) || Before(sort, v, u)
    decreases |sort|
  {
    if u[0] == v[0] {
      assert u == [u[0]] + u[1..] && v == [v[0]] + v[1..];
      Total(sort[1..], u[1..], v[1..]);
    }
  }

  /* ----- picking an order ----- */

  datatype Capabilities = Capabilities(cursorPaging: bool, keysetPaging: bool)

  /** What introspection says; unknown nullability means every column may hold NULL. */
  datatype Facts = Facts(nullable: Option<set<Column>>, uniqueKeys: seq<seq<Column>>, columns: seq<Column>,
                         unorderable: set<Column>)

  datatype Order = Order(sort: seq<SortColumn>, keysetColumn: Option<Column>, keysetColumns: seq<Column>,
                         cursorPaging: bool, warned: bool)

  function Ascend(columns: seq<Column>): seq<SortColumn> {
    seq(|columns|, i requires 0 <= i < |columns| => SortColumn(columns[i], Ascending))
  }

  function ColumnsOf(sort: seq<SortColumn>): seq<Column> {
    seq(|sort|, i requires 0 <= i < |sort| => sort[i].column)
  }

  predicate NoneNullable(facts: Facts, columns: seq<Column>) {
    facts.nullable.Some? && forall c :: c in columns ==> c !in facts.nullable.value
  }

  function FirstUsable(facts: Facts, keys: seq<seq<Column>>): seq<Column> {
    if keys == [] then []
    else if NoneNullable(facts, keys[0]) then keys[0]
    else FirstUsable(facts, keys[1..])
  }

  function Without(columns: seq<Column>, dropped: seq<Column>): seq<Column> {
    if columns == [] then []
    else (if columns[0] in dropped then [] else [columns[0]]) + Without(columns[1..], dropped)
  }

  function Orderable(columns: seq<Column>, unorderable: set<Column>): seq<Column> {
    if columns == [] then []
    else (if columns[0] in unorderable then [] else [columns[0]]) + Orderable(columns[1..], unorderable)
  }

  /** `wanted` is the bridge's own sort; the facts are only asked for where they can matter. None is an error:
  there is nothing to order by. */
  function ResolveOrder(caps: Capabilities, primaryKey: seq<Column>, probed: seq<Column>, known: Facts,
                        wanted: seq<SortColumn>): Option<Order>
  {
    var singlePk := if |primaryKey| == 1 then Some(primaryKey[0]) else None;
    var byPk := |wanted| == 1 && Some(wanted[0].column) == singlePk && wanted[0].direction.Ascending?;
    if caps.cursorPaging && (wanted == [] || byPk) then Some(Order([], singlePk, [], true, false))
    else if caps.cursorPaging then Some(Order(wanted, None, [], false, false))
    else
      var facts := if caps.keysetPaging || primaryKey == [] then Some(known) else None;
      var key := if primaryKey != [] then primaryKey else FirstUsable(known, known.uniqueKeys);
      if wanted != [] then
        if byPk then Some(Order(wanted, singlePk, [], false, false))
        else if caps.keysetPaging && key != [] && NoneNullable(known, ColumnsOf(wanted)) then
          var sort := wanted + Ascend(Without(key, ColumnsOf(wanted)));
          Some(Order(sort, None, ColumnsOf(sort), false, false))
        else Some(Order(wanted, None, [], false, false))
      else if |key| == 1 then Some(Order(Ascend(key), Some(key[0]), [], false, false))
      else if |key| > 1 then Some(Order(Ascend(key), None, if caps.keysetPaging then key else [], false, false))
      else
        var columns := Orderable(if facts.Some? && known.columns != [] then known.columns else probed,
                                 if facts.Some? then known.unorderable else {});
        if columns == [] then None else Some(Order(Ascend(columns), None, [], false, true))
  }

  predicate ByKeyset(o: Order) {
    !o.cursorPaging && (o.keysetColumn.Some? || o.keysetColumns != [])
  }

  predicate Holds(row: Cells, columns: seq<Column>) {
    forall c :: c in columns ==> c in row && row[c].Some?
  }

  function TupleOf(row: Cells, columns: seq<Column>): (u: Tuple)
    requires Holds(row, columns)
    ensures |u| == |columns|
  {
    seq(|columns|, i requires 0 <= i < |columns| => assert columns[i] in columns; row[columns[i]].value)
  }

  /** Rows that agree on the key are the same row, and no row has NULL in it. */
  ghost predicate Identifies(rows: set<Cells>, key: seq<Column>) {
    && (forall r :: r in rows ==> Holds(r, key))
    && (forall r, s :: r in rows && s in rows && TupleOf(r, key) == TupleOf(s, key) ==> r == s)
  }

  /** What the catalog promises of the table's contents. */
  ghost predicate Conforms(rows: set<Cells>, primaryKey: seq<Column>, known: Facts) {
    && (primaryKey != [] ==> Identifies(rows, primaryKey))
    && (known.nullable.Some? ==>
          forall r: Cells, c: Column :: r in rows && c !in known.nullable.value ==> Holds(r, [c]))
    && (forall key :: key in known.uniqueKeys && key != [] && NoneNullable(known, key) ==> Identifies(rows, key))
  }

  ghost predicate StrictTotalOrder(rows: set<Cells>, sort: seq<SortColumn>) {
    && (forall r :: r in rows ==> Holds(r, ColumnsOf(sort)))
    && (forall r, s :: r in rows && s in rows ==>
          var u, v := TupleOf(r, ColumnsOf(sort)), TupleOf(s, ColumnsOf(sort));
          && !(Before(sort, u, v) && Before(sort, v, u))
          && (r != s ==> Before(sort, u, v) || Before(sort, v, u))
          && (r == s ==> !Before(sort, u, v)))
  }

  lemma {:induction false} UsableIsKnown(facts: Facts, keys: seq<seq<Column>>)
    requires FirstUsable(facts, keys) != []
    ensures FirstUsable(facts, keys) in keys && NoneNullable(facts, FirstUsable(facts, keys))
    decreases |keys|
  {
    if !NoneNullable(facts, keys[0]) {
      UsableIsKnown(facts, keys[1..]);
    }
  }

  lemma {:induction false} WithoutKeeps(columns: seq<Column>, dropped: seq<Column>, c: Column)
    ensures c in Without(columns, dropped) <==> c in columns && c !in dropped
    decreases |columns|
  {
    if columns != [] {
      WithoutKeeps(columns[1..], dropped, c);
      assert columns == [columns[0]] + columns[1..];
    }
  }

  /** Sorting by columns that include an identifying key is a strict total order. */
  lemma KeyMakesTotal(rows: set<Cells>, sort: seq<SortColumn>, key: seq<Column>)
    requires Identifies(rows, key) && forall r :: r in rows ==> Holds(r, ColumnsOf(sort))
    requires forall c :: c in key ==> c in ColumnsOf(sort)
    ensures StrictTotalOrder(rows, sort)
  {
    var columns := ColumnsOf(sort);
    forall r, s | r in rows && s in rows
      ensures var u, v := TupleOf(r, columns), TupleOf(s, columns);
              && !(Before(sort, u, v) && Before(sort, v, u))
              && (r != s ==> Before(sort, u, v) || Before(sort, v, u))
              && (r == s ==> !Before(sort, u, v))
    {
      var u, v := TupleOf(r, columns), TupleOf(s, columns);
      Irreflexive(sort, u);
      if Before(sort, u, v) && Before(sort, v, u) {
        Transitive(sort, u, v, u);
      }
      if u == v {
        SameTuple(r, s, columns, key);
      } else {
        Total(sort, u, v);
      }
    }
  }

  lemma SameTuple(r: Cells, s: Cells, columns: seq<Column>, key: seq<Column>)
    requires Holds(r, columns) && Holds(s, columns) && TupleOf(r, columns) == TupleOf(s, columns)
    requires forall c :: c in key ==> c in columns
    ensures Holds(r, key) && Holds(s, key) && TupleOf(r, key) == TupleOf(s, key)
  {
    forall c | c in key ensures r[c] == s[c] {
      var i :| 0 <= i < |columns| && columns[i] == c;
      assert TupleOf(r, columns)[i] == TupleOf(s, columns)[i];
    }
  }

  lemma PickedKeyIdentifies(rows: set<Cells>, primaryKey: seq<Column>, known: Facts)
    requires Conforms(rows, primaryKey, known)
    ensures var key := if primaryKey != [] then primaryKey else FirstUsable(known, known.uniqueKeys);
            key != [] ==> Identifies(rows, key)
  {
    if primaryKey == [] && FirstUsable(known, known.uniqueKeys) != [] {
      UsableIsKnown(known, known.uniqueKeys);
    }
  }

  /** A wanted order is total once the key's columns break its ties. */
  lemma WantedThenKey(rows: set<Cells>, primaryKey: seq<Column>, known: Facts, wanted: seq<SortColumn>, key: seq<Column>)
    requires Conforms(rows, primaryKey, known) && Identifies(rows, key) && NoneNullable(known, ColumnsOf(wanted))
    ensures StrictTotalOrder(rows, wanted + Ascend(Without(key, ColumnsOf(wanted))))
  {
    var behind := Without(key, ColumnsOf(wanted));
    var sort := wanted + Ascend(behind);
    assert ColumnsOf(sort) == ColumnsOf(wanted) + behind;
    forall c ensures c in key ==> c in ColumnsOf(sort)
             ensures c in behind ==> c in key
    {
      WithoutKeeps(key, ColumnsOf(wanted), c);
    }
    forall r: Cells, c: Column | r in rows && c in ColumnsOf(sort) ensures c in r && r[c].Some? {
      if c in ColumnsOf(wanted) {
        assert Holds(r, [c]) && c in [c];
      } else {
        assert Holds(r, key) && c in key;
      }
    }
    KeyMakesTotal(rows, sort, key);
  }

  lemma KeyAlone(rows: set<Cells>, key: seq<Column>)
    requires Identifies(rows, key)
    ensures ColumnsOf(Ascend(key)) == key && StrictTotalOrder(rows, Ascend(key))
  {
    assert ColumnsOf(Ascend(key)) == key;
    KeyMakesTotal(rows, Ascend(key), key);
  }

  /** Whenever a keyset is picked, the sort is a strict total order of the table's rows, and the columns the
  keyset compares are exactly the sorted ones. */
  lemma KeysetIsTotal(caps: Capabilities, primaryKey: seq<Column>, probed: seq<Column>, known: Facts,
                      wanted: seq<SortColumn>, rows: set<Cells>)
    requires Conforms(rows, primaryKey, known)
    requires ResolveOrder(caps, primaryKey, probed, known, wanted).Some?
    requires ByKeyset(ResolveOrder(caps, primaryKey, probed, known, wanted).value)
    ensures var o := ResolveOrder(caps, primaryKey, probed, known, wanted).value;
            && StrictTotalOrder(rows, o.sort)
            && ColumnsOf(o.sort) == (if o.keysetColumns != [] then o.keysetColumns else [o.keysetColumn.value])
  {
    var o := ResolveOrder(caps, primaryKey, probed, known, wanted).value;
    var key := if primaryKey != [] then primaryKey else FirstUsable(known, known.uniqueKeys);
    PickedKeyIdentifies(rows, primaryKey, known);
    if wanted == [] {
      KeyAlone(rows, key);
    } else if o.keysetColumn.Some? {
      assert wanted == [SortColumn(primaryKey[0], Ascending)] == Ascend(primaryKey);
      KeyAlone(rows, key);
    } else {
      WantedThenKey(rows, primaryKey, known, wanted, key);
    }
  }

  /** `Before` as the order a page is cut by. */
  predicate Less(sort: seq<SortColumn>, u: Tuple, v: Tuple) {
    |u| == |v| == |sort| && Before(sort, u, v)
  }

  lemma LessIsStrict(sort: seq<SortColumn>)
    ensures KeysetPages.StrictOrder((u: Tuple, v: Tuple) => Less(sort, u, v))
  {
    var less := (u: Tuple, v: Tuple) => Less(sort, u, v);
    forall u: Tuple ensures !less(u, u) {
      if |u| == |sort| {
        Irreflexive(sort, u);
      }
    }
    forall u: Tuple, v: Tuple, w: Tuple ensures KeysetPages.Passes(less, u, v, w) {
      if less(u, v) && less(v, w) {
        Transitive(sort, u, v, w);
      }
    }
  }

  function ListedAs(sort: seq<SortColumn>, listing: seq<Cells>): seq<KeysetPages.Listed>
    requires forall r :: r in listing ==> Holds(r, ColumnsOf(sort))
  {
    seq(|listing|, i requires 0 <= i < |listing| =>
      assert listing[i] in listing; KeysetPages.Listed(TupleOf(listing[i], ColumnsOf(sort)), map[]))
  }

  /** Sorted by a keyset order, a table is listed in strictly increasing keys: what reading by pages needs. */
  lemma SortedTableIncreases(rows: set<Cells>, sort: seq<SortColumn>, listing: seq<Cells>)
    requires StrictTotalOrder(rows, sort) && forall r :: r in listing ==> r in rows
    requires forall i, j :: 0 <= i < j < |listing| ==>
               listing[i] != listing[j] &&
               !Less(sort, TupleOf(listing[j], ColumnsOf(sort)), TupleOf(listing[i], ColumnsOf(sort)))
    ensures KeysetPages.Increasing((u: Tuple, v: Tuple) => Less(sort, u, v), ListedAs(sort, listing))
  {
    forall i, j | 0 <= i < j < |listing|
      ensures Less(sort, TupleOf(listing[i], ColumnsOf(sort)), TupleOf(listing[j], ColumnsOf(sort)))
    {
      assert listing[i] in rows && listing[j] in rows;
    }
  }

  /** So whatever order is picked for reading by keyset, the table listed by it is one the pages can be read from:
  its comparison is a strict order, and the listing's keys increase. */
  lemma PickedOrderListsInOrder(caps: Capabilities, primaryKey: seq<Column>, probed: seq<Column>, known: Facts,
                                wanted: seq<SortColumn>, rows: set<Cells>, listing: seq<Cells>)
    requires Conforms(rows, primaryKey, known) && forall r :: r in listing ==> r in rows
    requires ResolveOrder(caps, primaryKey, probed, known, wanted).Some?
    requires ByKeyset(ResolveOrder(caps, primaryKey, probed, known, wanted).value)
    requires var sort := ResolveOrder(caps, primaryKey, probed, known, wanted).value.sort;
             && (forall r :: r in rows ==> Holds(r, ColumnsOf(sort)))
             && forall i, j :: 0 <= i < j < |listing| ==>
                  listing[i] != listing[j] &&
                  !Less(sort, TupleOf(listing[j], ColumnsOf(sort)), TupleOf(listing[i], ColumnsOf(sort)))
    ensures var sort := ResolveOrder(caps, primaryKey, probed, known, wanted).value.sort;
            && KeysetPages.StrictOrder((u: Tuple, v: Tuple) => Less(sort, u, v))
            && KeysetPages.Increasing((u: Tuple, v: Tuple) => Less(sort, u, v), ListedAs(sort, listing))
  {
    var sort := ResolveOrder(caps, primaryKey, probed, known, wanted).value.sort;
    KeysetIsTotal(caps, primaryKey, probed, known, wanted, rows);
    LessIsStrict(sort);
    SortedTableIncreases(rows, sort, listing);
  }
}
