/** The change log of a source table, and what applying it to a keyed destination means.

A change carries only the columns the source sent: a column that did not change may be missing, and an
upsert does nothing to the destination's copy of a missing one. Rows are
therefore maps from column to value, and an upsert overlays the row that is there. */
module Changes {
  type Key = string
  type Column = string
  type Value = int // an opaque token: values are only ever copied and compared
  type Row = map<Column, Value>
  type Table = map<Key, Row>

  datatype Option<+T> = None | Some(value: T)

  datatype Op = Insert | Update | Delete | Truncate

  datatype Change =
    | Write(inserted: bool, key: Key, cells: Row)
    | Remove(key: Key)
    | Empty
  {
    function Operation(): Op {
      match this
      case Write(inserted, _, _) => if inserted then Insert else Update
      case Remove(_) => Delete
      case Empty => Truncate
    }

    /** Does applying this change possibly alter the row under `k`? */
    predicate Touches(k: Key) {
      Empty? || key == k
    }
  }

  function Overlay(row: Option<Row>, cells: Row): Row {
    if row.Some? then row.value + cells else cells
  }

  function Lookup(t: Table, k: Key): Option<Row> {
    if k in t then Some(t[k]) else None
  }

  function ApplyOne(t: Table, c: Change): Table {
    match c
    case Write(_, k, cells) => t[k := Overlay(Lookup(t, k), cells)]
    case Remove(k) => t - {k}
    case Empty => map[]
  }

  /** The table after every change of `cs`, applied one at a time and in order. */
  function Apply(t: Table, cs: seq<Change>): Table
    decreases |cs|
  {
    if cs == [] then t else Apply(ApplyOne(t, cs[0]), cs[1..])
  }

  /* ----- one key at a time ----- */

  function FoldOne(row: Option<Row>, c: Change, k: Key): Option<Row> {
    if !c.Touches(k) then row
    else if c.Write? then Some(Overlay(row, c.cells))
    else None
  }

  /** What `cs` makes of the row under `k`. */
  function Fold(row: Option<Row>, cs: seq<Change>, k: Key): Option<Row>
    decreases |cs|
  {
    if cs == [] then row else Fold(FoldOne(row, cs[0], k), cs[1..], k)
  }

  /** A table is its keys' rows: applying a log acts on every key independently. */
  lemma {:induction false} ApplyIsPerKey(t: Table, cs: seq<Change>, k: Key)
    ensures Lookup(Apply(t, cs), k) == Fold(Lookup(t, k), cs, k)
    decreases |cs|
  {
    if cs != [] {
      ApplyIsPerKey(ApplyOne(t, cs[0]), cs[1..], k);
    }
  }

  lemma {:induction false} FoldConcat(row: Option<Row>, a: seq<Change>, b: seq<Change>, k: Key)
    ensures Fold(row, a + b, k) == Fold(Fold(row, a, k), b, k)
    decreases |a|
  {
    if a == [] {
      assert a + b == b;
    } else {
      assert (a + b)[1..] == a[1..] + b;
      FoldConcat(FoldOne(row, a[0], k), a[1..], b, k);
    }
  }

  lemma ApplyConcat(t: Table, a: seq<Change>, b: seq<Change>)
    ensures Apply(t, a + b) == Apply(Apply(t, a), b)
  {
    SameRows(Apply(t, a + b), Apply(Apply(t, a), b)) by {
      forall k ensures Lookup(Apply(t, a + b), k) == Lookup(Apply(Apply(t, a), b), k) {
        ApplyIsPerKey(t, a + b, k);
        ApplyIsPerKey(t, a, k);
        ApplyIsPerKey(Apply(t, a), b, k);
        FoldConcat(Lookup(t, k), a, b, k);
      }
    }
  }

  /** Tables with the same row under every key are the same table. */
  lemma SameRows(a: Table, b: Table)
    requires forall k :: Lookup(a, k) == Lookup(b, k)
    ensures a == b
  {
    forall k ensures k in a <==> k in b {
      assert Lookup(a, k) == Lookup(b, k);
    }
    forall k | k in a ensures a[k] == b[k] {
      assert Lookup(a, k) == Lookup(b, k);
    }
  }

  /** Some change of `cs` throws the row under `k` away, whatever it was. */
  ghost predicate Resets(cs: seq<Change>, k: Key) {
    exists c :: c in cs && c.Touches(k) && !c.Write?
  }

  /** The cells `cs` writes under `k`, when it never throws the row away. */
  function Cells(cs: seq<Change>, k: Key): Option<Row> {
    if cs == [] then None
    else
      var rest := Cells(cs[1..], k);
      if cs[0].Touches(k) && cs[0].Write? then
        Some(if rest.Some? then cs[0].cells + rest.value else cs[0].cells)
      else rest
  }

  lemma {:induction false} ResetForgets(x: Option<Row>, y: Option<Row>, cs: seq<Change>, k: Key)
    requires Resets(cs, k)
    ensures Fold(x, cs, k) == Fold(y, cs, k)
    decreases |cs|
  {
    if !(cs[0].Touches(k) && !cs[0].Write?) {
      var c :| c in cs && c.Touches(k) && !c.Write?;
      assert c in cs[1..];
      ResetForgets(FoldOne(x, cs[0], k), FoldOne(y, cs[0], k), cs[1..], k);
    }
  }

  lemma OverlayTwice(row: Option<Row>, c: Change, rest: seq<Change>, k: Key)
    requires c.Write?
    ensures Cells(rest, k).Some? ==>
              Overlay(Some(Overlay(row, c.cells)), Cells(rest, k).value) == Overlay(row, c.cells + Cells(rest, k).value)
  {
    if Cells(rest, k).Some? && row.Some? {
      assert (row.value + c.cells) + Cells(rest, k).value == row.value + (c.cells + Cells(rest, k).value);
    }
  }

  lemma {:induction false} FoldIsOverlay(row: Option<Row>, cs: seq<Change>, k: Key)
    requires !Resets(cs, k)
    ensures Fold(row, cs, k) ==
            if Cells(cs, k).Some? then Some(Overlay(row, Cells(cs, k).value)) else row
    decreases |cs|
  {
    if cs != [] {
      assert cs[0] in cs;
      assert forall c :: c in cs[1..] ==> c in cs;
      if cs[0].Write? {
        OverlayTwice(row, cs[0], cs[1..], k);
      }
      FoldIsOverlay(FoldOne(row, cs[0], k), cs[1..], k);
    }
  }

  lemma {:induction false} CellsComeFromWrites(cs: seq<Change>, k: Key)
    ensures Cells(cs, k).Some? <==> exists c :: c in cs && c.Write? && c.key == k
    ensures Cells(cs, k).Some? ==>
              forall col :: col in Cells(cs, k).value <==>
                exists c :: c in cs && c.Write? && c.key == k && col in c.cells
    decreases |cs|
  {
    if cs != [] {
      CellsComeFromWrites(cs[1..], k);
      assert cs[0] in cs;
      assert forall c :: c in cs <==> c == cs[0] || c in cs[1..];
    }
  }

  lemma CellsAreCovered(part: seq<Change>, log: seq<Change>, k: Key)
    requires forall c :: c in part && c.Touches(k) ==> c in log
    requires Cells(part, k).Some?
    ensures Cells(log, k).Some? && Cells(part, k).value.Keys <= Cells(log, k).value.Keys
  {
    CellsComeFromWrites(part, k);
    CellsComeFromWrites(log, k);
    var c :| c in part && c.Write? && c.key == k;
    assert c.Touches(k) && c in log;
    forall col | col in Cells(part, k).value ensures col in Cells(log, k).value {
      var d :| d in part && d.Write? && d.key == k && col in d.cells;
      assert d.Touches(k) && d in log;
    }
  }

  /** Absorption. Whatever part of a log has already been applied, in whatever order and however
  often, applying the log afterwards gives what applying it alone would have given. */
  lemma AbsorbKey(row: Option<Row>, part: seq<Change>, log: seq<Change>, k: Key)
    requires forall c :: c in part && c.Touches(k) ==> c in log
    ensures Fold(Fold(row, part, k), log, k) == Fold(row, log, k)
  {
    if Resets(log, k) {
      ResetForgets(Fold(row, part, k), row, log, k);
    } else {
      assert !Resets(part, k);
      FoldIsOverlay(row, part, k);
      FoldIsOverlay(row, log, k);
      FoldIsOverlay(Fold(row, part, k), log, k);
      if Cells(part, k).Some? {
        CellsAreCovered(part, log, k);
        var p, l := Cells(part, k).value, Cells(log, k).value;
        assert Overlay(Some(Overlay(row, p)), l) == Overlay(row, l);
      }
    }
  }

  /** The same for whole tables. With `part` a suffix of what was applied, this is the promise that a
  replay after a crash is harmless. */
  lemma Absorb(t: Table, part: seq<Change>, log: seq<Change>)
    requires forall c :: c in part ==> c in log
    ensures Apply(Apply(t, part), log) == Apply(t, log)
  {
    forall k ensures Lookup(Apply(Apply(t, part), log), k) == Lookup(Apply(t, log), k) {
      ApplyIsPerKey(t, part, k);
      ApplyIsPerKey(Apply(t, part), log, k);
      ApplyIsPerKey(t, log, k);
      AbsorbKey(Lookup(t, k), part, log, k);
    }
    SameRows(Apply(Apply(t, part), log), Apply(t, log));
  }

  /** Re-applying any suffix of a log to the result of the whole log changes nothing. */
  lemma ReplayIsHarmless(t: Table, log: seq<Change>, from: nat)
    requires from <= |log|
    ensures Apply(Apply(t, log), log[from..]) == Apply(t, log)
  {
    var suffix := log[from..];
    var mid := Apply(t, log[..from]);
    assert log == log[..from] + suffix;
    ApplyConcat(t, log[..from], suffix);
    Absorb(mid, suffix, suffix);
  }

  /** `cs` does not let on which of the two rows it started from: it throws the row away, or it writes every
  column in which they differ. */
  ghost predicate Hides(cs: seq<Change>, k: Key, x: Option<Row>, y: Option<Row>) {
    Resets(cs, k) || (if Cells(cs, k).Some? then Overlay(x, Cells(cs, k).value) == Overlay(y, Cells(cs, k).value) else x == y)
  }

  lemma SameAfterIffHidden(x: Option<Row>, y: Option<Row>, cs: seq<Change>, k: Key)
    ensures Fold(x, cs, k) == Fold(y, cs, k) <==> Hides(cs, k, x, y)
  {
    if Resets(cs, k) {
      ResetForgets(x, y, cs, k);
    } else {
      FoldIsOverlay(x, cs, k);
      FoldIsOverlay(y, cs, k);
    }
  }

  /* ----- sets of changes that may be written together ----- */

  /** What makes a batch one statement: no key twice, and a truncate only by itself. */
  predicate Independent(cs: seq<Change>) {
    && (forall i, j :: 0 <= i < j < |cs| && !cs[i].Empty? && !cs[j].Empty? ==> cs[i].key != cs[j].key)
    && (forall i :: 0 <= i < |cs| && cs[i].Empty? ==> |cs| == 1)
  }

  lemma {:induction false} UntouchedKey(row: Option<Row>, cs: seq<Change>, k: Key)
    requires forall c :: c in cs ==> !c.Touches(k)
    ensures Fold(row, cs, k) == row
    decreases |cs|
  {
    if cs != [] {
      assert cs[0] in cs;
      UntouchedKey(row, cs[1..], k);
    }
  }

  /** In an independent batch the row under `k` is decided by the one change that touches it. */
  lemma {:induction false} OnlyChange(row: Option<Row>, cs: seq<Change>, c: Change, k: Key)
    requires Independent(cs) && c in cs && c.Touches(k)
    ensures Fold(row, cs, k) == FoldOne(row, c, k)
    decreases |cs|
  {
    if cs[0] == c {
      forall d | d in cs[1..] ensures !d.Touches(k) {
        var j :| 0 <= j < |cs[1..]| && cs[1..][j] == d;
        assert cs[j + 1] == d;
      }
      UntouchedKey(FoldOne(row, c, k), cs[1..], k);
    } else {
      assert c in cs[1..];
      var j :| 0 <= j < |cs[1..]| && cs[1..][j] == c;
      assert cs[j + 1] == c;
      assert !cs[0].Touches(k);
      assert Independent(cs[1..]) by {
        forall i, j | 0 <= i < j < |cs[1..]| && !cs[1..][i].Empty? && !cs[1..][j].Empty?
          ensures cs[1..][i].key != cs[1..][j].key
        {
          assert cs[i + 1].key != cs[j + 1].key;
        }
        assert forall i :: 0 <= i < |cs[1..]| ==> cs[1..][i] == cs[i + 1];
      }
      OnlyChange(row, cs[1..], c, k);
    }
  }

  /** An independent batch may be written as a set: any order of its rows lands the same table. */
  lemma AnyOrder(t: Table, a: seq<Change>, b: seq<Change>)
    requires Independent(a) && Independent(b) && multiset(a) == multiset(b)
    ensures Apply(t, a) == Apply(t, b)
  {
    forall k ensures Lookup(Apply(t, a), k) == Lookup(Apply(t, b), k) {
      ApplyIsPerKey(t, a, k);
      ApplyIsPerKey(t, b, k);
      assert forall c :: c in a <==> c in multiset(a);
      assert forall c :: c in b <==> c in multiset(b);
      if c :| c in a && c.Touches(k) {
        assert c in b;
        OnlyChange(Lookup(t, k), a, c, k);
        OnlyChange(Lookup(t, k), b, c, k);
      } else {
        UntouchedKey(Lookup(t, k), a, k);
        UntouchedKey(Lookup(t, k), b, k);
      }
    }
    SameRows(Apply(t, a), Apply(t, b));
  }
}
