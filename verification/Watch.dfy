/** One poll of a watching bridge: pages of new rows, each row delivered, parked, or dropped as an echo before
the cursor is saved. What a query returns and how a page moves the cursor are parameters. A row stands for one
version of it. */
module Watch {
  import opened Changes

  type RowId = nat
  type Cursor = string

  const SCAN_PAGES_PER_POLL: nat := 50

  datatype Letter = Letter(sequence: nat, row: RowId, pending: bool)

  /** What happens to one row of one page. */
  datatype Fate = Fate(
    aborted: bool, // the poll is told to stop
    echo: bool, // recognised, and its way round is closed
    drifted: bool, // the table lost a column the bridge needs
    ok: bool, // delivered
    parked: bool, // the dead-letter queue took it
    crashBeforePark: bool,
    crashBeforeSave: bool)

  datatype Config = Config(abort: bool, maxConsecutiveFailures: nat, deadLetterMaxRows: nat, limit: nat, pageLimit: nat)

  datatype Page = Page(rows: seq<RowId>)

  function PendingOf(letters: seq<Letter>): nat {
    if letters == [] then 0 else (if letters[0].pending then 1 else 0) + PendingOf(letters[1..])
  }

  /** What `park` leaves of the queue: the pending entries at or above `from` are replaced. */
  function Kept(letters: seq<Letter>, from: nat): seq<Letter> {
    if letters == [] then []
    else (if letters[0].pending && letters[0].sequence >= from then [] else [letters[0]]) + Kept(letters[1..], from)
  }

  lemma {:induction false} KeptBelow(letters: seq<Letter>, from: nat)
    ensures forall l :: l in Kept(letters, from) <==> l in letters && !(l.pending && l.sequence >= from)
    decreases |letters|
  {
    if letters != [] {
      KeptBelow(letters[1..], from);
      assert forall l :: l in letters <==> l == letters[0] || l in letters[1..];
    }
  }

  class Watcher {
    const cfg: Config
    // in the metadata store
    var cursor: Cursor
    var cursorOffset: nat
    var letters: seq<Letter>
    var records: map<nat, RowId> // what was delivered, by sequence
    // history
    ghost var landed: set<RowId>
    ghost var echoes: set<RowId>
    ghost var behind: set<RowId> // the new rows of every page whose cursor has been saved

    /** Delivered, dropped as an echo, or parked behind the saved sequence. */
    ghost predicate Safe(row: RowId)
      reads this
    {
      row in landed || row in echoes || exists l :: l in letters && l.row == row && l.sequence < cursorOffset
    }

    /** Nothing behind the cursor is lost. */
    ghost predicate Valid()
      reads this
    {
      forall row :: row in behind ==> Safe(row)
    }

    constructor (cfg: Config, start: Cursor)
      ensures Valid() && this.cfg == cfg && cursor == start && behind == {}
    {
      this.cfg, cursor, cursorOffset, letters, records := cfg, start, 0, [], map[];
      landed, echoes, behind := {}, {}, {};
    }

    method PendingRows() returns (held: nat)
      ensures held == PendingOf(letters)
    {
      held := 0;
      var i := 0;
      while i < |letters|
        invariant 0 <= i <= |letters| && held + PendingOf(letters[i..]) == PendingOf(letters)
      {
        assert letters[i..][1..] == letters[i + 1..];
        if letters[i].pending {
          held := held + 1;
        }
        i := i + 1;
      }
    }

    /** One row. `next` is the sequence the poll goes on with; without `goOn` it stops, for whatever reason,
    and the page's cursor is not saved. */
    method HandleRow(row: RowId, fate: Fate, failures: nat) returns (goOn: bool, nowFailures: nat)
      requires Valid()
      modifies this`cursorOffset, this`letters, this`records, this`landed, this`echoes
      ensures Valid() && old(cursorOffset) <= cursorOffset
      ensures forall r :: old(Safe(r)) ==> Safe(r)
      ensures goOn ==> Safe(row)
      ensures forall s :: s in old(records) && s < old(cursorOffset) ==> s in records && records[s] == old(records)[s]
    {
      nowFailures := failures;
      if fate.aborted {
        return false, nowFailures;
      }
      if fate.echo {
        echoes := echoes + {row};
        return true, nowFailures;
      }
      if fate.drifted {
        return false, nowFailures;
      }
      if fate.ok {
        landed := landed + {row};
        records := records[cursorOffset := row];
        nowFailures := 0;
      } else {
        if cfg.abort || fate.crashBeforePark {
          return false, nowFailures;
        }
        nowFailures := failures + 1;
        if nowFailures >= cfg.maxConsecutiveFailures {
          return false, nowFailures;
        }
        var held := PendingRows();
        if held + 1 > cfg.deadLetterMaxRows || !fate.parked {
          return false, nowFailures;
        }
        KeptBelow(letters, cursorOffset);
        ghost var was := letters;
        letters := Kept(letters, cursorOffset) + [Letter(cursorOffset, row, true)];
        assert forall l :: l in was && l.sequence < cursorOffset ==> l in letters;
        assert Letter(cursorOffset, row, true) in letters;
      }
      if fate.crashBeforeSave {
        return false, nowFailures;
      }
      cursorOffset := cursorOffset + 1; // saved at once: a crash in mid-page must not use it again
      goOn := true;
    }

    /** A page's new rows, in order. */
    method HandlePage(newRows: seq<RowId>, fates: nat -> Fate, failures: nat) returns (goOn: bool, nowFailures: nat)
      requires Valid()
      modifies this`cursorOffset, this`letters, this`records, this`landed, this`echoes
      ensures Valid() && old(cursorOffset) <= cursorOffset
      ensures goOn ==> forall r :: r in newRows ==> Safe(r)
      ensures forall s :: s in old(records) && s < old(cursorOffset) ==> s in records && records[s] == old(records)[s]
    {
      nowFailures := failures;
      var i := 0;
      while i < |newRows|
        invariant 0 <= i <= |newRows| && Valid() && old(cursorOffset) <= cursorOffset
        invariant forall j :: 0 <= j < i ==> Safe(newRows[j])
        invariant forall s :: s in old(records) && s < old(cursorOffset) ==> s in records && records[s] == old(records)[s]
      {
        goOn, nowFailures := HandleRow(newRows[i], fates(i), nowFailures);
        if !goOn {
          return false, nowFailures;
        }
        i := i + 1;
      }
      goOn := true;
    }

    /** The cursor moves over a page only once each of its new rows is safe. */
    method SaveCursor(next: Cursor, ghost newRows: seq<RowId>)
      requires Valid() && forall r :: r in newRows ==> Safe(r)
      modifies this`cursor, this`behind
      ensures Valid() && cursor == next && behind == old(behind) + set r | r in newRows
    {
      cursor := next;
      behind := behind + set r | r in newRows;
    }

    /** One poll. `browse` is the query for a cursor and an offset, `advance` what a page makes of the cursor,
    `fates(p)` what happens to the rows of the p-th page, `stops(p)` whether the poll ends before it is saved. */
    method Poll(browse: (Cursor, nat) -> Page, advance: (Cursor, Page) -> (seq<RowId>, Cursor),
                fates: nat -> (nat -> Fate), stops: nat -> bool)
      requires Valid()
      modifies this
      ensures Valid() && old(behind) <= behind && old(cursorOffset) <= cursorOffset
      ensures forall s :: s in old(records) && s < old(cursorOffset) ==> s in records && records[s] == old(records)[s]
    {
      var delivered: nat, offset: nat, pages: nat, failures: nat := 0, 0, 0, 0;
      while delivered < cfg.limit && pages < SCAN_PAGES_PER_POLL
        invariant Valid() && old(behind) <= behind && old(cursorOffset) <= cursorOffset
        invariant forall s :: s in old(records) && s < old(cursorOffset) ==> s in records && records[s] == old(records)[s]
        decreases SCAN_PAGES_PER_POLL - pages
      {
        var page := browse(cursor, offset);
        var (newRows, next) := advance(cursor, page);
        var goOn;
        goOn, failures := HandlePage(newRows, fates(pages), failures);
        if !goOn || stops(pages) {
          return;
        }
        pages := pages + 1;
        var advanced := next != cursor;
        delivered := delivered + |newRows|;
        SaveCursor(next, newRows);
        if |page.rows| < cfg.pageLimit {
          return; // drained everything in the window
        }
        if newRows == [] && !advanced {
          offset := offset + |page.rows|; // the cursor cannot move within the page: read on behind it by offset
        } else {
          offset := 0;
        }
      }
    }
  }

  datatype Run = Run(browse: (Cursor, nat) -> Page, advance: (Cursor, Page) -> (seq<RowId>, Cursor),
                     fates: nat -> (nat -> Fate), stops: nat -> bool)

  /** Over any history of polls, stopped and crashed anywhere: every new row of a page whose cursor was saved has
  been delivered, was an echo, or is parked behind the saved sequence; and what was delivered under a sequence
  that is saved keeps it. */
  method Polls(w: Watcher, runs: seq<Run>)
    requires w.Valid()
    modifies w
    ensures forall row :: row in w.behind ==> w.Safe(row)
    ensures old(w.behind) <= w.behind
    ensures forall s :: s in old(w.records) && s < old(w.cursorOffset) ==> s in w.records && w.records[s] == old(w.records)[s]
  {
    var i := 0;
    while i < |runs|
      invariant 0 <= i <= |runs| && w.Valid() && old(w.behind) <= w.behind && old(w.cursorOffset) <= w.cursorOffset
      invariant forall s :: s in old(w.records) && s < old(w.cursorOffset) ==> s in w.records && w.records[s] == old(w.records)[s]
    {
      w.Poll(runs[i].browse, runs[i].advance, runs[i].fates, runs[i].stops);
      i := i + 1;
    }
  }
}
