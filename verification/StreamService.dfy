/** The stream as the object it is in the source: fields updated step by step, proved to take the steps of
the transition system. `Now()` is its abstract value. */
module StreamService {
  import opened Changes
  import opened StreamProtocol
  import StreamNoLoss
  import StreamTheorems

  lemma FirstEntry(rows: seq<nat>, i: nat, end: nat, isolated: bool, sequence: nat)
    requires i < end <= |rows| && end == if i + (if isolated then 1 else CHUNK) < |rows| then i + (if isolated then 1 else CHUNK) else |rows|
    ensures Entries(rows[i..], isolated, sequence) ==
            [Letter(sequence, rows[i..end], Pending)] + Entries(rows[end..], isolated, sequence)
  {
    assert rows[i..][..end - i] == rows[i..end] && rows[i..][end - i..] == rows[end..];
  }

  class Stream {
    const cfg: Config
    // at the source and the destination
    var log: seq<Entry>
    var acked: nat
    var dest: Table
    ghost var landed: set<nat>
    // the job's row and the dead-letter table
    var savedCursor: nat
    var savedSeq: nat
    var letters: seq<Letter>
    // in memory
    var next: nat
    var watermark: nat
    var seqNo: nat
    var hand: Option<nat>
    var buffer: seq<nat>
    var tailCursor: Option<nat>
    var inflight: Option<Batch>
    var halted: bool
    var consecutiveFailures: nat

    ghost function Now(): State
      reads this
    {
      State(log, acked, dest, savedCursor, savedSeq, letters, next, watermark, seqNo, hand, buffer, tailCursor, inflight,
            halted, consecutiveFailures, landed)
    }

    constructor (cfg: Config)
      ensures this.cfg == cfg && Now() == Initial() && WellFormed(Now())
    {
      this.cfg := cfg;
      log, acked, dest, landed := [], 0, map[], {};
      savedCursor, savedSeq, letters := 0, 0, [];
      next, watermark, seqNo, hand, buffer, tailCursor := 0, 0, 0, None, [], None;
      inflight, halted, consecutiveFailures := None, false, 0;
    }

    /** Nothing to deliver at this position: only the tail moves. */
    method NotePosition(cursor: nat)
      modifies this`tailCursor
      ensures tailCursor ==
              if !halted && cursor > (if old(tailCursor).Some? then old(tailCursor).value else watermark) then Some(cursor)
              else old(tailCursor)
    {
      if halted {
        return;
      }
      // at or behind the tail
      if cursor <= (if tailCursor.Some? then tailCursor.value else watermark) {
        return;
      }
      tailCursor := Some(cursor);
    }

    /** The first half of `accept`: the replay check, and what is passed over. */
    method Take()
      requires WellFormed(Now()) && Enabled(cfg, Now(), Action.Take)
      modifies this`next, this`hand, this`tailCursor
      ensures Now() == Do(cfg, old(Now()), Action.Take)
    {
      var entry := log[next];
      next := next + 1;
      if next <= watermark {
        return; // not beyond the watermark
      }
      match entry
      case Passed => NotePosition(next);
      case Carried(_) => hand := Some(next - 1);
    }

    /** The second half: the change joins the pending batch. */
    method Put()
      requires WellFormed(Now()) && Enabled(cfg, Now(), Action.Put)
      modifies this`hand, this`buffer, this`tailCursor
      ensures Now() == Do(cfg, old(Now()), Action.Put)
    {
      buffer := buffer + [hand.value];
      tailCursor := Some(hand.value + 1);
      hand := None;
    }

    /** Hand the pending batch over for delivery; whatever was in flight has been waited for. */
    method Flush()
      requires inflight.None? || tailCursor.None? || halted
      modifies this`inflight, this`buffer, this`tailCursor
      ensures Now() == if old(tailCursor).None? || halted then old(Now()) else AfterFlush(old(Now()))
    {
      if tailCursor.None? || halted {
        return;
      }
      var items, reach := buffer, tailCursor.value;
      tailCursor := None;
      buffer := [];
      inflight := Some(Batch(items, reach, Sending));
    }

    method PendingRowCount() returns (held: nat)
      ensures held == PendingRows(letters)
    {
      held := 0;
      var i := 0;
      while i < |letters|
        invariant 0 <= i <= |letters| && held + PendingRows(letters[i..]) == PendingRows(letters)
      {
        assert letters[i..][1..] == letters[i + 1..];
        if letters[i].status.Pending? {
          held := held + |letters[i].positions|;
        }
        i := i + 1;
      }
    }

    /** One entry per isolated row, or chunks. */
    method EntriesFor(rows: seq<nat>, isolated: bool, sequence: nat) returns (entries: seq<Letter>)
      ensures entries == Entries(rows, isolated, sequence)
    {
      entries := [];
      var chunk := if isolated then 1 else CHUNK;
      var i := 0;
      while i < |rows|
        invariant 0 <= i <= |rows|
        invariant entries + Entries(rows[i..], isolated, sequence) == Entries(rows, isolated, sequence)
      {
        var end := if i + chunk < |rows| then i + chunk else |rows|;
        FirstEntry(rows, i, end, isolated, sequence);
        entries := entries + [Letter(sequence, rows[i..end], Pending)];
        i := end;
      }
    }

    /** One transaction: what an interrupted attempt left behind is replaced. */
    method Park(entries: seq<Letter>, replaceFrom: nat)
      modifies this`letters
      ensures letters == KeptBelow(old(letters), replaceFrom) + entries
    {
      var kept: seq<Letter> := [];
      var i := 0;
      while i < |letters|
        invariant 0 <= i <= |letters| && letters == old(letters)
        invariant kept + KeptBelow(letters[i..], replaceFrom) == KeptBelow(letters, replaceFrom)
      {
        assert letters[i..][1..] == letters[i + 1..];
        if !(letters[i].status.Pending? && letters[i].sequence >= replaceFrom) {
          kept := kept + [letters[i]];
        }
        i := i + 1;
      }
      letters := kept + entries;
    }

    /** The batch in flight failed. Returns the sequence the stream goes on from, or none when it stops. */
    method HandleFailedBatch(delivered: seq<nat>, poisoned: seq<nat>) returns (goOn: Option<nat>)
      requires inflight.Some? && inflight.value.items != [] && !halted
      modifies this`consecutiveFailures, this`halted, this`letters, this`inflight
      ensures Now() == AfterHandle(cfg, old(Now()), delivered, poisoned)
      ensures goOn == if halted then None else Some(NextSeq(Now()))
    {
      var b := inflight.value;
      if poisoned == [] { // every row landed after all
        consecutiveFailures := 0;
        inflight := Some(b.(phase := Recovered));
        return Some(seqNo + 1);
      }
      consecutiveFailures := if delivered != [] then 0 else consecutiveFailures + 1;
      if consecutiveFailures >= cfg.maxConsecutiveFailures {
        halted := true;
        return None;
      }
      var held := PendingRowCount();
      if held + |poisoned| > cfg.deadLetterMaxRows {
        halted := true;
        return None;
      }
      var failedSeq := if delivered != [] then seqNo + 1 else seqNo;
      PutAside(poisoned, Isolating(cfg, b), failedSeq);
      goOn := Some(failedSeq + 1);
    }

    method PutAside(rows: seq<nat>, isolated: bool, failedSeq: nat)
      requires inflight.Some?
      modifies this`letters, this`inflight
      ensures Now() == AfterPark(old(Now()), rows, isolated, failedSeq)
    {
      var entries := EntriesFor(rows, isolated, failedSeq);
      Park(entries, seqNo);
      inflight := Some(inflight.value.(phase := SetAside(failedSeq + 1)));
    }

    /** Make progress durable: one write holds the cursor and the sequence number. */
    method SaveProgress(nextSeq: nat, cursor: nat)
      modifies this`savedCursor, this`savedSeq, this`seqNo, this`watermark
      ensures savedCursor == watermark == cursor && savedSeq == seqNo == nextSeq
    {
      savedCursor, savedSeq := cursor, nextSeq;
      seqNo := nextSeq;
      watermark := cursor;
    }

    method Checkpoint()
      requires WellFormed(Now()) && Enabled(cfg, Now(), Action.Checkpoint)
      modifies this`savedCursor, this`savedSeq, this`seqNo, this`watermark, this`inflight, this`consecutiveFailures
      ensures Now() == Do(cfg, old(Now()), Action.Checkpoint)
    {
      var b := inflight.value;
      if b.phase.Landed? {
        consecutiveFailures := 0;
      }
      if b.phase.SetAside? {
        SaveProgress(b.phase.nextSeq, b.reach);
      } else if b.items == [] {
        SaveProgress(seqNo, b.reach); // the sequence is for deliveries
      } else {
        SaveProgress(seqNo + 1, b.reach);
      }
      inflight := None;
    }

    /** The next start, after a stop or a crash: everything in memory is gone. */
    method Begin()
      modifies this
      ensures Now() == AfterRestart(old(Now()))
    {
      ForgetBatch();
      next, watermark, seqNo := savedCursor, savedCursor, savedSeq;
      halted, consecutiveFailures := false, 0;
    }

    method ForgetBatch()
      modifies this`hand, this`buffer, this`tailCursor, this`inflight
      ensures hand == None && buffer == [] && tailCursor == None && inflight == None
    {
      hand, buffer, tailCursor, inflight := None, [], None, None;
    }
  }

  /** A failed batch's whole way: handled, and unless that stopped the stream, behind the cursor. */
  method SettleFailedBatch(stream: Stream, delivered: seq<nat>, poisoned: seq<nat>)
    requires WellFormed(stream.Now()) && Enabled(stream.cfg, stream.Now(), Handle(delivered, poisoned)) && !stream.halted
    requires stream.inflight.value.items != []
    modifies stream
    ensures var handled := Do(stream.cfg, old(stream.Now()), Handle(delivered, poisoned));
            stream.Now() == if handled.halted then handled else AfterCheckpoint(handled)
  {
    ghost var was := stream.Now();
    StreamNoLoss.SplitRows(delivered, poisoned, was.inflight.value.items);
    HandledForms(stream.cfg, was, delivered, poisoned);
    var goOn := stream.HandleFailedBatch(delivered, poisoned);
    if goOn.Some? {
      stream.Checkpoint();
    }
  }

  lemma HandledForms(cfg: Config, s: State, delivered: seq<nat>, poisoned: seq<nat>)
    requires WellFormed(s) && s.inflight.Some? && PartOf(poisoned, s.inflight.value.items) && !s.halted
    ensures var t := AfterHandle(cfg, s, delivered, poisoned);
            WellFormed(t) && (!t.halted ==> Enabled(cfg, t, Action.Checkpoint))
  {
    var failures := if delivered != [] then 0 else s.failures + 1;
    if poisoned == [] || failures >= cfg.maxConsecutiveFailures ||
       PendingRows(s.letters) + |poisoned| > cfg.deadLetterMaxRows {
    } else {
      ParkForms(s, failures, poisoned, Isolating(cfg, s.inflight.value), if delivered != [] then s.seqNo + 1 else s.seqNo);
    }
  }

  lemma ParkForms(s: State, failures: nat, rows: seq<nat>, isolated: bool, failedSeq: nat)
    requires WellFormed(s) && s.inflight.Some? && PartOf(rows, s.inflight.value.items)
    ensures WellFormed(AfterPark(s.(failures := failures), rows, isolated, failedSeq))
  {
    StreamTheorems.QueueStaysWellFormed(s.(failures := failures), rows, isolated, failedSeq);
  }
}
