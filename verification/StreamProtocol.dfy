/** The change stream of one live bridge as a transition system: the source's log, the pending batch,
at most one delivery in flight, the durable cursor with its sequence number, the dead-letter queue,
and every point at which the process may die.

A position is the index of a log entry, and a cursor is a count: cursor `c` stands behind the entries
`0 .. c`. The change chain runs one handler at a time, so `accept` is two steps, `Take` (the replay
check) and `Put` (joining the batch), with the flush it may wait for in between. Deliveries, metadata
writes, retries of dead letters and crashes interleave with them freely. */
module StreamProtocol {
  import opened Changes

  /** What the stream makes of a log entry: a change to deliver, or something deliberately passed over
  (a transaction marker, a row outside the source filters, an echo of a write made here). */
  datatype Entry = Passed | Carried(change: Change)

  datatype Phase =
    | Sending
    | Landed
    | Failed(touched: set<nat>) // rows a smaller delivery has written while isolating
    | Recovered // failed as a whole, then every row went through
    | SetAside(nextSeq: nat) // what failed is parked; the stream goes on from `nextSeq`

  datatype Batch = Batch(items: seq<nat>, reach: nat, phase: Phase)

  datatype Status = Pending | Resolved | Discarded

  datatype Letter = Letter(sequence: nat, positions: seq<nat>, status: Status)

  datatype Config = Config(
    keyed: bool, // the source's primary key is known
    isolates: bool, // every target is a database written by upsert
    abort: bool, // onError
    maxConsecutiveFailures: nat,
    deadLetterMaxRows: nat)

  datatype State = State(
    // at the source and the destination
    log: seq<Entry>,
    acked: nat,
    dest: Table,
    // in the metadata store
    saved: nat,
    savedSeq: nat,
    letters: seq<Letter>,
    // in memory
    next: nat, // what the provider hands over next
    watermark: nat,
    seqNo: nat,
    hand: Option<nat>, // a change past the replay check, waiting to join the batch
    buffer: seq<nat>,
    tail: Option<nat>,
    inflight: Option<Batch>,
    halted: bool,
    failures: nat,
    // history
    landed: set<nat>)

  datatype Action =
    | SourceWrites(entry: Entry)
    | Take
    | Put
    | Flush
    | Deliver
    | DeliverFails(part: seq<nat>) // reported failed; some rows may be written all the same
    | Attempt(part: seq<nat>, ok: bool) // a smaller delivery, isolating
    | Handle(delivered: seq<nat>, poisoned: seq<nat>) // isolation is over: park, or stop
    | StoreError // the metadata store failed: `settle` does its work again
    | Stop // abort, a systemic failure, or `settle` giving up
    | Checkpoint
    | Ack
    | Rewind(to: nat) // the provider reconnects and replays
    | Restart // a crash, or a stop, and the next start
    | Retry(i: nat, asRecorded: bool) // each retry looks for a key to read the rows again by, and may find none
    | RetryFails(i: nat, some: seq<Key>) // reading again
    | ReplayFails(i: nat, part: seq<nat>) // as recorded; reported failed, some rows may be written all the same
    | Discard(i: nat)

  const CHUNK: nat := 500

  function Initial(): State {
    State([], 0, map[], 0, 0, [], 0, 0, 0, None, [], None, None, false, 0, {})
  }

  /* ----- reading the log ----- */

  predicate IsChange(log: seq<Entry>, p: nat) {
    p < |log| && log[p].Carried?
  }

  predicate AllChanges(log: seq<Entry>, ps: seq<nat>) {
    forall p :: p in ps ==> IsChange(log, p)
  }

  function ChangesOf(log: seq<Entry>, ps: seq<nat>): (cs: seq<Change>)
    requires AllChanges(log, ps)
    ensures |cs| == |ps| && forall i :: 0 <= i < |ps| ==> IsChange(log, ps[i]) && cs[i] == log[ps[i]].change
  {
    seq(|ps|, i requires 0 <= i < |ps| =>
      assert ps[i] in ps; log[ps[i]].change)
  }

  /** The changes of the entries `lo .. hi`, in order. */
  function Slice(log: seq<Entry>, lo: nat, hi: nat): seq<Change>
    requires lo <= hi <= |log|
    decreases hi - lo
  {
    if lo == hi then []
    else (if log[lo].Carried? then [log[lo].change] else []) + Slice(log, lo + 1, hi)
  }

  /** The source's table as it is now. */
  function SourceTable(log: seq<Entry>): Table {
    Apply(map[], Slice(log, 0, |log|))
  }

  /* ----- the steps ----- */

  /** May the change at `p` not join the batch in `buffer`? */
  predicate Conflicts(cfg: Config, log: seq<Entry>, buffer: seq<nat>, p: nat)
    requires AllChanges(log, buffer) && IsChange(log, p)
  {
    var c := log[p].change;
    buffer != [] &&
    (c.Empty? ||
     (assert buffer[|buffer| - 1] in buffer; log[buffer[|buffer| - 1]].change).Operation() != c.Operation() ||
     (cfg.keyed && exists q :: q in buffer && !log[q].change.Empty? && log[q].change.key == c.key))
  }

  function PendingRows(letters: seq<Letter>): nat {
    if letters == [] then 0
    else (if letters[0].status.Pending? then |letters[0].positions| else 0) + PendingRows(letters[1..])
  }

  /** What `park` leaves of the queue before it adds its own entries. */
  function KeptBelow(letters: seq<Letter>, from: nat): seq<Letter> {
    if letters == [] then []
    else (if letters[0].status.Pending? && letters[0].sequence >= from then [] else [letters[0]])
         + KeptBelow(letters[1..], from)
  }

  /** One entry per isolated row, else entries of at most `CHUNK` rows. */
  function Entries(rows: seq<nat>, isolated: bool, sequence: nat): seq<Letter>
    decreases |rows|
  {
    if rows == [] then []
    else
      var n := if isolated then 1 else if |rows| < CHUNK then |rows| else CHUNK;
      [Letter(sequence, rows[..n], Pending)] + Entries(rows[n..], isolated, sequence)
  }

  function Isolating(cfg: Config, b: Batch): bool {
    cfg.isolates && |b.items| > 1
  }

  predicate PartOf(part: seq<nat>, whole: seq<nat>) {
    forall p :: p in part ==> p in whole
  }

  predicate WellFormed(s: State) {
    && AllChanges(s.log, s.buffer)
    && (s.inflight.Some? ==> AllChanges(s.log, s.inflight.value.items) && s.inflight.value.reach <= |s.log|)
    && (s.hand.Some? ==> IsChange(s.log, s.hand.value))
    && (forall l :: l in s.letters ==> AllChanges(s.log, l.positions))
    && s.next <= |s.log|
    && s.saved <= |s.log|
    && s.watermark == s.saved && s.seqNo == s.savedSeq
    && (s.tail.Some? ==> s.tail.value <= |s.log|)
    && (s.tail.None? ==> s.buffer == [])
  }

  predicate Enabled(cfg: Config, s: State, a: Action)
    requires WellFormed(s)
  {
    match a
    case SourceWrites(_) => true
    case Take => !s.halted && s.hand.None? && s.next < |s.log|
    case Put => !s.halted && s.hand.Some? && !Conflicts(cfg, s.log, s.buffer, s.hand.value)
    case Flush => !s.halted && s.tail.Some? && s.inflight.None?
    case Deliver => s.inflight.Some? && s.inflight.value.phase.Sending?
    case DeliverFails(part) =>
      s.inflight.Some? && s.inflight.value.phase.Sending? && s.inflight.value.items != [] &&
      PartOf(part, s.inflight.value.items)
    case Attempt(part, _) =>
      !cfg.abort && s.inflight.Some? && s.inflight.value.phase.Failed? &&
      Isolating(cfg, s.inflight.value) && PartOf(part, s.inflight.value.items)
    case Handle(delivered, poisoned) =>
      && !cfg.abort && s.inflight.Some? && s.inflight.value.phase.Failed?
      && multiset(delivered) + multiset(poisoned) == multiset(s.inflight.value.items)
      && (if Isolating(cfg, s.inflight.value)
          then forall p :: p in delivered ==> p in s.inflight.value.phase.touched
          else delivered == [])
    case StoreError =>
      !s.halted && s.inflight.Some? && !s.inflight.value.phase.Sending? && !s.inflight.value.phase.Landed?
    case Stop => true
    case Checkpoint =>
      !s.halted && s.inflight.Some? &&
      (s.inflight.value.phase.Landed? || s.inflight.value.phase.Recovered? || s.inflight.value.phase.SetAside?)
    case Ack => !s.halted
    case Rewind(to) => to <= s.next
    case Restart => true
    case Retry(i, asRecorded) => i < |s.letters| && s.letters[i].status.Pending? && (Unkeyed(cfg, s, i) ==> asRecorded)
    case RetryFails(i, some) =>
      i < |s.letters| && s.letters[i].status.Pending? && !Unkeyed(cfg, s, i) && (forall k :: k in some ==> Names(s, i, k))
    case ReplayFails(i, part) =>
      i < |s.letters| && s.letters[i].status.Pending? && PartOf(part, s.letters[i].positions)
    case Discard(i) => i < |s.letters| && s.letters[i].status.Pending?
  }

  function AfterTake(s: State): State
    requires WellFormed(s) && s.next < |s.log|
  {
    var cursor := s.next + 1;
    if cursor <= s.watermark then s.(next := cursor) // a replay
    else if s.log[s.next].Carried? then s.(next := cursor, hand := Some(s.next))
    else s.(next := cursor,
            tail := if cursor > (if s.tail.Some? then s.tail.value else s.watermark) then Some(cursor) else s.tail)
  }

  function AfterPut(s: State): State
    requires s.hand.Some?
  {
    s.(hand := None, buffer := s.buffer + [s.hand.value], tail := Some(s.hand.value + 1))
  }

  function AfterFlush(s: State): State
    requires s.tail.Some?
  {
    s.(inflight := Some(Batch(s.buffer, s.tail.value, Sending)), buffer := [], tail := None)
  }

  function InPhaseNow(s: State, p: Phase): State
    requires s.inflight.Some?
  {
    s.(inflight := Some(s.inflight.value.(phase := p)))
  }

  function AfterWrite(s: State, part: seq<nat>): State
    requires AllChanges(s.log, part)
  {
    s.(dest := Apply(s.dest, ChangesOf(s.log, part)))
  }

  function AsSet(ps: seq<nat>): set<nat> {
    set p | p in ps
  }

  /** The failed rows join the dead-letter queue, which is what lets the stream go on. */
  function AfterPark(s: State, rows: seq<nat>, isolated: bool, failedSeq: nat): State
    requires s.inflight.Some?
  {
    InPhaseNow(s.(letters := KeptBelow(s.letters, s.seqNo) + Entries(rows, isolated, failedSeq)),
               SetAside(failedSeq + 1))
  }

  /** The end of a failed batch: nothing left over, a stop, or what failed parked first. */
  function AfterHandle(cfg: Config, s: State, delivered: seq<nat>, poisoned: seq<nat>): State
    requires s.inflight.Some?
  {
    var failures := if delivered != [] then 0 else s.failures + 1;
    var failedSeq := if delivered != [] then s.seqNo + 1 else s.seqNo;
    if poisoned == [] then InPhaseNow(s.(failures := 0), Recovered)
    else if failures >= cfg.maxConsecutiveFailures then s.(failures := failures, halted := true)
    else if PendingRows(s.letters) + |poisoned| > cfg.deadLetterMaxRows then s.(failures := failures, halted := true)
    else AfterPark(s.(failures := failures), poisoned, Isolating(cfg, s.inflight.value), failedSeq)
  }

  function NextSeq(s: State): nat
    requires s.inflight.Some?
  {
    var b := s.inflight.value;
    if b.phase.SetAside? then b.phase.nextSeq
    else if b.items == [] then s.seqNo // a batch of no rows
    else s.seqNo + 1
  }

  function AfterCheckpoint(s: State): State
    requires s.inflight.Some?
  {
    var b := s.inflight.value;
    var n := NextSeq(s);
    s.(saved := b.reach, savedSeq := n, watermark := b.reach, seqNo := n, inflight := None,
       failures := if b.phase.Landed? then 0 else s.failures)
  }

  function AfterRestart(s: State): State {
    s.(next := s.saved, watermark := s.saved, seqNo := s.savedSeq, hand := None, buffer := [], tail := None,
       inflight := None, halted := false, failures := 0)
  }

  /** Is there no key to read the entry's rows again by, however hard one looks? */
  predicate Unkeyed(cfg: Config, s: State, i: nat)
    requires i < |s.letters| && AllChanges(s.log, s.letters[i].positions)
  {
    !cfg.keyed || exists p :: p in s.letters[i].positions && s.log[p].change.Empty?
  }

  predicate Names(s: State, i: nat, k: Key)
    requires i < |s.letters| && AllChanges(s.log, s.letters[i].positions)
  {
    exists p :: p in s.letters[i].positions && !s.log[p].change.Empty? && s.log[p].change.key == k
  }

  function KeysOf(log: seq<Entry>, ps: seq<nat>): seq<Key>
    requires AllChanges(log, ps)
    requires forall p :: p in ps ==> !log[p].change.Empty?
  {
    seq(|ps|, i requires 0 <= i < |ps| => assert ps[i] in ps; log[ps[i]].change.key)
  }

  /** Each key as the source has it NOW: its row written whole (a row read back carries every column),
  or removed where the source has none. */
  function Refresh(dest: Table, source: Table, keys: seq<Key>): Table
    decreases |keys|
  {
    if keys == [] then dest
    else Refresh(if keys[0] in source then dest[keys[0] := source[keys[0]]] else dest - {keys[0]}, source, keys[1..])
  }

  function AfterRetry(cfg: Config, s: State, i: nat, asRecorded: bool): State
    requires WellFormed(s) && i < |s.letters| && s.letters[i] in s.letters && (Unkeyed(cfg, s, i) ==> asRecorded)
  {
    var ps := s.letters[i].positions;
    var t := s.(letters := s.letters[i := s.letters[i].(status := Resolved)]);
    if asRecorded then t.(dest := Apply(s.dest, ChangesOf(s.log, ps)))
    else t.(dest := Refresh(s.dest, SourceTable(s.log), KeysOf(s.log, ps)))
  }

  function Do(cfg: Config, s: State, a: Action): State
    requires WellFormed(s) && Enabled(cfg, s, a)
  {
    match a
    case SourceWrites(entry) => s.(log := s.log + [entry])
    case Take => AfterTake(s)
    case Put => AfterPut(s)
    case Flush => AfterFlush(s)
    case Deliver =>
      var items := s.inflight.value.items;
      InPhaseNow(AfterWrite(s, items).(landed := s.landed + AsSet(items)), Landed)
    case DeliverFails(part) => InPhaseNow(AfterWrite(s, part), Failed({}))
    case Attempt(part, ok) =>
      var t := AfterWrite(s, part);
      if ok then InPhaseNow(t.(landed := s.landed + AsSet(part)), Failed(s.inflight.value.phase.touched + AsSet(part)))
      else t
    case Handle(delivered, poisoned) => AfterHandle(cfg, s, delivered, poisoned)
    case StoreError => InPhaseNow(s, Failed({}))
    case Stop => s.(halted := true)
    case Checkpoint => AfterCheckpoint(s)
    case Ack => s.(acked := s.watermark)
    case Rewind(to) => s.(next := to)
    case Restart => AfterRestart(s)
    case Retry(i, asRecorded) => AfterRetry(cfg, s, i, asRecorded)
    case RetryFails(i, some) => s.(dest := Refresh(s.dest, SourceTable(s.log), some))
    case ReplayFails(i, part) => assert s.letters[i] in s.letters; AfterWrite(s, part)
    case Discard(i) => s.(letters := s.letters[i := s.letters[i].(status := Discarded)])
  }

  /* ----- runs ----- */

  predicate IsRun(cfg: Config, s: State, run: seq<Action>)
    decreases |run|
  {
    run == [] ||
    (WellFormed(s) && Enabled(cfg, s, run[0]) && IsRun(cfg, Do(cfg, s, run[0]), run[1..]))
  }

  function After(cfg: Config, s: State, run: seq<Action>): State
    requires IsRun(cfg, s, run)
    decreases |run|
  {
    if run == [] then s else After(cfg, Do(cfg, s, run[0]), run[1..])
  }
}
