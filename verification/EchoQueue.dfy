/** The memory of this instance's own writes to one row: what is announced before a write, recognised when the
change is read back, and taken back when nothing changed. One writer, and a reader that reads in order. */
module EchoQueue {
  import opened Changes

  const PER_ROW: nat := 20

  /** A change in the table's log; `own` is history, which the reader does not see. */
  datatype Logged = Logged(value: int, own: bool)

  /** The first entry that `change` matches, or the length. */
  function FirstMatch(queue: seq<int>, same: (int, int) -> bool, change: int): (i: nat)
    ensures i <= |queue| && (i < |queue| ==> same(queue[i], change)) && forall j :: 0 <= j < i ==> !same(queue[j], change)
  {
    if queue == [] then 0
    else if same(queue[0], change) then 0
    else 1 + FirstMatch(queue[1..], same, change)
  }

  /** Remembered at the end; only the newest are kept. */
  function Pushed(queue: seq<int>, value: int): seq<int> {
    var longer := queue + [value];
    if |longer| > PER_ROW then longer[|longer| - PER_ROW..] else longer
  }

  /** Without its last entry that is `value`. */
  function WithoutLast(queue: seq<int>, value: int): seq<int>
    decreases |queue|
  {
    if queue == [] then []
    else if queue[|queue| - 1] == value then queue[..|queue| - 1]
    else WithoutLast(queue[..|queue| - 1], value) + [queue[|queue| - 1]]
  }

  class EchoMemory {
    const same: (int, int) -> bool
    var queue: seq<int>

    constructor (same: (int, int) -> bool)
      ensures this.same == same && queue == []
    {
      this.same, queue := same, [];
    }

    /** Said before the write, so that the change finds it there however soon it comes back. */
    method Announce(value: int)
      modifies this
      ensures queue == Pushed(old(queue), value)
    {
      queue := queue + [value];
      if |queue| > PER_ROW {
        queue := queue[|queue| - PER_ROW..];
      }
    }

    /** Undoes the last announcement of this value, for a write that will not be read back. */
    method Retract(value: int)
      modifies this
      ensures queue == WithoutLast(old(queue), value)
    {
      var i := |queue|;
      assert queue[..i] == queue && queue[i..] == [];
      while i > 0 && queue[i - 1] != value
        invariant 0 <= i <= |queue| && queue == old(queue)
        invariant WithoutLast(queue, value) == WithoutLast(queue[..i], value) + queue[i..]
      {
        assert queue[..i][..i - 1] == queue[..i - 1];
        assert WithoutLast(queue[..i], value) == WithoutLast(queue[..i - 1], value) + [queue[i - 1]];
        assert [queue[i - 1]] + queue[i..] == queue[i - 1..];
        assert WithoutLast(queue[..i - 1], value) + [queue[i - 1]] + queue[i..] ==
               WithoutLast(queue[..i - 1], value) + ([queue[i - 1]] + queue[i..]);
        i := i - 1;
      }
      if i > 0 {
        assert queue[..i][..i - 1] == queue[..i - 1];
        queue := queue[..i - 1] + queue[i..];
      } else {
        assert queue[0..] == queue;
      }
    }

    /** Is this change one of ours coming back? A match is consumed, with whatever was written before it. */
    method Recognise(change: int) returns (echo: bool)
      modifies this
      ensures var i := FirstMatch(old(queue), same, change);
              echo == (i < |old(queue)|) && queue == if echo then old(queue)[i + 1..] else old(queue)
    {
      var i := 0;
      while i < |queue|
        invariant 0 <= i <= |queue| && queue == old(queue)
        invariant FirstMatch(queue, same, change) == i + FirstMatch(queue[i..], same, change)
      {
        assert queue[i..][1..] == queue[i + 1..];
        if same(queue[i], change) {
          queue := queue[i + 1..];
          return true;
        }
        i := i + 1;
      }
      echo := false;
    }
  }

  /* ----- runs ----- */

  datatype State = State(queue: seq<int>, pending: Option<int>, log: seq<Logged>, verdicts: seq<bool>)

  datatype Step = Announce(value: int) | Commit | Retract | Foreign(value: int) | Read

  predicate Enabled(s: State, a: Step) {
    match a
    case Announce(_) => s.pending.None?
    case Commit => s.pending.Some?
    case Retract => s.pending.Some?
    case Foreign(_) => true
    case Read => |s.verdicts| < |s.log|
  }

  function Do(same: (int, int) -> bool, s: State, a: Step): State
    requires Enabled(s, a)
  {
    match a
    case Announce(value) => s.(queue := Pushed(s.queue, value), pending := Some(value))
    case Commit => s.(pending := None, log := s.log + [Logged(s.pending.value, true)])
    case Retract => s.(pending := None, queue := WithoutLast(s.queue, s.pending.value))
    case Foreign(value) => s.(log := s.log + [Logged(value, false)])
    case Read =>
      var i := FirstMatch(s.queue, same, s.log[|s.verdicts|].value);
      if i < |s.queue| then s.(queue := s.queue[i + 1..], verdicts := s.verdicts + [true])
      else s.(verdicts := s.verdicts + [false])
  }

  /** The premises: at most `PER_ROW` writes outstanding, and no foreign change that looks like one of them. */
  predicate Calm(same: (int, int) -> bool, s: State, a: Step)
    requires Enabled(s, a)
  {
    match a
    case Announce(_) => |s.queue| < PER_ROW
    case Read =>
      var c := s.log[|s.verdicts|];
      c.own || forall i :: 0 <= i < |s.queue| ==> !same(s.queue[i], c.value)
    case _ => true
  }

  predicate CalmRun(same: (int, int) -> bool, s: State, run: seq<Step>)
    decreases |run|
  {
    run == [] || (Enabled(s, run[0]) && Calm(same, s, run[0]) && CalmRun(same, Do(same, s, run[0]), run[1..]))
  }

  function After(same: (int, int) -> bool, s: State, run: seq<Step>): State
    requires CalmRun(same, s, run)
    decreases |run|
  {
    if run == [] then s else After(same, Do(same, s, run[0]), run[1..])
  }

  /** The own writes in the log that have not been read, in order. */
  function Outstanding(log: seq<Logged>): seq<int> {
    if log == [] then [] else (if log[0].own then [log[0].value] else []) + Outstanding(log[1..])
  }

  lemma {:induction false} OutstandingConcat(a: seq<Logged>, b: seq<Logged>)
    ensures Outstanding(a + b) == Outstanding(a) + Outstanding(b)
    decreases |a|
  {
    if a == [] {
      assert a + b == b;
    } else {
      assert (a + b)[1..] == a[1..] + b;
      OutstandingConcat(a[1..], b);
      Regrouped(if a[0].own then [a[0].value] else [], Outstanding(a[1..]), Outstanding(b));
    }
  }

  lemma Regrouped(a: seq<int>, b: seq<int>, c: seq<int>)
    ensures a + (b + c) == a + b + c
  {
  }

  function PendingPart(p: Option<int>): seq<int> {
    if p.Some? then [p.value] else []
  }

  /** The queue is exactly what is still to come back, and every verdict so far was right. */
  ghost predicate Exact(s: State) {
    && |s.verdicts| <= |s.log|
    && s.queue == Outstanding(s.log[|s.verdicts|..]) + PendingPart(s.pending)
    && forall i :: 0 <= i < |s.verdicts| ==> s.verdicts[i] == s.log[i].own
  }

  lemma ReadStep(same: (int, int) -> bool, s: State)
    requires Exact(s) && Enabled(s, Read) && Calm(same, s, Read) && forall v :: same(v, v)
    ensures Exact(Do(same, s, Read))
  {
    var n := |s.verdicts|;
    var c, rest := s.log[n], s.log[n + 1..];
    assert s.log[n..][1..] == rest;
    assert Outstanding(s.log[n..]) == (if c.own then [c.value] else []) + Outstanding(rest);
    if c.own {
      assert s.queue == [c.value] + (Outstanding(rest) + PendingPart(s.pending));
      assert FirstMatch(s.queue, same, c.value) == 0;
      assert s.queue[1..] == Outstanding(rest) + PendingPart(s.pending);
    } else {
      assert Outstanding(s.log[n..]) == Outstanding(rest);
      assert FirstMatch(s.queue, same, c.value) == |s.queue|;
    }
  }

  lemma LoggedStep(s: State, c: Logged)
    requires |s.verdicts| <= |s.log|
    ensures Outstanding((s.log + [c])[|s.verdicts|..]) == Outstanding(s.log[|s.verdicts|..]) + if c.own then [c.value] else []
  {
    assert (s.log + [c])[|s.verdicts|..] == s.log[|s.verdicts|..] + [c];
    OutstandingConcat(s.log[|s.verdicts|..], [c]);
    assert [c][1..] == [];
  }

  lemma StepKeepsExact(same: (int, int) -> bool, s: State, a: Step)
    requires Exact(s) && Enabled(s, a) && Calm(same, s, a) && forall v :: same(v, v)
    ensures Exact(Do(same, s, a))
  {
    match a
    case Announce(value) => assert s.queue + [value] == Outstanding(s.log[|s.verdicts|..]) + [value];
    case Commit => LoggedStep(s, Logged(s.pending.value, true));
    case Retract =>
      assert s.queue[|s.queue| - 1] == s.pending.value;
      assert s.queue[..|s.queue| - 1] == Outstanding(s.log[|s.verdicts|..]);
    case Foreign(value) => LoggedStep(s, Logged(value, false));
    case Read => ReadStep(same, s);
  }

  lemma {:induction false} RunKeepsExact(same: (int, int) -> bool, s: State, run: seq<Step>)
    requires Exact(s) && CalmRun(same, s, run) && forall v :: same(v, v)
    ensures Exact(After(same, s, run))
    decreases |run|
  {
    if run != [] {
      StepKeepsExact(same, s, run[0]);
      RunKeepsExact(same, Do(same, s, run[0]), run[1..]);
    }
  }

  /** In every state of a calm run, each change read so far was taken for an echo if and only if it was one, and
  once the last own write has been read the memory is empty: no entry is left over that a later change could match. */
  lemma EchoesAreExact(same: (int, int) -> bool, run: seq<Step>, i: nat)
    requires CalmRun(same, State([], None, [], []), run) && forall v :: same(v, v)
    ensures var s := After(same, State([], None, [], []), run);
            && |s.verdicts| <= |s.log| && (i < |s.verdicts| ==> s.verdicts[i] == s.log[i].own)
            && (s.pending.None? && (forall c :: c in s.log[|s.verdicts|..] ==> !c.own) ==> s.queue == [])
  {
    RunKeepsExact(same, State([], None, [], []), run);
    var s := After(same, State([], None, [], []), run);
    if forall c :: c in s.log[|s.verdicts|..] ==> !c.own {
      NoneOutstanding(s.log[|s.verdicts|..]);
    }
  }

  lemma {:induction false} NoneOutstanding(log: seq<Logged>)
    requires forall c :: c in log ==> !c.own
    ensures Outstanding(log) == []
    decreases |log|
  {
    if log != [] {
      assert log[0] in log;
      NoneOutstanding(log[1..]);
    }
  }

  /* ----- why twenty ----- */

  /** `values` announced one after the other, none of them read back yet. */
  function AllPushed(values: seq<int>): seq<int>
    decreases |values|
  {
    if values == [] then [] else Pushed(AllPushed(values[..|values| - 1]), values[|values| - 1])
  }

  lemma {:induction false} NewestKept(values: seq<int>)
    ensures AllPushed(values) == if |values| <= PER_ROW then values else values[|values| - PER_ROW..]
    decreases |values|
  {
    if values != [] {
      NewestKept(values[..|values| - 1]);
      assert values == values[..|values| - 1] + [values[|values| - 1]];
    }
  }

  /** Of writes to one row that all look different, the oldest is recognised when it is read back if and only if
  no more than twenty are outstanding. */
  lemma RecognisedUpToTwenty(same: (int, int) -> bool, values: seq<int>)
    requires values != [] && forall i, j :: 0 <= i < |values| && 0 <= j < |values| ==> (same(values[i], values[j]) <==> i == j)
    ensures FirstMatch(AllPushed(values), same, values[0]) < |AllPushed(values)| <==> |values| <= PER_ROW
  {
    NewestKept(values);
    var queue := AllPushed(values);
    if |values| > PER_ROW {
      assert forall j :: 0 <= j < |queue| ==> queue[j] == values[|values| - PER_ROW + j];
    }
  }
}
