/** The leader's lease, in time: processes that heartbeat, a lease in Redis that runs out by itself, and what
each process believes. All processes read one clock; a heartbeat that is started ends within `slack`. */
module Lease {
  import opened Changes

  type Id = string

  datatype Held = Held(holder: Id, until: nat)

  datatype Reply = Kept | Lost | Won | Taken

  /** A heartbeat is over once the listeners it tells of a gain or a loss of the lease have finished too. */
  datatype Beat = Idle | Beating(start: nat, reply: Option<Reply>) | Telling(start: nat)

  /** `expires` is history: when the lease this process last set would run out. */
  datatype Process = Process(leader: bool, seenAt: nat, lastEnd: nat, beat: Beat, expires: nat)

  datatype Timing = Timing(ttl: nat, slack: nat)
  {
    /** How often the heart beats. */
    function Every(): nat {
      if ttl / 3 > 500 then ttl / 3 else 500
    }
  }

  datatype State = State(now: nat, lease: Option<Held>, processes: map<Id, Process>)

  /* ----- the scripts ----- */

  /** The lease as Redis has it: one that has run out is not there. */
  function Current(lease: Option<Held>, now: nat): Option<Held> {
    if lease.Some? && now < lease.value.until then lease else None
  }

  predicate HeldBy(lease: Option<Held>, now: nat, id: Id) {
    Current(lease, now).Some? && lease.value.holder == id
  }

  function Renew(lease: Option<Held>, now: nat, id: Id, ttl: nat): Option<Held> {
    if HeldBy(lease, now, id) then Some(Held(id, now + ttl)) else lease
  }

  function Release(lease: Option<Held>, now: nat, id: Id): Option<Held> {
    if HeldBy(lease, now, id) then None else lease
  }

  function SetIfNone(lease: Option<Held>, now: nat, id: Id, ttl: nat): Option<Held> {
    if Current(lease, now).None? then Some(Held(id, now + ttl)) else lease
  }

  /** None of them touches a lease another process holds. */
  lemma OthersLeaseIsSafe(lease: Option<Held>, now: nat, id: Id, other: Id, ttl: nat)
    requires id != other && HeldBy(lease, now, other)
    ensures Renew(lease, now, id, ttl) == lease && Release(lease, now, id) == lease && SetIfNone(lease, now, id, ttl) == lease
  {
  }

  /* ----- one process ----- */

  function Answered(p: Process, now: nat): Process
    requires p.beat.Beating? && p.beat.reply.Some?
  {
    var idle, telling := p.(beat := Idle, lastEnd := now), p.(beat := Telling(p.beat.start));
    match p.beat.reply.value
    case Kept => idle.(seenAt := now)
    case Lost => telling.(leader := false)
    case Won => telling.(leader := true, seenAt := now)
    case Taken => idle
  }

  /** No answer from Redis: for a leader that has seen its lease within the last `ttl` that changes nothing; one
  that has not takes the lease to be gone. */
  function Unanswered(p: Process, now: nat, ttl: nat): Process
    requires p.beat.Beating?
  {
    if p.leader && now > p.seenAt + ttl then p.(beat := Telling(p.beat.start), leader := false)
    else p.(beat := Idle, lastEnd := now)
  }

  /** The fields of the source's object that a heartbeat changes. */
  class Instance {
    const ttl: nat
    var leader: bool
    var seenAt: nat

    constructor (ttl: nat)
      ensures this.ttl == ttl && !leader
    {
      this.ttl, leader, seenAt := ttl, false, 0;
    }

    method OnReply(reply: Reply, now: nat, ghost p: Process)
      requires p.beat.Beating? && p.beat.reply == Some(reply) && p.leader == leader && p.seenAt == seenAt
      modifies this
      ensures leader == Answered(p, now).leader && seenAt == Answered(p, now).seenAt
    {
      match reply
      case Kept => seenAt := now;
      case Lost => leader := false;
      case Won => leader, seenAt := true, now;
      case Taken =>
    }

    method OnError(now: nat, ghost p: Process)
      requires p.beat.Beating? && p.leader == leader && p.seenAt == seenAt
      modifies this`leader
      ensures leader == Unanswered(p, now, ttl).leader
    {
      if leader && now > seenAt + ttl {
        leader := false;
      }
    }
  }

  /* ----- all of them ----- */

  datatype Step =
    | Pass(ms: nat) // time goes by
    | Boot(id: Id)
    | Start(id: Id)
    | Serve(id: Id) // Redis carries the command out
    | Answer(id: Id) // and its answer arrives
    | Fail(id: Id) // or an error does, whether or not it was carried out
    | Told(id: Id) // the listeners have finished
    | Shutdown(id: Id)

  /** Time may only go by as far as no process is late: the next heartbeat starts within a period of the last
  one's end, and one that is under way ends within the slack. */
  predicate OnTime(t: Timing, p: Process, now: nat) {
    match p.beat
    case Idle => now <= p.lastEnd + t.Every()
    case Beating(start, _) => now <= start + t.slack
    case Telling(start) => now <= start + t.slack
  }

  predicate Enabled(t: Timing, s: State, a: Step) {
    match a
    case Pass(ms) => forall id :: id in s.processes ==> OnTime(t, s.processes[id], s.now + ms)
    case Boot(id) => id !in s.processes
    case Start(id) => id in s.processes && s.processes[id].beat.Idle?
    case Serve(id) => id in s.processes && s.processes[id].beat.Beating? && s.processes[id].beat.reply.None?
    case Answer(id) => id in s.processes && s.processes[id].beat.Beating? && s.processes[id].beat.reply.Some?
    case Fail(id) => id in s.processes && s.processes[id].beat.Beating?
    case Told(id) => id in s.processes && s.processes[id].beat.Telling?
    case Shutdown(id) => id in s.processes
  }

  /** A leader renews; anyone else tries to set the lease. */
  function Served(t: Timing, s: State, id: Id): State
    requires id in s.processes && s.processes[id].beat.Beating?
  {
    var p := s.processes[id];
    if p.leader then
      var kept := HeldBy(s.lease, s.now, id);
      s.(lease := Renew(s.lease, s.now, id, t.ttl),
         processes := s.processes[id := p.(beat := p.beat.(reply := Some(if kept then Kept else Lost)),
                                          expires := if kept then s.now + t.ttl else p.expires)])
    else
      var won := Current(s.lease, s.now).None?;
      s.(lease := SetIfNone(s.lease, s.now, id, t.ttl),
         processes := s.processes[id := p.(beat := p.beat.(reply := Some(if won then Won else Taken)),
                                          expires := if won then s.now + t.ttl else p.expires)])
  }

  function Do(t: Timing, s: State, a: Step): State
    requires Enabled(t, s, a)
  {
    match a
    case Pass(ms) => s.(now := s.now + ms)
    case Boot(id) => s.(processes := s.processes[id := Process(false, 0, s.now, Idle, 0)])
    case Start(id) => s.(processes := s.processes[id := s.processes[id].(beat := Beating(s.now, None))])
    case Serve(id) => Served(t, s, id)
    case Answer(id) => s.(processes := s.processes[id := Answered(s.processes[id], s.now)])
    case Fail(id) => s.(processes := s.processes[id := Unanswered(s.processes[id], s.now, t.ttl)])
    case Told(id) => s.(processes := s.processes[id := s.processes[id].(beat := Idle, lastEnd := s.now)])
    case Shutdown(id) => s.(lease := if s.processes[id].leader then Release(s.lease, s.now, id) else s.lease,
                            processes := s.processes - {id})
  }

  predicate IsRun(t: Timing, s: State, run: seq<Step>)
    decreases |run|
  {
    run == [] || (Enabled(t, s, run[0]) && IsRun(t, Do(t, s, run[0]), run[1..]))
  }

  function After(t: Timing, s: State, run: seq<Step>): State
    requires IsRun(t, s, run)
    decreases |run|
  {
    if run == [] then s else After(t, Do(t, s, run[0]), run[1..])
  }

  const BEGIN := State(0, None, map[])

  lemma {:induction false} TimeGoesOn(t: Timing, s: State, run: seq<Step>)
    requires IsRun(t, s, run)
    ensures s.now <= After(t, s, run).now
    decreases |run|
  {
    if run != [] {
      TimeGoesOn(t, Do(t, s, run[0]), run[1..]);
    }
  }

  /** Until it runs out, a lease stays exactly as its holder has left it, whatever everybody else does. */
  lemma {:induction false} OnlyItsHolderTouchesALease(t: Timing, s: State, run: seq<Step>, id: Id)
    requires IsRun(t, s, run) && s.lease.Some? && s.lease.value.holder == id
    requires After(t, s, run).now < s.lease.value.until
    requires forall a :: a in run && (a.Serve? || a.Shutdown?) ==> a.id != id
    ensures After(t, s, run).lease == s.lease
    decreases |run|
  {
    if run != [] {
      TimeGoesOn(t, s, run);
      var a := run[0];
      assert a in run;
      if a.Serve? || a.Shutdown? {
        OthersLeaseIsSafe(s.lease, s.now, a.id, id, t.ttl);
      }
      OnlyItsHolderTouchesALease(t, Do(t, s, a), run[1..], id);
    }
  }

  /* ----- the bound ----- */

  /** How late each belief can be. */
  predicate Bounded(t: Timing, p: Process, now: nat) {
    && OnTime(t, p, now) && p.lastEnd <= now && p.expires <= now + t.ttl
    && (!p.beat.Idle? ==> p.beat.start <= now && p.beat.start <= p.lastEnd + t.Every())
    && (p.leader ==> p.seenAt + t.ttl <= p.expires + t.slack)
    && (p.leader && !p.beat.Telling? ==> p.lastEnd <= p.expires + t.slack)
    && (p.leader && p.beat.Telling? ==> p.beat.start + t.ttl <= p.expires)
    && (p.beat.Beating? && p.beat.reply.Some? && (p.beat.reply.value.Kept? || p.beat.reply.value.Won?) ==>
          p.beat.start + t.ttl <= p.expires)
    && (p.beat.Beating? && p.beat.reply.Some? && (p.beat.reply.value.Won? || p.beat.reply.value.Taken?) ==> !p.leader)
    && (p.beat.Beating? && p.beat.reply.Some? && (p.beat.reply.value.Kept? || p.beat.reply.value.Lost?) ==> p.leader)
  }

  /** When the stored lease was last set; with none stored, now. */
  function SetAt(t: Timing, s: State): int {
    if s.lease.Some? then s.lease.value.until - t.ttl else s.now
  }

  ghost predicate AllBounded(t: Timing, s: State) {
    forall id :: id in s.processes ==> Bounded(t, s.processes[id], s.now)
  }

  /** The stored lease is its holder's last one, and everyone else's had run out when it was set. */
  ghost predicate OneLease(t: Timing, s: State) {
    && 0 <= SetAt(t, s) <= s.now
    && (s.lease.Some? && s.lease.value.holder in s.processes ==> s.lease.value.until == s.processes[s.lease.value.holder].expires)
    && (forall id :: id in s.processes && !(s.lease.Some? && s.lease.value.holder == id) ==>
          s.processes[id].expires <= SetAt(t, s))
  }

  ghost predicate Inv(t: Timing, s: State) {
    AllBounded(t, s) && OneLease(t, s)
  }

  lemma ServeBounded(t: Timing, s: State, id: Id)
    requires AllBounded(t, s) && Enabled(t, s, Serve(id))
    requires HeldBy(s.lease, s.now, id) ==> s.lease.value.until == s.processes[id].expires
    ensures AllBounded(t, Served(t, s, id))
  {
    assert Bounded(t, s.processes[id], s.now);
  }

  lemma ServeKeepsOneLease(t: Timing, s: State, id: Id)
    requires OneLease(t, s) && Enabled(t, s, Serve(id))
    ensures OneLease(t, Served(t, s, id))
  {
  }

  lemma StepBounded(t: Timing, s: State, a: Step)
    requires AllBounded(t, s) && Enabled(t, s, a) && !a.Serve?
    ensures AllBounded(t, Do(t, s, a))
  {
    match a
    case Answer(id) => assert Bounded(t, Answered(s.processes[id], s.now), s.now);
    case _ =>
  }

  lemma StepKeepsOneLease(t: Timing, s: State, a: Step)
    requires OneLease(t, s) && Enabled(t, s, a) && !a.Serve?
    requires a.Boot? ==> !(s.lease.Some? && s.lease.value.holder == a.id)
    ensures OneLease(t, Do(t, s, a))
  {
  }

  lemma StepKeeps(t: Timing, s: State, a: Step)
    requires Inv(t, s) && Enabled(t, s, a)
    requires a.Boot? ==> !(s.lease.Some? && s.lease.value.holder == a.id)
    ensures Inv(t, Do(t, s, a))
  {
    if a.Serve? {
      ServeBounded(t, s, a.id);
      ServeKeepsOneLease(t, s, a.id);
    } else {
      StepBounded(t, s, a);
      StepKeepsOneLease(t, s, a);
    }
  }

  /** An id is drawn anew by every process, so none boots under the id of a lease that is still stored. */
  predicate FreshIds(t: Timing, s: State, run: seq<Step>)
    requires IsRun(t, s, run)
    decreases |run|
  {
    run == [] ||
    ((run[0].Boot? ==> !(s.lease.Some? && s.lease.value.holder == run[0].id)) && FreshIds(t, Do(t, s, run[0]), run[1..]))
  }

  lemma {:induction false} RunKeeps(t: Timing, s: State, run: seq<Step>)
    requires Inv(t, s) && IsRun(t, s, run) && FreshIds(t, s, run)
    ensures Inv(t, After(t, s, run))
    decreases |run|
  {
    if run != [] {
      StepKeeps(t, s, run[0]);
      RunKeeps(t, Do(t, s, run[0]), run[1..]);
    }
  }

  /** A process calls itself leader no longer than a heartbeat period and twice the slack beyond the end of the
  last lease it had; and a lease that has not run out is the one its holder knows of. */
  lemma LeaderStopsInTime(t: Timing, run: seq<Step>, id: Id)
    requires IsRun(t, BEGIN, run) && FreshIds(t, BEGIN, run)
    ensures var s := After(t, BEGIN, run);
            id in s.processes && s.processes[id].leader ==> s.now <= s.processes[id].expires + t.Every() + 2 * t.slack
  {
    RunKeeps(t, BEGIN, run);
    var s := After(t, BEGIN, run);
    if id in s.processes {
      assert Bounded(t, s.processes[id], s.now);
    }
  }

  /** So two processes can both call themselves leader only that long: when another one sets the lease, the
  first one's has run out, and what is left of its belief is counted from that moment. */
  lemma OverlapIsBounded(t: Timing, run: seq<Step>, id: Id, other: Id)
    requires IsRun(t, BEGIN, run) && FreshIds(t, BEGIN, run) && id != other
    ensures var s := After(t, BEGIN, run);
            id in s.processes && s.processes[id].leader && HeldBy(s.lease, s.now, other) ==>
              s.now <= s.lease.value.until - t.ttl + t.Every() + 2 * t.slack
  {
    LeaderStopsInTime(t, run, id);
    RunKeeps(t, BEGIN, run);
  }

  /* ----- and strict single leadership it is not ----- */

  ghost predicate Reachable(t: Timing, s: State) {
    exists run :: IsRun(t, BEGIN, run) && After(t, BEGIN, run) == s
  }

  lemma {:induction false} OneMoreStep(t: Timing, s: State, run: seq<Step>, a: Step)
    requires IsRun(t, s, run) && Enabled(t, After(t, s, run), a)
    ensures IsRun(t, s, run + [a]) && After(t, s, run + [a]) == Do(t, After(t, s, run), a)
    decreases |run|
  {
    if run == [] {
      assert [a][1..] == [] && run + [a] == [a];
    } else {
      assert (run + [a])[1..] == run[1..] + [a];
      OneMoreStep(t, Do(t, s, run[0]), run[1..], a);
    }
  }

  lemma Go(t: Timing, s: State, a: Step) returns (now: State)
    requires Reachable(t, s) && Enabled(t, s, a)
    ensures now == Do(t, s, a) && Reachable(t, now)
  {
    var run :| IsRun(t, BEGIN, run) && After(t, BEGIN, run) == s;
    OneMoreStep(t, BEGIN, run, a);
    now := Do(t, s, a);
  }

  /** Whatever the timing, there can be two leaders at once: the first one's heartbeats go unanswered until its
  lease has just run out, which it does not count as lost yet, and another process sets a lease of its own. */
  lemma TwoLeadersAtOnce(t: Timing)
    ensures exists run :: IsRun(t, BEGIN, run) &&
              var s := After(t, BEGIN, run);
              "p" in s.processes && "q" in s.processes && s.processes["p"].leader && s.processes["q"].leader
  {
    var s := LeaseRunsOut(t);
    assert "q" != "p";
    s := Go(t, s, Boot("q"));
    s := Go(t, s, Start("q"));
    s := Go(t, s, Serve("q"));
    s := Go(t, s, Answer("q"));
    var run :| IsRun(t, BEGIN, run) && After(t, BEGIN, run) == s;
  }

  /** The first process alone, elected at the start and at rest since its last heartbeat. */
  function Leading(now: nat, lastEnd: nat, ttl: nat): State {
    State(now, Some(Held("p", ttl)), map["p" := Process(true, 0, lastEnd, Idle, ttl)])
  }

  lemma LeaseRunsOut(t: Timing) returns (s: State)
    ensures Reachable(t, s) && s == Leading(t.ttl, t.ttl, t.ttl)
  {
    assert IsRun(t, BEGIN, []) && After(t, BEGIN, []) == BEGIN;
    s := BEGIN;
    s := Go(t, s, Boot("p"));
    s := Go(t, s, Start("p"));
    s := Go(t, s, Serve("p"));
    s := Go(t, s, Answer("p"));
    s := Go(t, s, Told("p"));
    assert s.processes == map["p" := s.processes["p"]];
    s := Outage(t, 0);
  }

  /** One heartbeat after another fails, the last one at the end of the lease. */
  lemma {:induction false} Outage(t: Timing, now: nat) returns (s: State)
    requires now <= t.ttl && Reachable(t, Leading(now, now, t.ttl))
    ensures Reachable(t, s) && s == Leading(t.ttl, t.ttl, t.ttl)
    decreases t.ttl - now
  {
    s := Leading(now, now, t.ttl);
    if now < t.ttl {
      var wait := if t.ttl - now < t.Every() then t.ttl - now else t.Every();
      s := Go(t, s, Pass(wait));
      s := Go(t, s, Start("p"));
      s := Go(t, s, Fail("p"));
      assert s == Leading(now + wait, now + wait, t.ttl);
      s := Outage(t, now + wait);
    }
  }
}
