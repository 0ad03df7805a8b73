/** Bridges that feed each other: one change made by a user, upserted from table to table with identity
mappings, every write of this instance recognised when it comes back. A delivery looks at a table and writes
it in one step. */
module EchoLoop {
  type Table = string

  datatype Bridge = Bridge(source: Table, targets: set<Table>)

  /** A change waiting to be read by a bridge, with the tables it has been through before. */
  datatype Message = Message(bridge: nat, origins: set<Table>)

  datatype State = State(
    holds: set<Table>, // tables whose row has the value
    entered: set<Table>, // tables whose change log reports the value: the user's, and each read one written since
    waiting: seq<Message>,
    hops: seq<Table>) // every write, in order

  predicate IsRead(bridges: seq<Bridge>, t: Table) {
    exists b :: b in bridges && b.source == t
  }

  /** What a change of `t` gives every bridge that reads it. */
  function Emitted(bridges: seq<Bridge>, n: nat, t: Table, origins: set<Table>): seq<Message>
    requires n <= |bridges|
  {
    if n == 0 then []
    else Emitted(bridges, n - 1, t, origins) + (if bridges[n - 1].source == t then [Message(n - 1, origins)] else [])
  }

  /** The user's change, where `before` already held the value. */
  function Begun(bridges: seq<Bridge>, user: Table, before: set<Table>): State {
    State(before + {user}, {user}, Emitted(bridges, |bridges|, user, {}), [])
  }

  predicate Dropped(bridges: seq<Bridge>, m: Message)
    requires m.bridge < |bridges|
  {
    m.origins != {} && bridges[m.bridge].targets <= m.origins
  }

  /** Upserting into one target. A table that some bridge reads is looked at first: a row that is already so
  is not written; a table nobody reads is written as it comes. */
  function WriteTo(bridges: seq<Bridge>, s: State, t: Table, origins: set<Table>): State {
    if !IsRead(bridges, t) then s.(holds := s.holds + {t}, hops := s.hops + [t])
    else if t in s.holds then s
    else s.(holds := s.holds + {t}, entered := s.entered + {t}, hops := s.hops + [t],
            waiting := s.waiting + Emitted(bridges, |bridges|, t, origins))
  }

  ghost function WriteAll(bridges: seq<Bridge>, s: State, targets: set<Table>, origins: set<Table>): State
    decreases |targets|
  {
    if targets == {} then s
    else
      var t :| t in targets;
      WriteAll(bridges, WriteTo(bridges, s, t, origins), targets - {t}, origins)
  }

  /** Bridge `waiting[i].bridge` reads its change: the loop closes there, or it is delivered. */
  ghost function Read(bridges: seq<Bridge>, s: State, i: nat): State
    requires i < |s.waiting| && s.waiting[i].bridge < |bridges|
  {
    var m := s.waiting[i];
    var b := bridges[m.bridge];
    var rest := s.(waiting := s.waiting[..i] + s.waiting[i + 1..]);
    if Dropped(bridges, m) then rest else WriteAll(bridges, rest, b.targets, m.origins + {b.source})
  }

  ghost predicate IsRun(bridges: seq<Bridge>, s: State, run: seq<nat>)
    decreases |run|
  {
    run == [] || (run[0] < |s.waiting| && s.waiting[run[0]].bridge < |bridges| && IsRun(bridges, Read(bridges, s, run[0]), run[1..]))
  }

  ghost function After(bridges: seq<Bridge>, s: State, run: seq<nat>): State
    requires IsRun(bridges, s, run)
    decreases |run|
  {
    if run == [] then s else After(bridges, Read(bridges, s, run[0]), run[1..])
  }

  /* ----- the invariant ----- */

  function Fired(bridges: seq<Bridge>, n: nat, entered: set<Table>): nat
    requires n <= |bridges|
  {
    if n == 0 then 0 else Fired(bridges, n - 1, entered) + (if bridges[n - 1].source in entered then 1 else 0)
  }

  /** Bridge `b` has done its part, or has the change before it. */
  predicate Served(bridges: seq<Bridge>, s: State, b: nat)
    requires b < |bridges|
  {
    bridges[b].targets <= s.holds || exists m :: m in s.waiting && m.bridge == b
  }

  predicate FineMessage(bridges: seq<Bridge>, s: State, m: Message) {
    && m.bridge < |bridges| && bridges[m.bridge].source in s.entered
    && bridges[m.bridge].source !in m.origins && m.origins <= s.holds
  }

  /** Each read table was written at most once, and no table that held the value. */
  predicate OncePerReadTable(bridges: seq<Bridge>, s: State, kept: set<Table>) {
    && (forall i, j :: 0 <= i < j < |s.hops| && IsRead(bridges, s.hops[i]) ==> s.hops[i] != s.hops[j])
    && (forall t :: t in s.hops && IsRead(bridges, t) ==> t !in kept && t in s.holds)
  }

  /** `tables` are all the tables there are. */
  predicate Among(bridges: seq<Bridge>, tables: set<Table>) {
    forall b :: b in bridges ==> b.source in tables && b.targets <= tables
  }

  predicate Feeds(bridges: seq<Bridge>, s: Table, t: Table) {
    exists b :: b in bridges && b.source == s && t in b.targets
  }

  predicate Path(bridges: seq<Bridge>, path: seq<Table>)
    decreases |path|
  {
    |path| > 0 && (|path| == 1 || (Feeds(bridges, path[0], path[1]) && Path(bridges, path[1..])))
  }

  /** No table strictly inside the path held the value before, but for the user's own. */
  predicate Clear(before: set<Table>, user: Table, path: seq<Table>) {
    forall i :: 1 <= i < |path| - 1 ==> path[i] !in before || path[i] == user
  }

  predicate ClearPath(bridges: seq<Bridge>, before: set<Table>, user: Table, path: seq<Table>, t: Table) {
    Path(bridges, path) && path[0] == user && path[|path| - 1] == t && Clear(before, user, path)
  }

  /** The user's change can get to `t`. */
  ghost predicate Reached(bridges: seq<Bridge>, before: set<Table>, user: Table, t: Table) {
    exists path :: ClearPath(bridges, before, user, path, t)
  }

  lemma {:induction false} PathExtends(bridges: seq<Bridge>, path: seq<Table>, t: Table)
    requires Path(bridges, path) && Feeds(bridges, path[|path| - 1], t)
    ensures Path(bridges, path + [t])
    decreases |path|
  {
    assert (path + [t])[1..] == path[1..] + [t];
    if |path| == 1 {
      assert path[1..] + [t] == [t];
    } else {
      PathExtends(bridges, path[1..], t);
    }
  }

  /** Where a clear path ends in a table that did not hold the value, the tables that one feeds are reached too. */
  lemma ReachesFurther(bridges: seq<Bridge>, before: set<Table>, user: Table, s: Table, t: Table)
    requires Reached(bridges, before, user, s) && (s !in before || s == user) && Feeds(bridges, s, t)
    ensures Reached(bridges, before, user, t)
  {
    var path :| ClearPath(bridges, before, user, path, s);
    PathExtends(bridges, path, t);
    assert ClearPath(bridges, before, user, path + [t], t);
  }

  lemma UserIsReached(bridges: seq<Bridge>, before: set<Table>, user: Table)
    ensures Reached(bridges, before, user, user)
  {
    assert ClearPath(bridges, before, user, [user], user);
  }

  ghost predicate Inv(bridges: seq<Bridge>, s: State, before: set<Table>, user: Table, tables: set<Table>) {
    && s.holds <= tables && before + {user} <= s.holds && user in s.entered && s.entered <= s.holds
    && (forall t :: t in s.entered && t in before ==> t == user)
    && (forall t :: t in s.holds && IsRead(bridges, t) ==> t in before || t in s.entered)
    && (forall m :: m in s.waiting ==> FineMessage(bridges, s, m))
    && OncePerReadTable(bridges, s, before + {user})
    && (forall t :: t in s.holds ==> t in before || Reached(bridges, before, user, t))
  }

  /** Every bridge that has a change to read is served, but for the one reading it now. */
  ghost predicate AllServed(bridges: seq<Bridge>, s: State, reading: int) {
    forall b: nat :: b < |bridges| && b != reading && bridges[b].source in s.entered ==> Served(bridges, s, b)
  }

  lemma {:induction false} EmittedTo(bridges: seq<Bridge>, n: nat, t: Table, origins: set<Table>)
    requires n <= |bridges|
    ensures forall m :: m in Emitted(bridges, n, t, origins) ==>
              m.bridge < n && bridges[m.bridge].source == t && m.origins == origins
    ensures forall b :: 0 <= b < n && bridges[b].source == t ==> Message(b, origins) in Emitted(bridges, n, t, origins)
    decreases n
  {
    if n > 0 {
      EmittedTo(bridges, n - 1, t, origins);
    }
  }

  lemma {:induction false} FiredMore(bridges: seq<Bridge>, n: nat, entered: set<Table>, t: Table, origins: set<Table>)
    requires n <= |bridges| && t !in entered
    ensures Fired(bridges, n, entered + {t}) == Fired(bridges, n, entered) + |Emitted(bridges, n, t, origins)|
    decreases n
  {
    if n > 0 {
      FiredMore(bridges, n - 1, entered, t, origins);
    }
  }

  lemma {:induction false} FiredAtMost(bridges: seq<Bridge>, n: nat, entered: set<Table>)
    requires n <= |bridges|
    ensures Fired(bridges, n, entered) <= n
    decreases n
  {
    if n > 0 {
      FiredAtMost(bridges, n - 1, entered);
    }
  }

  lemma WriteKeeps(bridges: seq<Bridge>, s: State, t: Table, origins: set<Table>, before: set<Table>, user: Table,
                   tables: set<Table>)
    requires Inv(bridges, s, before, user, tables) && origins <= s.holds && t in tables
    requires Reached(bridges, before, user, t)
    ensures Inv(bridges, WriteTo(bridges, s, t, origins), before, user, tables)
  {
    EmittedTo(bridges, |bridges|, t, origins);
  }

  lemma WriteServes(bridges: seq<Bridge>, s: State, t: Table, origins: set<Table>, reading: int)
    requires AllServed(bridges, s, reading)
    ensures AllServed(bridges, WriteTo(bridges, s, t, origins), reading)
  {
    var u := WriteTo(bridges, s, t, origins);
    EmittedTo(bridges, |bridges|, t, origins);
    forall b: nat | b < |bridges| && b != reading && bridges[b].source in u.entered ensures Served(bridges, u, b) {
      if bridges[b].source in s.entered {
        assert Served(bridges, s, b);
        if m :| m in s.waiting && m.bridge == b {
          assert m in u.waiting;
        }
      } else {
        assert Message(b, origins) in u.waiting;
      }
    }
  }

  lemma WriteCounts(bridges: seq<Bridge>, s: State, t: Table, origins: set<Table>)
    requires s.entered <= s.holds
    ensures var u := WriteTo(bridges, s, t, origins);
            && u.entered <= u.holds
            && Fired(bridges, |bridges|, u.entered) - |u.waiting| == Fired(bridges, |bridges|, s.entered) - |s.waiting|
  {
    if IsRead(bridges, t) && t !in s.holds {
      FiredMore(bridges, |bridges|, s.entered, t, origins);
    }
  }

  lemma {:induction false} WriteAllKeeps(bridges: seq<Bridge>, s: State, targets: set<Table>, origins: set<Table>,
                                         before: set<Table>, user: Table, tables: set<Table>, reading: int)
    requires Inv(bridges, s, before, user, tables) && origins <= s.holds && targets <= tables
    requires AllServed(bridges, s, reading) && forall t :: t in targets ==> Reached(bridges, before, user, t)
    ensures var u := WriteAll(bridges, s, targets, origins);
            && Inv(bridges, u, before, user, tables) && s.holds + targets <= u.holds && AllServed(bridges, u, reading)
            && Fired(bridges, |bridges|, u.entered) - |u.waiting| == Fired(bridges, |bridges|, s.entered) - |s.waiting|
    decreases |targets|
  {
    if targets != {} {
      var t :| t in targets && WriteAll(bridges, s, targets, origins) ==
                              WriteAll(bridges, WriteTo(bridges, s, t, origins), targets - {t}, origins);
      WriteKeeps(bridges, s, t, origins, before, user, tables);
      WriteCounts(bridges, s, t, origins);
      WriteServes(bridges, s, t, origins, reading);
      WriteAllKeeps(bridges, WriteTo(bridges, s, t, origins), targets - {t}, origins, before, user, tables, reading);
    }
  }

  /** A message is taken out of the queue: the others, and what they serve, are still there. */
  lemma TakenOut(bridges: seq<Bridge>, s: State, i: nat, before: set<Table>, user: Table, tables: set<Table>)
    requires Inv(bridges, s, before, user, tables) && AllServed(bridges, s, -1) && i < |s.waiting|
    ensures var rest := s.(waiting := s.waiting[..i] + s.waiting[i + 1..]);
            Inv(bridges, rest, before, user, tables) && AllServed(bridges, rest, s.waiting[i].bridge)
            && |rest.waiting| == |s.waiting| - 1
  {
    var rest := s.(waiting := s.waiting[..i] + s.waiting[i + 1..]);
    assert forall m :: m in rest.waiting ==> m in s.waiting;
    forall b: nat | b < |bridges| && b != s.waiting[i].bridge && bridges[b].source in s.entered ensures Served(bridges, rest, b) {
      assert Served(bridges, s, b);
      if m :| m in s.waiting && m.bridge == b {
        var j :| 0 <= j < |s.waiting| && s.waiting[j] == m;
        assert m in if j < i then s.waiting[..i] else s.waiting[i + 1..];
        assert m in rest.waiting;
      }
    }
  }

  lemma ReadKeeps(bridges: seq<Bridge>, s: State, i: nat, before: set<Table>, user: Table, tables: set<Table>)
    requires Inv(bridges, s, before, user, tables) && AllServed(bridges, s, -1) && Among(bridges, tables)
    requires i < |s.waiting| && s.waiting[i].bridge < |bridges|
    ensures var t := Read(bridges, s, i);
            && Inv(bridges, t, before, user, tables) && AllServed(bridges, t, -1)
            && Fired(bridges, |bridges|, t.entered) - |t.waiting| == Fired(bridges, |bridges|, s.entered) - |s.waiting| + 1
  {
    var m := s.waiting[i];
    var b := bridges[m.bridge];
    var rest := s.(waiting := s.waiting[..i] + s.waiting[i + 1..]);
    assert m in s.waiting && b in bridges;
    TakenOut(bridges, s, i, before, user, tables);
    if !Dropped(bridges, m) {
      forall t | t in b.targets ensures Reached(bridges, before, user, t) {
        UserIsReached(bridges, before, user);
        assert Feeds(bridges, b.source, t);
        ReachesFurther(bridges, before, user, b.source, t);
      }
      WriteAllKeeps(bridges, rest, b.targets, m.origins + {b.source}, before, user, tables, m.bridge);
    }
    var t := Read(bridges, s, i);
    assert b.targets <= t.holds;
    forall c: nat | c < |bridges| && c != -1 && bridges[c].source in t.entered ensures Served(bridges, t, c) {}
  }

  lemma {:induction false} RunKeeps(bridges: seq<Bridge>, s: State, run: seq<nat>, before: set<Table>, user: Table, tables: set<Table>)
    requires Inv(bridges, s, before, user, tables) && AllServed(bridges, s, -1) && Among(bridges, tables)
    requires IsRun(bridges, s, run)
    ensures var t := After(bridges, s, run);
            && Inv(bridges, t, before, user, tables) && AllServed(bridges, t, -1)
            && Fired(bridges, |bridges|, t.entered) - |t.waiting| == Fired(bridges, |bridges|, s.entered) - |s.waiting| + |run|
    decreases |run|
  {
    if run != [] {
      ReadKeeps(bridges, s, run[0], before, user, tables);
      RunKeeps(bridges, Read(bridges, s, run[0]), run[1..], before, user, tables);
    }
  }

  lemma BegunFine(bridges: seq<Bridge>, user: Table, before: set<Table>, tables: set<Table>)
    requires before + {user} <= tables
    ensures var s := Begun(bridges, user, before);
            Inv(bridges, s, before, user, tables) && AllServed(bridges, s, -1) && Fired(bridges, |bridges|, s.entered) == |s.waiting|
  {
    var s := Begun(bridges, user, before);
    UserIsReached(bridges, before, user);
    EmittedTo(bridges, |bridges|, user, {});
    FiredMore(bridges, |bridges|, {}, user, {});
    NoneFired(bridges, |bridges|);
    assert {} + {user} == {user};
    forall b: nat | b < |bridges| && bridges[b].source in s.entered ensures Served(bridges, s, b) {
      assert Message(b, {}) in s.waiting;
    }
  }

  lemma {:induction false} NoneFired(bridges: seq<Bridge>, n: nat)
    requires n <= |bridges|
    ensures Fired(bridges, n, {}) == 0
    decreases n
  {
    if n > 0 {
      NoneFired(bridges, n - 1);
    }
  }

  /** The propagation ends. Whatever graph the bridges form, and in whatever order they read: at most one change
  is read per bridge, and nothing travels through as many tables as there are. */
  lemma Terminates(bridges: seq<Bridge>, user: Table, before: set<Table>, tables: set<Table>, run: seq<nat>)
    requires Among(bridges, tables) && before + {user} <= tables && IsRun(bridges, Begun(bridges, user, before), run)
    ensures |run| <= |bridges|
    ensures forall m :: m in After(bridges, Begun(bridges, user, before), run).waiting ==> |m.origins| < |tables|
  {
    BegunFine(bridges, user, before, tables);
    RunKeeps(bridges, Begun(bridges, user, before), run, before, user, tables);
    var t := After(bridges, Begun(bridges, user, before), run);
    FiredAtMost(bridges, |bridges|, t.entered);
    forall m | m in t.waiting ensures |m.origins| < |tables| {
      ShortOfAll(m.origins, bridges[m.bridge].source, tables);
    }
  }

  lemma ShortOfAll(origins: set<Table>, s: Table, tables: set<Table>)
    requires origins <= tables && s in tables && s !in origins
    ensures |origins| < |tables|
  {
    Fewer(origins + {s}, tables);
  }

  lemma Fewer(a: set<Table>, b: set<Table>)
    requires a <= b
    ensures |a| <= |b|
  {
    assert b == a + (b - a);
  }

  /** One change enters each table that is read at most once, and never one that held the value. */
  lemma EntersOnce(bridges: seq<Bridge>, user: Table, before: set<Table>, tables: set<Table>, run: seq<nat>)
    requires Among(bridges, tables) && before + {user} <= tables && IsRun(bridges, Begun(bridges, user, before), run)
    ensures OncePerReadTable(bridges, After(bridges, Begun(bridges, user, before), run), before + {user})
  {
    BegunFine(bridges, user, before, tables);
    RunKeeps(bridges, Begun(bridges, user, before), run, before, user, tables);
  }

  /** Along a clear path everything is written, once nothing waits. */
  lemma {:induction false} ClearPathHolds(bridges: seq<Bridge>, s: State, before: set<Table>, user: Table, tables: set<Table>, path: seq<Table>)
    requires Inv(bridges, s, before, user, tables) && AllServed(bridges, s, -1) && s.waiting == []
    requires Path(bridges, path) && Clear(before, user, path) && path[0] in s.entered
    ensures path[|path| - 1] in s.holds
    decreases |path|
  {
    if |path| > 1 {
      var b :| b in bridges && b.source == path[0] && path[1] in b.targets;
      var n :| 0 <= n < |bridges| && bridges[n] == b;
      assert Served(bridges, s, n);
      if |path| > 2 {
        var rest := path[1..];
        assert Feeds(bridges, rest[0], rest[1]);
        assert IsRead(bridges, path[1]);
        assert forall i :: 1 <= i < |rest| - 1 ==> rest[i] == path[i + 1];
        ClearPathHolds(bridges, s, before, user, tables, rest);
      }
    }
  }

  /** Who is reached: once nothing waits, a table holds the value if and only if it held it before, or bridges
  lead to it from the user's table through tables that did not. */
  lemma HoldersAreExact(bridges: seq<Bridge>, user: Table, before: set<Table>, tables: set<Table>, run: seq<nat>, t: Table)
    requires Among(bridges, tables) && before + {user} <= tables && IsRun(bridges, Begun(bridges, user, before), run)
    requires After(bridges, Begun(bridges, user, before), run).waiting == []
    ensures t in After(bridges, Begun(bridges, user, before), run).holds <==> t in before || Reached(bridges, before, user, t)
  {
    BegunFine(bridges, user, before, tables);
    RunKeeps(bridges, Begun(bridges, user, before), run, before, user, tables);
    if path :| ClearPath(bridges, before, user, path, t) {
      ClearPathHolds(bridges, After(bridges, Begun(bridges, user, before), run), before, user, tables, path);
    }
  }

  /** Where a table holds the value already, so do the tables it feeds. */
  ghost predicate ClosedUnder(bridges: seq<Bridge>, before: set<Table>) {
    forall s, t :: s in before && Feeds(bridges, s, t) ==> t in before
  }

  lemma {:induction false} PathHolds(bridges: seq<Bridge>, s: State, before: set<Table>, user: Table, tables: set<Table>, path: seq<Table>)
    requires Inv(bridges, s, before, user, tables) && AllServed(bridges, s, -1) && s.waiting == []
    requires ClosedUnder(bridges, before) && Path(bridges, path) && path[0] in s.holds
    ensures path[|path| - 1] in s.holds
    decreases |path|
  {
    if |path| > 1 {
      var b :| b in bridges && b.source == path[0] && path[1] in b.targets;
      var n :| 0 <= n < |bridges| && bridges[n] == b;
      if path[0] in s.entered {
        assert Served(bridges, s, n);
      } else {
        assert IsRead(bridges, path[0]);
        assert path[0] in before && Feeds(bridges, path[0], path[1]);
      }
      PathHolds(bridges, s, before, user, tables, path[1..]);
    }
  }

  /** In particular everyone is reached if the tables that held the value pass it on to nobody new. */
  lemma ReachesEveryone(bridges: seq<Bridge>, user: Table, before: set<Table>, tables: set<Table>, run: seq<nat>, path: seq<Table>)
    requires Among(bridges, tables) && before + {user} <= tables && IsRun(bridges, Begun(bridges, user, before), run)
    requires After(bridges, Begun(bridges, user, before), run).waiting == []
    requires ClosedUnder(bridges, before) && Path(bridges, path) && path[0] == user
    ensures path[|path| - 1] in After(bridges, Begun(bridges, user, before), run).holds
  {
    BegunFine(bridges, user, before, tables);
    RunKeeps(bridges, Begun(bridges, user, before), run, before, user, tables);
    PathHolds(bridges, After(bridges, Begun(bridges, user, before), run), before, user, tables, path);
  }

  /* ----- tables nobody reads ----- */

  /** How many of the changes read in this run are delivered into `t`. */
  ghost function DeliveredInto(bridges: seq<Bridge>, s: State, run: seq<nat>, t: Table): nat
    requires IsRun(bridges, s, run)
    decreases |run|
  {
    if run == [] then 0
    else
      var m := s.waiting[run[0]];
      (if !Dropped(bridges, m) && t in bridges[m.bridge].targets then 1 else 0)
      + DeliveredInto(bridges, Read(bridges, s, run[0]), run[1..], t)
  }

  lemma {:induction false} WriteAllWrites(bridges: seq<Bridge>, s: State, targets: set<Table>, origins: set<Table>, t: Table)
    requires !IsRead(bridges, t)
    ensures multiset(WriteAll(bridges, s, targets, origins).hops)[t] == multiset(s.hops)[t] + if t in targets then 1 else 0
    decreases |targets|
  {
    if targets != {} {
      var u :| u in targets && WriteAll(bridges, s, targets, origins) ==
                              WriteAll(bridges, WriteTo(bridges, s, u, origins), targets - {u}, origins);
      WriteAllWrites(bridges, WriteTo(bridges, s, u, origins), targets - {u}, origins, t);
    }
  }

  /** A table no bridge reads is written once for every change delivered into it, whether it needs to be or not. */
  lemma {:induction false} UnreadTablesAreWrittenBlindly(bridges: seq<Bridge>, s: State, run: seq<nat>, t: Table)
    requires IsRun(bridges, s, run) && !IsRead(bridges, t)
    ensures multiset(After(bridges, s, run).hops)[t] == multiset(s.hops)[t] + DeliveredInto(bridges, s, run, t)
    decreases |run|
  {
    if run != [] {
      var m := s.waiting[run[0]];
      var rest := s.(waiting := s.waiting[..run[0]] + s.waiting[run[0] + 1..]);
      WriteAllWrites(bridges, rest, bridges[m.bridge].targets, m.origins + {bridges[m.bridge].source}, t);
      UnreadTablesAreWrittenBlindly(bridges, Read(bridges, s, run[0]), run[1..], t);
    }
  }

  /* ----- where nothing can be looked at first ----- */

  /** The way of one change by where it has been alone, over single-target bridges: each bridge of the route
  reads what the one before wrote, and none of them would write to a table the change has been through. */
  ghost predicate Route(bridges: seq<Bridge>, route: seq<nat>, at: Table, been: set<Table>)
    decreases |route|
  {
    route == [] ||
    (route[0] < |bridges| && bridges[route[0]].source == at &&
     !Dropped(bridges, Message(route[0], been)) &&
     exists t :: bridges[route[0]].targets == {t} && Route(bridges, route[1..], t, been + {at}))
  }

  /** Even if no row could ever be looked at before it is written, a change goes through no table twice, and so
  makes fewer hops than there are tables. */
  lemma {:induction false} RouteIsShort(bridges: seq<Bridge>, route: seq<nat>, at: Table, been: set<Table>, tables: set<Table>)
    requires Among(bridges, tables) && Route(bridges, route, at, been)
    requires at in tables && been <= tables && at !in been
    requires forall b :: b in bridges ==> b.source !in b.targets
    ensures |route| + |been| < |tables|
    decreases |route|
  {
    if route == [] {
      ShortOfAll(been, at, tables);
    } else {
      var b := bridges[route[0]];
      assert b in bridges;
      var t :| b.targets == {t} && Route(bridges, route[1..], t, been + {at});
      assert t in b.targets;
      if been == {} {
        assert t !in been + {at};
      } else {
        assert !({t} <= been);
        assert t !in been;
      }
      RouteIsShort(bridges, route[1..], t, been + {at}, tables);
    }
  }

  /* ----- a chain with a holder in the middle ----- */

  lemma OneTarget(bridges: seq<Bridge>, s: State, t: Table, origins: set<Table>)
    ensures WriteAll(bridges, s, {t}, origins) == WriteTo(bridges, s, t, origins)
  {
    assert {t} - {t} == {};
  }

  /** A table in the middle of a chain that happens to hold the value is not written, so it sends nothing on:
  the end of the chain stays without it, and nothing waits any more. */
  lemma AHolderInTheMiddleBlocks()
    ensures var bridges := [Bridge("a", {"b"}), Bridge("b", {"c"})];
            && Path(bridges, ["a", "b", "c"])
            && IsRun(bridges, Begun(bridges, "a", {"b"}), [0])
            && var end := After(bridges, Begun(bridges, "a", {"b"}), [0]);
               end.waiting == [] && "c" !in end.holds
  {
    var ab, bc := Bridge("a", {"b"}), Bridge("b", {"c"});
    var bridges := [ab, bc];
    assert ab in bridges && bc in bridges;
    assert "a" != "b" && "b" != "c" && "a" != "c";
    assert ["a", "b", "c"][1..] == ["b", "c"] && ["b", "c"][1..] == ["c"];
    assert Feeds(bridges, "a", "b") && Feeds(bridges, "b", "c");
    assert Path(bridges, ["c"]) && Path(bridges, ["b", "c"]);
    var s := Begun(bridges, "a", {"b"});
    assert Emitted(bridges, 1, "a", {}) == [] + [Message(0, {})];
    assert Emitted(bridges, 2, "a", {}) == [Message(0, {})] + [];
    assert s.waiting == [Message(0, {})];
    var rest := s.(waiting := []);
    assert s.waiting[..0] + s.waiting[1..] == [];
    assert IsRead(bridges, "b");
    OneTarget(bridges, rest, "b", {} + {"a"});
    assert Read(bridges, s, 0) == rest;
    assert [0][1..] == [];
    assert After(bridges, s, [0]) == After(bridges, rest, []);
  }
}
