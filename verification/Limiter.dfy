/** The attempt limiter: failures per key, a lock that doubles, and a bounded memory that gives up what is not
locked first. Times are milliseconds. */
module Limiter {
  datatype Entry = Entry(failures: nat, lockedUntil: nat)

  datatype Settings = Settings(maxFailures: nat, baseLock: nat, maxLock: nat, maxKeys: nat)

  /** Keys in the order of their last failure, the longest ago first. */
  type Entries = seq<(string, Entry)>

  function Power(n: nat): nat {
    if n == 0 then 1 else 2 * Power(n - 1)
  }

  function Least(a: nat, b: nat): nat {
    if a < b then a else b
  }

  /** The lock the n-th failure sets. */
  function Lock(s: Settings, n: nat): nat {
    if n < s.maxFailures then 0 else Least(s.baseLock * Power(n - s.maxFailures), s.maxLock)
  }

  function Failed(s: Settings, e: Entry, now: nat): Entry {
    var n := e.failures + 1;
    Entry(n, if n >= s.maxFailures then now + Lock(s, n) else e.lockedUntil)
  }

  function Without(entries: Entries, key: string): Entries {
    if entries == [] then []
    else (if entries[0].0 == key then [] else [entries[0]]) + Without(entries[1..], key)
  }

  function Of(entries: Entries, key: string): Entry {
    if entries == [] then Entry(0, 0) else if entries[0].0 == key then entries[0].1 else Of(entries[1..], key)
  }

  predicate Locked(e: (string, Entry), now: nat) {
    e.1.lockedUntil > now
  }

  /** The oldest `n` unlocked entries go. */
  function DropUnlocked(entries: Entries, n: nat, now: nat): Entries
    decreases |entries|
  {
    if entries == [] || n == 0 then entries
    else if Locked(entries[0], now) then [entries[0]] + DropUnlocked(entries[1..], n, now)
    else DropUnlocked(entries[1..], n - 1, now)
  }

  /** Room made: unlocked entries first, oldest first, then whatever is oldest. */
  function Forgotten(s: Settings, entries: Entries, now: nat): Entries {
    if |entries| <= s.maxKeys then entries
    else
      var left := DropUnlocked(entries, |entries| - s.maxKeys, now);
      if |left| <= s.maxKeys then left else left[|left| - s.maxKeys..]
  }

  predicate AllLocked(entries: Entries, now: nat) {
    forall i :: 0 <= i < |entries| ==> Locked(entries[i], now)
  }

  lemma {:induction false} DropUnlockedFits(entries: Entries, n: nat, now: nat)
    ensures var left := DropUnlocked(entries, n, now);
            && |entries| - n <= |left| <= |entries|
            && (|left| > |entries| - n ==> AllLocked(left, now))
            && (forall e :: e in entries && Locked(e, now) ==> e in left)
    decreases |entries|
  {
    if entries != [] && n > 0 {
      if Locked(entries[0], now) {
        DropUnlockedFits(entries[1..], n, now);
      } else {
        DropUnlockedFits(entries[1..], n - 1, now);
      }
    }
  }

  /** At most `maxKeys` keys are kept, no fewer than that are, and a locked one is only given up when no
  unlocked one is left. */
  lemma ForgettingIsFair(s: Settings, entries: Entries, now: nat)
    ensures var left := Forgotten(s, entries, now);
            && |left| == Least(|entries|, s.maxKeys)
            && ((exists e :: e in entries && Locked(e, now) && e !in left) ==> AllLocked(left, now))
  {
    if |entries| > s.maxKeys {
      DropUnlockedFits(entries, |entries| - s.maxKeys, now);
      var left := DropUnlocked(entries, |entries| - s.maxKeys, now);
      if |left| > s.maxKeys {
        var tail := left[|left| - s.maxKeys..];
        assert forall i :: 0 <= i < |tail| ==> tail[i] == left[|left| - s.maxKeys + i];
      }
    }
  }

  lemma {:induction false} WithoutOnly(entries: Entries, key: string)
    ensures forall e :: e in Without(entries, key) <==> e in entries && e.0 != key
    ensures forall other :: Of(Without(entries, key), other) == if other == key then Entry(0, 0) else Of(entries, other)
    decreases |entries|
  {
    if entries != [] {
      WithoutOnly(entries[1..], key);
      if entries[0].0 == key {
        assert Without(entries, key) == Without(entries[1..], key);
      } else {
        assert Without(entries, key) == [entries[0]] + Without(entries[1..], key);
        assert Without(entries, key)[1..] == Without(entries[1..], key);
      }
    }
  }

  class AttemptLimiter {
    const settings: Settings
    var entries: Entries

    constructor (settings: Settings)
      ensures this.settings == settings && entries == []
    {
      this.settings, entries := settings, [];
    }

    /** Waiting this long, and no less, gets the key through. */
    method RetryAfter(key: string, now: nat) returns (wait: nat)
      ensures forall later: nat :: now <= later ==> (!Locked((key, Of(entries, key)), later) <==> now + wait <= later)
    {
      var e := Of(entries, key);
      wait := if e.lockedUntil > now then e.lockedUntil - now else 0;
    }

    /** Record a failed attempt: the key becomes the last one to have failed, and room is made if need be. */
    method Fail(key: string, now: nat)
      modifies this
      ensures entries == Forgotten(settings, Without(old(entries), key) + [(key, Failed(settings, Of(old(entries), key), now))], now)
      ensures |entries| <= settings.maxKeys
    {
      var e := Of(entries, key);
      var n := e.failures + 1;
      var until := e.lockedUntil;
      if n >= settings.maxFailures {
        var over := n - settings.maxFailures;
        until := now + Least(settings.baseLock * Power(over), settings.maxLock);
      }
      entries := Without(entries, key) + [(key, Entry(n, until))];
      ForgettingIsFair(settings, entries, now);
      if |entries| > settings.maxKeys {
        Forget(now);
      }
    }

    method Forget(now: nat)
      modifies this
      ensures entries == Forgotten(settings, old(entries), now)
    {
      if |entries| <= settings.maxKeys {
        return;
      }
      var excess: nat := |entries| - settings.maxKeys;
      var kept: Entries := [];
      var i := 0;
      while i < |entries| && excess > 0
        invariant 0 <= i <= |entries| && entries == old(entries)
        invariant kept + DropUnlocked(entries[i..], excess, now) == DropUnlocked(entries, |entries| - settings.maxKeys, now)
      {
        assert entries[i..][1..] == entries[i + 1..];
        if Locked(entries[i], now) {
          assert kept + [entries[i]] + DropUnlocked(entries[i + 1..], excess, now) ==
                 kept + ([entries[i]] + DropUnlocked(entries[i + 1..], excess, now));
          kept := kept + [entries[i]];
        } else {
          excess := excess - 1;
        }
        i := i + 1;
      }
      entries := kept + entries[i..];
      if |entries| > settings.maxKeys {
        entries := entries[|entries| - settings.maxKeys..];
      }
    }

    /** After a success the next failure of the key is its first, and nobody else's count or place changes. */
    method Succeed(key: string)
      modifies this
      ensures Of(entries, key) == Entry(0, 0) && entries == Without(old(entries), key)
      ensures forall other :: other != key ==> Of(entries, other) == Of(old(entries), other)
    {
      WithoutOnly(entries, key);
      entries := Without(entries, key);
    }
  }

  /* ----- how fast one key can be tried ----- */

  /** The key's entry after failing at each of these times, nothing forgotten in between. */
  function After(s: Settings, times: seq<nat>): Entry
    decreases |times|
  {
    if times == [] then Entry(0, 0) else Failed(s, After(s, times[..|times| - 1]), times[|times| - 1])
  }

  /** Each attempt is made when the limiter lets the key through, and not before the one before it. */
  predicate Admitted(s: Settings, times: seq<nat>)
    decreases |times|
  {
    times == [] ||
    (Admitted(s, times[..|times| - 1]) && After(s, times[..|times| - 1]).lockedUntil <= times[|times| - 1] &&
     (|times| > 1 ==> times[|times| - 2] <= times[|times| - 1]))
  }

  /** The locks that failures `first .. end` set, together. */
  function Locks(s: Settings, first: nat, end: nat): nat
    requires first <= end
    decreases end
  {
    if first == end then 0 else Locks(s, first, end - 1) + Lock(s, end - 1)
  }

  lemma {:induction false} CountsFailures(s: Settings, times: seq<nat>)
    ensures After(s, times).failures == |times|
    ensures times != [] && |times| >= s.maxFailures ==> After(s, times).lockedUntil == times[|times| - 1] + Lock(s, |times|)
    decreases |times|
  {
    if times != [] {
      CountsFailures(s, times[..|times| - 1]);
    }
  }

  lemma {:induction false} Apart(s: Settings, times: seq<nat>, i: nat, j: nat)
    requires Admitted(s, times) && i <= j < |times|
    ensures times[i] + Locks(s, i + 1, j + 1) <= times[j]
    decreases |times|, j
  {
    var last := |times| - 1;
    var before := times[..last];
    if j < last {
      Apart(s, before, i, j);
    } else if i < last {
      Apart(s, before, i, last - 1);
      CountsFailures(s, before);
      assert before[last - 1] == times[last - 1];
    }
  }

  /** The n-th failure of a key that never succeeds comes no earlier than all the locks before it. */
  lemma NthFailure(s: Settings, times: seq<nat>)
    requires Admitted(s, times) && times != []
    ensures times[0] + Locks(s, 1, |times|) <= times[|times| - 1]
  {
    Apart(s, times, 0, |times| - 1);
  }

  lemma {:induction false} PowerGrows(a: nat, b: nat)
    requires a <= b
    ensures 1 <= Power(a) <= Power(b)
    decreases b
  {
    if a < b {
      PowerGrows(a, b - 1);
    } else if b > 0 {
      PowerGrows(b - 1, b - 1);
    }
  }

  /** A later failure never sets a shorter lock. */
  lemma LocksGrow(s: Settings, a: nat, b: nat)
    requires a <= b
    ensures Lock(s, a) <= Lock(s, b)
  {
    if a >= s.maxFailures {
      PowerGrows(a - s.maxFailures, b - s.maxFailures);
      assert s.baseLock * Power(a - s.maxFailures) <= s.baseLock * Power(b - s.maxFailures);
    }
  }

  lemma {:induction false} LaterLocks(s: Settings, from: nat, n: nat)
    requires from >= 1
    ensures Locks(s, 1, 1 + n) <= Locks(s, from, from + n)
    decreases n
  {
    if n > 0 {
      LaterLocks(s, from, n - 1);
      LocksGrow(s, n, from + n - 1);
    }
  }

  /* ----- the limiter on user names: ten failures, 5 seconds doubling, at most a minute ----- */

  const USERNAME := Settings(10, 5_000, 60_000, 10_000)
  const DAY: nat := 86_400_000

  lemma {:induction false} NoLockYet(n: nat)
    requires 1 <= n <= 10
    ensures Locks(USERNAME, 1, n) == 0
    decreases n
  {
    if n > 1 {
      NoLockYet(n - 1);
    }
  }

  lemma UsernameLocks()
    ensures Lock(USERNAME, 10) == 5_000 && Lock(USERNAME, 11) == 10_000
    ensures Lock(USERNAME, 12) == 20_000 && Lock(USERNAME, 13) == 40_000
    ensures forall n :: n >= 14 ==> Lock(USERNAME, n) == 60_000
  {
    assert Power(0) == 1 && Power(1) == 2 && Power(2) == 4 && Power(3) == 8 && Power(4) == 16;
    forall n | n >= 14 ensures Lock(USERNAME, n) == 60_000 {
      PowerGrows(4, n - 10);
    }
  }

  lemma {:induction false} AMinuteEach(j: nat)
    ensures Locks(USERNAME, 1, 14 + j) == 75_000 + 60_000 * j
    decreases j
  {
    UsernameLocks();
    if j == 0 {
      NoLockYet(10);
      assert Locks(USERNAME, 1, 11) == 5_000;
      assert Locks(USERNAME, 1, 12) == 15_000;
      assert Locks(USERNAME, 1, 13) == 35_000;
    } else {
      AMinuteEach(j - 1);
    }
  }

  /** In no stretch of 24 hours is one user name tried more than 1,452 times. */
  lemma AtMost1452ADay(times: seq<nat>, i: nat, j: nat)
    requires Admitted(USERNAME, times) && i <= j < |times| && times[j] < times[i] + DAY
    ensures j - i + 1 <= 1_452
  {
    Apart(USERNAME, times, i, j);
    LaterLocks(USERNAME, i + 1, j - i);
    if j - i >= 13 {
      AMinuteEach(j - i - 13);
    }
  }

  /** And 1,452 is what an attacker who never waits longer than he has to gets. */
  function Soonest(n: nat): seq<nat>
    decreases n
  {
    if n == 0 then [] else Soonest(n - 1) + [Locks(USERNAME, 1, n)]
  }

  lemma {:induction false} SoonestIsAdmitted(n: nat)
    ensures |Soonest(n)| == n && Admitted(USERNAME, Soonest(n)) && (n > 0 ==> Soonest(n)[n - 1] == Locks(USERNAME, 1, n))
    decreases n
  {
    if n > 0 {
      SoonestIsAdmitted(n - 1);
      assert Soonest(n)[..n - 1] == Soonest(n - 1);
      CountsFailures(USERNAME, Soonest(n - 1));
      if n - 1 < 10 {
        NotLockedBefore(Soonest(n - 1));
      }
    }
  }

  lemma {:induction false} NotLockedBefore(times: seq<nat>)
    requires |times| < 10
    ensures After(USERNAME, times).lockedUntil == 0
    decreases |times|
  {
    CountsFailures(USERNAME, times);
    if times != [] {
      CountsFailures(USERNAME, times[..|times| - 1]);
      NotLockedBefore(times[..|times| - 1]);
    }
  }

  /** The bound is reached. */
  lemma TheBoundIsReached()
    ensures var times := Soonest(1_452); Admitted(USERNAME, times) && |times| == 1_452 && times[1_451] < DAY
  {
    SoonestIsAdmitted(1_452);
    AMinuteEach(1_438);
  }

  /* ----- a full table ----- */

  /** Is a key that has just failed remembered? Exactly if there is room, or room can be made without it: one of
  the others is unlocked, or it is itself locked (and then the oldest locked one goes). */
  lemma ANewcomerIsKept(s: Settings, entries: Entries, newest: (string, Entry), now: nat)
    requires |entries| <= s.maxKeys && forall e :: e in entries ==> e.0 != newest.0
    ensures newest in Forgotten(s, entries + [newest], now) <==>
            s.maxKeys > 0 && (|entries| < s.maxKeys || !AllLocked(entries, now) || Locked(newest, now))
  {
    var all := entries + [newest];
    if |entries| < s.maxKeys {
      assert all[|entries|] == newest;
    } else if AllLocked(entries, now) && !Locked(newest, now) {
      NewestGoes(entries, newest, now);
    } else {
      NewestStays(entries, newest, now);
      DropUnlockedFits(all, 1, now);
    }
  }

  lemma {:induction false} NewestGoes(entries: Entries, newest: (string, Entry), now: nat)
    requires AllLocked(entries, now) && !Locked(newest, now)
    ensures DropUnlocked(entries + [newest], 1, now) == entries
    decreases |entries|
  {
    if entries != [] {
      assert (entries + [newest])[1..] == entries[1..] + [newest];
      NewestGoes(entries[1..], newest, now);
    } else {
      assert (entries + [newest])[1..] == [];
    }
  }

  lemma {:induction false} NewestStays(entries: Entries, newest: (string, Entry), now: nat)
    requires !AllLocked(entries, now) || Locked(newest, now)
    ensures var left := DropUnlocked(entries + [newest], 1, now);
            left != [] && left[|left| - 1] == newest && (|left| == |entries| || |left| == |entries| + 1)
            && (|left| == |entries| + 1 <==> AllLocked(entries, now))
    decreases |entries|
  {
    if entries != [] {
      assert (entries + [newest])[1..] == entries[1..] + [newest];
      if Locked(entries[0], now) {
        assert forall i :: 0 <= i < |entries[1..]| ==> entries[1..][i] == entries[i + 1];
        if !AllLocked(entries, now) {
          var i :| 0 <= i < |entries| && !Locked(entries[i], now);
          assert entries[1..][i - 1] == entries[i];
        }
        NewestStays(entries[1..], newest, now);
      }
    } else {
      assert (entries + [newest])[1..] == [];
    }
  }

  /** So when every other remembered key is locked and there is no room, a key that has not failed often enough
  to be locked itself is forgotten as soon as it fails: its failures are never counted up. */
  lemma AFullTableForgetsNewcomers(s: Settings, entries: Entries, key: string, now: nat)
    requires |entries| == s.maxKeys && AllLocked(entries, now) && s.maxFailures > 1
    ensures Forgotten(s, entries + [(key, Failed(s, Entry(0, 0), now))], now) == entries
  {
    NewestGoes(entries, (key, Failed(s, Entry(0, 0), now)), now);
  }
}
