/** The lock after repeated failures: sweeping idle entries never changes an answer. */
module FailureLock {
  import opened Outcomes

  const SWEEP_INTERVAL := 600_000_000_000

  type Time = int

  /** No lock yet is the zero time, which lies before every clock reading. */
  datatype Entry = Entry(failures: nat, lastFailure: Time, lockedUntil: Option<Time>)

  type Entries = map<string, Entry>

  datatype State = State(entries: Entries, lastSweep: Time)

  predicate LockedAt(entries: Entries, key: string, now: Time) {
    key in entries && entries[key].lockedUntil.Some? && now < entries[key].lockedUntil.value
  }

  function Failed(entries: Entries, key: string, threshold: int, lockFor: Time, now: Time): Entries {
    var failures := if key !in entries || now - entries[key].lastFailure > lockFor then 1 else entries[key].failures + 1;
    var until := if key !in entries || now - entries[key].lastFailure > lockFor then None else entries[key].lockedUntil;
    entries[key := if failures >= threshold then Entry(0, now, Some(now + lockFor)) else Entry(failures, now, until)]
  }

  function Succeeded(entries: Entries, key: string, now: Time): Entries {
    if key !in entries then entries
    else if LockedAt(entries, key, now) then entries[key := entries[key].(failures := 0)]
    else entries - {key}
  }

  predicate Sweepable(e: Entry, cutoff: Time, now: Time) { e.lastFailure < cutoff && (e.lockedUntil.Some? ==> now > e.lockedUntil.value) }

  function Swept(entries: Entries, cutoff: Time, now: Time): Entries {
    map k | k in entries && !Sweepable(entries[k], cutoff, now) :: entries[k]
  }

  class FailureLocker {
    var entries: Entries
    var lastSweep: Time

    constructor (now: Time)
      ensures Current() == State(map[], now)
    {
      entries, lastSweep := map[], now;
    }

    function Current(): State reads this { State(entries, lastSweep) }

    method Locked(key: string, now: Time) returns (locked: bool)
      ensures locked == LockedAt(entries, key, now)
    {
      locked := key in entries && entries[key].lockedUntil.Some? && now < entries[key].lockedUntil.value;
    }

    method Sweep(now: Time, lockFor: Time)
      modifies this
      ensures Current() == State(Swept(old(entries), now - 2 * lockFor, now), now)
    {
      var cutoff := now - lockFor * 2;
      var keys := entries.Keys;
      while keys != {}
        invariant keys <= old(entries).Keys && lastSweep == old(lastSweep)
        invariant forall k :: k in entries <==> k in old(entries) && (k in keys || !Sweepable(old(entries)[k], cutoff, now))
        invariant forall k :: k in entries ==> entries[k] == old(entries)[k]
        decreases |keys|
      {
        var k :| k in keys;
        if entries[k].lastFailure < cutoff && (entries[k].lockedUntil.Some? ==> now > entries[k].lockedUntil.value) {
          entries := entries - {k};
        }
        keys := keys - {k};
      }
      lastSweep := now;
      assert entries == Swept(old(entries), cutoff, now);
    }

    method RecordFailure(key: string, threshold: int, lockFor: Time, now: Time)
      modifies this
      ensures Current() == Next(old(Current()), Fail(key, threshold, now), lockFor)
    {
      if threshold <= 0 {
        return;
      }
      if now - lastSweep > SWEEP_INTERVAL {
        Sweep(now, lockFor);
      }
      var e := if key in entries && now - entries[key].lastFailure <= lockFor then entries[key] else Entry(0, now, None);
      e := e.(failures := e.failures + 1, lastFailure := now);
      if e.failures >= threshold {
        e := e.(lockedUntil := Some(now + lockFor), failures := 0);
      }
      entries := entries[key := e];
    }

    /** A success clears the count but does not lift a lock. */
    method Reset(key: string, now: Time)
      modifies this
      ensures Current() == old(Current()).(entries := Succeeded(old(entries), key, now))
    {
      if key !in entries {
        return;
      }
      if entries[key].lockedUntil.Some? && now < entries[key].lockedUntil.value {
        entries := entries[key := entries[key].(failures := 0)];
        return;
      }
      entries := entries - {key};
    }
  }

  // ---- Runs, with and without sweeping ----

  datatype Event = Fail(key: string, threshold: int, now: Time) | Succeed(key: string, now: Time)

  function Next(s: State, e: Event, lockFor: Time): State {
    match e
    case Fail(key, threshold, now) =>
      if threshold <= 0 then s
      else
        var t := if now - s.lastSweep > SWEEP_INTERVAL then State(Swept(s.entries, now - 2 * lockFor, now), now) else s;
        t.(entries := Failed(t.entries, key, threshold, lockFor, now))
    case Succeed(key, now) => s.(entries := Succeeded(s.entries, key, now))
  }

  /** The same without ever forgetting an entry for being idle. */
  function NextUnswept(entries: Entries, e: Event, lockFor: Time): Entries {
    match e
    case Fail(key, threshold, now) => if threshold <= 0 then entries else Failed(entries, key, threshold, lockFor, now)
    case Succeed(key, now) => Succeeded(entries, key, now)
  }

  function Run(s: State, events: seq<Event>, lockFor: Time): State {
    if events == [] then s else Next(Run(s, events[..|events| - 1], lockFor), events[|events| - 1], lockFor)
  }

  function RunUnswept(entries: Entries, events: seq<Event>, lockFor: Time): Entries {
    if events == [] then entries else NextUnswept(RunUnswept(entries, events[..|events| - 1], lockFor), events[|events| - 1], lockFor)
  }

  predicate Ordered(events: seq<Event>) { forall i, j :: 0 <= i < j < |events| ==> events[i].now <= events[j].now }

  /** A lock lasts no longer than lockFor after the failure that set it. */
  predicate LockFits(e: Entry, lockFor: Time) { e.lockedUntil.Some? ==> e.lockedUntil.value <= e.lastFailure + lockFor }

  predicate SameAnswer(swept: Entries, kept: Entries, k: string, now: Time, lockFor: Time) {
    && (k in swept ==> k in kept && swept[k] == kept[k])
    && (k in kept ==> LockFits(kept[k], lockFor) && kept[k].lastFailure <= now && (k !in swept ==> now - kept[k].lastFailure > lockFor))
  }

  ghost predicate Alike(swept: Entries, kept: Entries, now: Time, lockFor: Time) { forall k :: SameAnswer(swept, kept, k, now, lockFor) }

  lemma SweepKeeps(swept: Entries, kept: Entries, k: string, now: Time, later: Time, lockFor: Time)
    requires SameAnswer(swept, kept, k, now, lockFor) && now <= later && lockFor >= 0
    ensures SameAnswer(swept, kept, k, later, lockFor)
    ensures SameAnswer(Swept(swept, later - 2 * lockFor, later), kept, k, later, lockFor)
  {
  }

  lemma FailKeeps(swept: Entries, kept: Entries, k: string, key: string, threshold: int, now: Time, lockFor: Time)
    requires SameAnswer(swept, kept, k, now, lockFor) && SameAnswer(swept, kept, key, now, lockFor) && lockFor >= 0
    ensures SameAnswer(Failed(swept, key, threshold, lockFor, now), Failed(kept, key, threshold, lockFor, now), k, now, lockFor)
  {
  }

  lemma NextKeeps(s: State, kept: Entries, e: Event, now: Time, lockFor: Time)
    requires Alike(s.entries, kept, now, lockFor) && now <= e.now && lockFor >= 0
    ensures Alike(Next(s, e, lockFor).entries, NextUnswept(kept, e, lockFor), e.now, lockFor)
  {
    forall k
      ensures SameAnswer(Next(s, e, lockFor).entries, NextUnswept(kept, e, lockFor), k, e.now, lockFor)
    {
      SweepKeeps(s.entries, kept, k, now, e.now, lockFor);
      SweepKeeps(s.entries, kept, e.key, now, e.now, lockFor);
      if e.Fail? && e.threshold > 0 {
        var t := if e.now - s.lastSweep > SWEEP_INTERVAL then Swept(s.entries, e.now - 2 * lockFor, e.now) else s.entries;
        FailKeeps(t, kept, k, e.key, e.threshold, e.now, lockFor);
      }
    }
  }

  lemma {:induction false} RunsAlike(start: Time, events: seq<Event>, lockFor: Time)
    requires Ordered(events) && lockFor >= 0 && events != []
    ensures Alike(Run(State(map[], start), events, lockFor).entries, RunUnswept(map[], events, lockFor), events[|events| - 1].now, lockFor)
  {
    var front, e := events[..|events| - 1], events[|events| - 1];
    var s, kept := Run(State(map[], start), front, lockFor), RunUnswept(map[], front, lockFor);
    if front == [] {
      NextKeeps(s, kept, e, e.now, lockFor);
    } else {
      RunsAlike(start, front, lockFor);
      NextKeeps(s, kept, e, front[|front| - 1].now, lockFor);
    }
  }

  /** For a fixed lock time, no later question about any key is answered differently because of sweeping. */
  lemma SweepingIsInvisible(start: Time, events: seq<Event>, lockFor: Time, key: string, now: Time)
    requires Ordered(events) && lockFor >= 0 && forall i :: 0 <= i < |events| ==> events[i].now <= now
    ensures LockedAt(Run(State(map[], start), events, lockFor).entries, key, now) == LockedAt(RunUnswept(map[], events, lockFor), key, now)
  {
    if events != [] {
      RunsAlike(start, events, lockFor);
      var last := events[|events| - 1].now;
      assert SameAnswer(Run(State(map[], start), events, lockFor).entries, RunUnswept(map[], events, lockFor), key, last, lockFor);
    }
  }

  // ---- What a lock means ----

  /** Failures of one key, each within the lock time of the one before. */
  predicate Streak(events: seq<Event>, key: string, threshold: int, lockFor: Time) {
    && (forall i :: 0 <= i < |events| ==> events[i] == Fail(key, threshold, events[i].now))
    && (forall i :: 0 < i < |events| ==> events[i].now - events[i - 1].now <= lockFor)
  }

  /** From a clean entry, a streak counts up and locks exactly at the threshold. */
  lemma {:induction false} StreakLocksAtThreshold(entries: Entries, events: seq<Event>, key: string, threshold: nat, lockFor: Time)
    requires key !in entries && Streak(events, key, threshold, lockFor) && 0 < |events| <= threshold
    ensures var after, last := RunUnswept(entries, events, lockFor), events[|events| - 1].now;
      key in after && after[key] == if |events| == threshold then Entry(0, last, Some(last + lockFor)) else Entry(|events|, last, None)
  {
    var front := events[..|events| - 1];
    if front == [] {
      assert RunUnswept(entries, front, lockFor) == entries;
    } else {
      assert forall i :: 0 <= i < |front| ==> front[i] == events[i];
      StreakLocksAtThreshold(entries, front, key, threshold, lockFor);
    }
  }

  // ---- Locks in terms of the events alone ----

  function LastFailure(events: seq<Event>, key: string): Option<Time> {
    if events == [] then None
    else
      var e := events[|events| - 1];
      if e.Fail? && e.key == key then Some(e.now) else LastFailure(events[..|events| - 1], key)
  }

  /** The key's failures in a row so far: a success ends the row, and so does more than the lock time between two failures. */
  function InARow(events: seq<Event>, key: string, lockFor: Time): nat {
    if events == [] then 0
    else
      var front, e := events[..|events| - 1], events[|events| - 1];
      if e.key != key then InARow(front, key, lockFor)
      else if e.Succeed? then 0
      else if LastFailure(front, key).Some? && e.now - LastFailure(front, key).value <= lockFor then InARow(front, key, lockFor) + 1
      else 1
  }

  /** The last event is a failure that completes another `threshold` of its row. */
  predicate Completes(events: seq<Event>, key: string, threshold: nat, lockFor: Time)
    requires threshold > 0
  {
    events != [] && events[|events| - 1].Fail? && events[|events| - 1].key == key && InARow(events, key, lockFor) % threshold == 0
  }

  predicate LockDue(events: seq<Event>, key: string, threshold: nat, lockFor: Time, now: Time)
    requires threshold > 0
  {
    events != [] &&
    (LockDue(events[..|events| - 1], key, threshold, lockFor, now)
     || (Completes(events, key, threshold, lockFor) && now < events[|events| - 1].now + lockFor))
  }

  lemma {:induction false} LockDueIff(events: seq<Event>, key: string, threshold: nat, lockFor: Time, now: Time)
    requires threshold > 0
    ensures LockDue(events, key, threshold, lockFor, now) <==>
      exists i :: 0 <= i < |events| && Completes(events[..i + 1], key, threshold, lockFor) && now < events[i].now + lockFor
  {
    if events != [] {
      var n := |events| - 1;
      var front := events[..n];
      LockDueIff(front, key, threshold, lockFor, now);
      assert events[..n + 1] == events;
      if LockDue(front, key, threshold, lockFor, now) {
        var i :| 0 <= i < |front| && Completes(front[..i + 1], key, threshold, lockFor) && now < front[i].now + lockFor;
        assert front[..i + 1] == events[..i + 1] && front[i] == events[i];
      }
      if i :| 0 <= i < n && Completes(events[..i + 1], key, threshold, lockFor) && now < events[i].now + lockFor {
        assert front[..i + 1] == events[..i + 1] && front[i] == events[i];
      }
    }
  }

  /** What an entry knows of the events. */
  predicate Knows(entries: Entries, events: seq<Event>, key: string, threshold: nat, lockFor: Time)
    requires threshold > 0
  {
    var row := InARow(events, key, lockFor);
    && (row > 0 ==> key in entries)
    && (key in entries ==>
          && LastFailure(events, key) == Some(entries[key].lastFailure) && LockFits(entries[key], lockFor)
          && entries[key].failures == row % threshold)
  }

  predicate OneThreshold(events: seq<Event>, key: string, threshold: nat) {
    forall i :: 0 <= i < |events| && events[i].Fail? && events[i].key == key ==> events[i].threshold == threshold
  }

  lemma OneQuotient(x: nat, n: nat, q: nat, m: nat)
    requires m < n && x == q * n + m
    ensures x % n == m
  {
    var d := x / n - q;
    assert x == x / n * n + x % n;
    assert d * n == m - x % n;
  }

  lemma NextRemainder(r: nat, n: nat)
    requires n > 0
    ensures (r + 1) % n == if r % n + 1 == n then 0 else r % n + 1
  {
    var q, m := r / n, r % n;
    assert r == q * n + m;
    if m + 1 == n {
      assert r + 1 == (q + 1) * n;
      OneQuotient(r + 1, n, q + 1, 0);
    } else {
      OneQuotient(r + 1, n, q, m + 1);
    }
  }

  lemma FailKnows(entries: Entries, events: seq<Event>, e: Event, key: string, threshold: nat, lockFor: Time)
    requires threshold > 0 && lockFor >= 0 && Knows(entries, events, key, threshold, lockFor) && e.Fail? && e.key == key && e.threshold == threshold
    requires LastFailure(events, key).Some? ==> LastFailure(events, key).value <= e.now
    ensures Knows(Failed(entries, key, threshold, lockFor, e.now), events + [e], key, threshold, lockFor)
  {
    assert (events + [e])[..|events|] == events;
    NextRemainder(InARow(events, key, lockFor), threshold);
    NextRemainder(0, threshold);
  }

  lemma SucceedKnows(entries: Entries, events: seq<Event>, e: Event, key: string, threshold: nat, lockFor: Time)
    requires threshold > 0 && Knows(entries, events, key, threshold, lockFor) && e.Succeed? && e.key == key
    ensures Knows(Succeeded(entries, key, e.now), events + [e], key, threshold, lockFor)
  {
    assert (events + [e])[..|events|] == events;
  }

  lemma NextKnows(entries: Entries, events: seq<Event>, e: Event, key: string, threshold: nat, lockFor: Time)
    requires threshold > 0 && lockFor >= 0 && Knows(entries, events, key, threshold, lockFor) && OneThreshold([e], key, threshold)
    requires LastFailure(events, key).Some? ==> LastFailure(events, key).value <= e.now
    ensures Knows(NextUnswept(entries, e, lockFor), events + [e], key, threshold, lockFor)
  {
    assert [e][0] == e && (events + [e])[..|events|] == events;
    if e.key == key {
      if e.Fail? {
        FailKnows(entries, events, e, key, threshold, lockFor);
      } else {
        SucceedKnows(entries, events, e, key, threshold, lockFor);
      }
    }
  }

  lemma NextLocks(entries: Entries, events: seq<Event>, e: Event, key: string, threshold: nat, lockFor: Time, now: Time)
    requires threshold > 0 && lockFor >= 0 && Knows(entries, events, key, threshold, lockFor) && OneThreshold([e], key, threshold)
    requires e.now <= now && (LastFailure(events, key).Some? ==> LastFailure(events, key).value <= e.now)
    requires LockedAt(entries, key, now) <==> LockDue(events, key, threshold, lockFor, now)
    ensures LockedAt(NextUnswept(entries, e, lockFor), key, now) <==> LockDue(events + [e], key, threshold, lockFor, now)
  {
    assert [e][0] == e && (events + [e])[..|events|] == events;
    if e.key == key && e.Fail? {
      NextRemainder(InARow(events, key, lockFor), threshold);
      NextRemainder(0, threshold);
    }
  }

  lemma {:induction false} LastFailureIsPast(events: seq<Event>, key: string, now: Time)
    requires forall i :: 0 <= i < |events| ==> events[i].now <= now
    ensures LastFailure(events, key).Some? ==> LastFailure(events, key).value <= now
  {
    if events != [] {
      LastFailureIsPast(events[..|events| - 1], key, now);
    }
  }

  lemma {:induction false} UnsweptLocks(events: seq<Event>, key: string, threshold: nat, lockFor: Time, now: Time)
    requires threshold > 0 && lockFor >= 0 && Ordered(events) && OneThreshold(events, key, threshold)
    requires forall i :: 0 <= i < |events| ==> events[i].now <= now
    ensures Knows(RunUnswept(map[], events, lockFor), events, key, threshold, lockFor)
    ensures LockedAt(RunUnswept(map[], events, lockFor), key, now) <==> LockDue(events, key, threshold, lockFor, now)
  {
    if events != [] {
      var front, e := events[..|events| - 1], events[|events| - 1];
      UnsweptLocks(front, key, threshold, lockFor, now);
      LastFailureIsPast(front, key, e.now);
      assert events == front + [e] && OneThreshold([e], key, threshold);
      NextKnows(RunUnswept(map[], front, lockFor), front, e, key, threshold, lockFor);
      NextLocks(RunUnswept(map[], front, lockFor), front, e, key, threshold, lockFor, now);
    }
  }

  /**
    A key is locked exactly while the lock time runs after a failure that completes another
    `threshold` failures in a row; successes never end a lock, and sweeping never matters.
   */
  lemma LockedIff(start: Time, events: seq<Event>, key: string, threshold: nat, lockFor: Time, now: Time)
    requires threshold > 0 && lockFor >= 0 && Ordered(events) && OneThreshold(events, key, threshold)
    requires forall i :: 0 <= i < |events| ==> events[i].now <= now
    ensures LockedAt(Run(State(map[], start), events, lockFor).entries, key, now) <==>
      exists i :: 0 <= i < |events| && Completes(events[..i + 1], key, threshold, lockFor) && now < events[i].now + lockFor
  {
    SweepingIsInvisible(start, events, lockFor, key, now);
    UnsweptLocks(events, key, threshold, lockFor, now);
    LockDueIff(events, key, threshold, lockFor, now);
  }
}
