/**
  The sliding-window limiter against the history of everything it accepted, and the price of
  sweeping all keys with the window of whichever caller comes by.  Times are nanoseconds, in
  the order in which the calls take the lock.
 */
module Limiter {
  const SWEEP_INTERVAL := 300_000_000_000

  type Time = int

  datatype Call = Call(key: string, limit: int, window: Time, now: Time)

  datatype State = State(buckets: map<string, seq<Time>>, lastSweep: Time)

  function Times(m: map<string, seq<Time>>, k: string): seq<Time> { if k in m then m[k] else [] }

  /** A bucket the sweep takes away. */
  predicate Idle(times: seq<Time>, cutoff: Time) { times == [] || times[|times| - 1] < cutoff }

  function Swept(buckets: map<string, seq<Time>>, cutoff: Time): map<string, seq<Time>> {
    map k | k in buckets && !Idle(buckets[k], cutoff) :: buckets[k]
  }

  function Recent(times: seq<Time>, cutoff: Time): seq<Time> {
    if times != [] && times[0] < cutoff then Recent(times[1..], cutoff) else times
  }

  function BeforeCheck(s: State, c: Call): State {
    if c.now - s.lastSweep > SWEEP_INTERVAL then State(Swept(s.buckets, c.now - 2 * c.window), c.now) else s
  }

  function Allows(s: State, c: Call): bool {
    c.limit <= 0 || |Recent(Times(BeforeCheck(s, c).buckets, c.key), c.now - c.window)| < c.limit
  }

  function After(s: State, c: Call): State {
    if c.limit <= 0 then s
    else
      var t := BeforeCheck(s, c);
      var kept := Recent(Times(t.buckets, c.key), c.now - c.window);
      t.(buckets := t.buckets[c.key := if |kept| < c.limit then kept + [c.now] else kept])
  }

  class MemoryLimiter {
    var buckets: map<string, seq<Time>>
    var lastSweep: Time

    constructor (now: Time)
      ensures Current() == State(map[], now)
    {
      buckets, lastSweep := map[], now;
    }

    function Current(): State reads this { State(buckets, lastSweep) }

    method Sweep(now: Time, window: Time)
      modifies this
      ensures Current() == State(Swept(old(buckets), now - 2 * window), now)
    {
      var cutoff := now - window * 2;
      var keys := buckets.Keys;
      while keys != {}
        invariant keys <= old(buckets).Keys && lastSweep == old(lastSweep)
        invariant forall k :: k in buckets <==> k in old(buckets) && (k in keys || !Idle(old(buckets)[k], cutoff))
        invariant forall k :: k in buckets ==> buckets[k] == old(buckets)[k]
        decreases |keys|
      {
        var k :| k in keys;
        if |buckets[k]| == 0 || buckets[k][|buckets[k]| - 1] < cutoff {
          buckets := buckets - {k};
        }
        keys := keys - {k};
      }
      lastSweep := now;
      assert buckets == Swept(old(buckets), cutoff);
    }

    method Allow(c: Call) returns (ok: bool)
      modifies this
      ensures ok == Allows(old(Current()), c) && Current() == After(old(Current()), c)
    {
      if c.limit <= 0 {
        return true;
      }
      if c.now - lastSweep > SWEEP_INTERVAL {
        Sweep(c.now, c.window);
      }
      var cutoff := c.now - c.window;
      var times := Times(buckets, c.key);
      var idx := 0;
      while idx < |times| && times[idx] < cutoff
        invariant idx <= |times| && Recent(times[idx..], cutoff) == Recent(times, cutoff)
      {
        assert times[idx..][1..] == times[idx + 1..];
        idx := idx + 1;
      }
      times := times[idx..];
      if |times| >= c.limit {
        buckets := buckets[c.key := times];
        return false;
      }
      buckets := buckets[c.key := times + [c.now]];
      ok := true;
    }
  }

  // ---- The history it must agree with ----

  /** Everything accepted under a limit, key by key, oldest first. */
  type History = map<string, seq<Time>>

  function CountIn(times: seq<Time>, from: Time, to: Time): nat {
    if times == [] then 0
    else CountIn(times[..|times| - 1], from, to) + if from <= times[|times| - 1] <= to then 1 else 0
  }

  predicate HistoryAllows(h: History, c: Call) { c.limit <= 0 || CountIn(Times(h, c.key), c.now - c.window, c.now) < c.limit }

  function Recorded(h: History, c: Call, accepted: bool): History {
    if accepted && c.limit > 0 then h[c.key := Times(h, c.key) + [c.now]] else h
  }

  datatype World = World(s: State, h: History, now: Time)

  function Next(w: World, c: Call): World { World(After(w.s, c), Recorded(w.h, c, Allows(w.s, c)), c.now) }

  function Run(w: World, calls: seq<Call>): World {
    if calls == [] then w else Next(Run(w, calls[..|calls| - 1]), calls[|calls| - 1])
  }

  predicate Ordered(start: Time, calls: seq<Call>) {
    && (forall i :: 0 <= i < |calls| ==> start <= calls[i].now)
    && forall i, j :: 0 <= i < j < |calls| ==> calls[i].now <= calls[j].now
  }

  // ---- Counting ----

  predicate Sorted(times: seq<Time>) { forall i, j :: 0 <= i <= j < |times| ==> times[i] <= times[j] }

  predicate AllUpTo(times: seq<Time>, now: Time) { forall i :: 0 <= i < |times| ==> times[i] <= now }

  lemma CountAppend(times: seq<Time>, t: Time, from: Time, to: Time)
    ensures CountIn(times + [t], from, to) == CountIn(times, from, to) + if from <= t <= to then 1 else 0
  {
    assert (times + [t])[..|times|] == times;
  }

  lemma {:induction false} CountConcat(x: seq<Time>, y: seq<Time>, from: Time, to: Time)
    ensures CountIn(x + y, from, to) == CountIn(x, from, to) + CountIn(y, from, to)
  {
    if y == [] {
      assert x + y == x;
    } else {
      assert x + y == (x + y[..|y| - 1]) + [y[|y| - 1]];
      CountConcat(x, y[..|y| - 1], from, to);
      CountAppend(x + y[..|y| - 1], y[|y| - 1], from, to);
    }
  }

  lemma {:induction false} CountNone(times: seq<Time>, from: Time, to: Time)
    requires forall i :: 0 <= i < |times| ==> times[i] < from
    ensures CountIn(times, from, to) == 0
  {
    if times != [] {
      CountNone(times[..|times| - 1], from, to);
    }
  }

  lemma {:induction false} CountAll(times: seq<Time>, from: Time, to: Time)
    requires forall i :: 0 <= i < |times| ==> from <= times[i] <= to
    ensures CountIn(times, from, to) == |times|
  {
    if times != [] {
      CountAll(times[..|times| - 1], from, to);
    }
  }

  lemma {:induction false} CountMonotone(times: seq<Time>, a: Time, b: Time, c: Time, d: Time)
    requires c <= a && b <= d
    ensures CountIn(times, a, b) <= CountIn(times, c, d)
  {
    if times != [] {
      CountMonotone(times[..|times| - 1], a, b, c, d);
    }
  }

  lemma {:induction false} RecentIsSuffix(times: seq<Time>, cutoff: Time)
    requires Sorted(times)
    ensures var r := Recent(times, cutoff);
      && |r| <= |times| && r == times[|times| - |r|..]
      && (forall i :: 0 <= i < |times| - |r| ==> times[i] < cutoff)
      && (forall i :: |times| - |r| <= i < |times| ==> times[i] >= cutoff)
  {
    if times != [] && times[0] < cutoff {
      RecentIsSuffix(times[1..], cutoff);
      var r := Recent(times, cutoff);
      assert times[1..][|times| - 1 - |r|..] == times[|times| - |r|..];
      forall i | 0 <= i < |times| - |r|
        ensures times[i] < cutoff
      {
        assert i > 0 ==> times[i] == times[1..][i - 1];
      }
      forall i | |times| - |r| <= i < |times|
        ensures times[i] >= cutoff
      {
        assert times[i] == times[1..][i - 1];
      }
    }
  }

  // ---- What the buckets know of the history ----

  /** The bucket is the end of the key's history, and what it lost is older than the key's window. */
  predicate Remembers(bucket: seq<Time>, past: seq<Time>, now: Time, window: Time) {
    && |bucket| <= |past| && bucket == past[|past| - |bucket|..]
    && Sorted(past) && AllUpTo(past, now)
    && forall i :: 0 <= i < |past| - |bucket| ==> past[i] < now - window
  }

  predicate Agrees(w: World, windows: map<string, Time>) {
    forall k :: k in windows ==> Remembers(Times(w.s.buckets, k), Times(w.h, k), w.now, windows[k])
  }

  /** The condition under which sweeping loses nothing that still counts. */
  predicate SweepSafe(windows: map<string, Time>, window: Time) { forall k :: k in windows ==> windows[k] <= 2 * window }

  lemma SweptRemembers(bucket: seq<Time>, past: seq<Time>, now: Time, window: Time, later: Time, due: bool, cutoff: Time)
    requires Remembers(bucket, past, now, window) && now <= later && cutoff <= later - window
    ensures Remembers(if due && Idle(bucket, cutoff) then [] else bucket, past, later, window)
  {
    if due && Idle(bucket, cutoff) && bucket != [] {
      assert past[|past| - 1] == bucket[|bucket| - 1];
    }
  }

  lemma RecentRemembers(bucket: seq<Time>, past: seq<Time>, now: Time, window: Time)
    requires Remembers(bucket, past, now, window)
    ensures var r := Recent(bucket, now - window);
      && Remembers(r, past, now, window)
      && forall i :: |past| - |r| <= i < |past| ==> now - window <= past[i]
  {
    var d := |past| - |bucket|;
    assert forall i :: 0 <= i < |bucket| ==> bucket[i] == past[d + i];
    RecentIsSuffix(bucket, now - window);
    var r := Recent(bucket, now - window);
    var e := |past| - |r|;
    assert r == past[e..];
    forall i | 0 <= i < |past|
      ensures if i < e then past[i] < now - window else past[i] >= now - window
    {
      assert i >= d ==> past[i] == bucket[i - d];
    }
  }

  /** Of a history split where the window begins, the second part counts. */
  lemma CountSplit(past: seq<Time>, e: nat, from: Time, to: Time)
    requires e <= |past| && forall i :: 0 <= i < e ==> past[i] < from
    requires forall i :: e <= i < |past| ==> from <= past[i] <= to
    ensures CountIn(past, from, to) == |past| - e
  {
    assert past == past[..e] + past[e..];
    CountConcat(past[..e], past[e..], from, to);
    CountNone(past[..e], from, to);
    CountAll(past[e..], from, to);
  }

  lemma CheckIsHistory(bucket: seq<Time>, past: seq<Time>, now: Time, window: Time)
    requires Remembers(bucket, past, now, window)
    ensures |Recent(bucket, now - window)| == CountIn(past, now - window, now)
  {
    RecentRemembers(bucket, past, now, window);
    CountSplit(past, |past| - |Recent(bucket, now - window)|, now - window, now);
  }

  lemma RemembersOneMore(bucket: seq<Time>, past: seq<Time>, now: Time, window: Time)
    requires Remembers(bucket, past, now, window)
    ensures Remembers(bucket + [now], past + [now], now, window)
  {
  }

  predicate Due(s: State, c: Call) { c.now - s.lastSweep > SWEEP_INTERVAL }

  lemma RecordedTimes(h: History, c: Call, accepted: bool, k: string)
    ensures Times(Recorded(h, c, accepted), k) == if accepted && c.limit > 0 && k == c.key then Times(h, k) + [c.now] else Times(h, k)
  {
  }

  lemma CheckTimes(s: State, c: Call, k: string)
    ensures Times(BeforeCheck(s, c).buckets, k)
      == if Due(s, c) && Idle(Times(s.buckets, k), c.now - 2 * c.window) then [] else Times(s.buckets, k)
  {
  }

  lemma AfterTimes(s: State, c: Call, k: string)
    ensures var checked := Times(BeforeCheck(s, c).buckets, k); var kept := Recent(checked, c.now - c.window);
      Times(After(s, c).buckets, k) ==
        if c.limit <= 0 then Times(s.buckets, k) else if k != c.key then checked else if |kept| < c.limit then kept + [c.now] else kept
  {
  }

  predicate Fits(w: World, c: Call, windows: map<string, Time>) {
    c.now >= w.now && SweepSafe(windows, c.window) && c.key in windows && windows[c.key] == c.window
  }

  lemma CheckRemembers(w: World, c: Call, windows: map<string, Time>, k: string)
    requires Fits(w, c, windows) && k in windows && Remembers(Times(w.s.buckets, k), Times(w.h, k), w.now, windows[k])
    ensures Remembers(Times(BeforeCheck(w.s, c).buckets, k), Times(w.h, k), c.now, windows[k])
  {
    assert windows[k] <= 2 * c.window;
    SweptRemembers(Times(w.s.buckets, k), Times(w.h, k), w.now, windows[k], c.now, Due(w.s, c), c.now - 2 * c.window);
    CheckTimes(w.s, c, k);
  }

  lemma AnswerIsHistory(w: World, c: Call, windows: map<string, Time>)
    requires Agrees(w, windows) && Fits(w, c, windows)
    ensures Allows(w.s, c) == HistoryAllows(w.h, c)
  {
    CheckRemembers(w, c, windows, c.key);
    CheckIsHistory(Times(BeforeCheck(w.s, c).buckets, c.key), Times(w.h, c.key), c.now, c.window);
  }

  lemma CallerTimes(w: World, c: Call)
    requires c.limit > 0
    ensures var kept, past := Recent(Times(BeforeCheck(w.s, c).buckets, c.key), c.now - c.window), Times(w.h, c.key);
      && Times(Next(w, c).s.buckets, c.key) == (if Allows(w.s, c) then kept + [c.now] else kept)
      && Times(Next(w, c).h, c.key) == if Allows(w.s, c) then past + [c.now] else past
  {
    AfterTimes(w.s, c, c.key);
    RecordedTimes(w.h, c, Allows(w.s, c), c.key);
  }

  lemma CallerRemembers(w: World, c: Call)
    requires c.limit > 0 && Remembers(Times(BeforeCheck(w.s, c).buckets, c.key), Times(w.h, c.key), c.now, c.window)
    ensures Remembers(Times(Next(w, c).s.buckets, c.key), Times(Next(w, c).h, c.key), c.now, c.window)
  {
    var checked, past := Times(BeforeCheck(w.s, c).buckets, c.key), Times(w.h, c.key);
    CallerTimes(w, c);
    RecentRemembers(checked, past, c.now, c.window);
    RemembersOneMore(Recent(checked, c.now - c.window), past, c.now, c.window);
  }

  lemma OtherRemembers(w: World, c: Call, windows: map<string, Time>, k: string)
    requires Agrees(w, windows) && Fits(w, c, windows) && k in windows && (c.limit <= 0 || k != c.key)
    ensures Remembers(Times(Next(w, c).s.buckets, k), Times(Next(w, c).h, k), c.now, windows[k])
  {
    assert Remembers(Times(w.s.buckets, k), Times(w.h, k), w.now, windows[k]);
    CheckRemembers(w, c, windows, k);
    AfterTimes(w.s, c, k);
  }

  /** One call: the answer is the history's, and every bucket goes on remembering enough. */
  lemma CallAgrees(w: World, c: Call, windows: map<string, Time>)
    requires Agrees(w, windows) && Fits(w, c, windows)
    ensures Allows(w.s, c) == HistoryAllows(w.h, c) && Agrees(Next(w, c), windows)
  {
    AnswerIsHistory(w, c, windows);
    forall k | k in windows
      ensures Remembers(Times(Next(w, c).s.buckets, k), Times(Next(w, c).h, k), c.now, windows[k])
    {
      if c.limit > 0 && k == c.key {
        CheckRemembers(w, c, windows, k);
        CallerRemembers(w, c);
      } else {
        OtherRemembers(w, c, windows, k);
      }
    }
  }

  /** Every call uses its key's window, and no window is more than twice another. */
  predicate WellUsed(calls: seq<Call>, windows: map<string, Time>) {
    forall i :: 0 <= i < |calls| ==> calls[i].key in windows && windows[calls[i].key] == calls[i].window && SweepSafe(windows, calls[i].window)
  }

  function Fresh(start: Time): World { World(State(map[], start), map[], start) }

  lemma {:induction false} RunAgrees(start: Time, calls: seq<Call>, windows: map<string, Time>)
    requires Ordered(start, calls) && WellUsed(calls, windows)
    ensures Agrees(Run(Fresh(start), calls), windows)
    ensures Run(Fresh(start), calls).now == if calls == [] then start else calls[|calls| - 1].now
  {
    if calls != [] {
      var front := calls[..|calls| - 1];
      assert forall i :: 0 <= i < |front| ==> front[i] == calls[i];
      RunAgrees(start, front, windows);
      assert calls[|calls| - 1].now >= Run(Fresh(start), front).now;
      CallAgrees(Run(Fresh(start), front), calls[|calls| - 1], windows);
    }
  }

  /** In every run, a call is accepted exactly when fewer than its limit of accepted calls lie in the window that ends now. */
  lemma AllowIsHistory(start: Time, calls: seq<Call>, c: Call, windows: map<string, Time>)
    requires Ordered(start, calls + [c]) && WellUsed(calls + [c], windows)
    ensures var w := Run(Fresh(start), calls); Allows(w.s, c) == HistoryAllows(w.h, c)
  {
    var all := calls + [c];
    assert forall i :: 0 <= i < |calls| ==> calls[i] == all[i];
    assert all[|calls|] == c;
    RunAgrees(start, calls, windows);
    CallAgrees(Run(Fresh(start), calls), c, windows);
  }

  /** For a key with one limit and one window. */
  predicate Steady(calls: seq<Call>, key: string, limit: int) {
    limit > 0 && forall i :: 0 <= i < |calls| && calls[i].key == key ==> calls[i].limit == limit
  }

  lemma {:induction false} CountUpTo(times: seq<Time>, from: Time, to: Time, now: Time)
    requires AllUpTo(times, now) && now <= to
    ensures CountIn(times, from, to) == CountIn(times, from, now)
  {
    if times != [] {
      CountUpTo(times[..|times| - 1], from, to, now);
    }
  }

  lemma OneMoreIsNoBurst(past: seq<Time>, now: Time, window: Time, limit: int, t: Time)
    requires AllUpTo(past, now) && CountIn(past, now - window, now) < limit && CountIn(past, t, t + window) <= limit
    ensures CountIn(past + [now], t, t + window) <= limit
  {
    CountAppend(past, now, t, t + window);
    if t <= now <= t + window {
      CountUpTo(past, t, t + window, now);
      CountMonotone(past, t, now, now - window, now);
    }
  }

  lemma HistoryIsPast(w: World, windows: map<string, Time>, key: string)
    requires Agrees(w, windows) && key in windows
    ensures AllUpTo(Times(w.h, key), w.now)
  {
    assert Remembers(Times(w.s.buckets, key), Times(w.h, key), w.now, windows[key]);
  }

  lemma CallKeepsNoBurst(w: World, c: Call, key: string, window: Time, limit: int, t: Time)
    requires AllUpTo(Times(w.h, key), c.now) && Allows(w.s, c) == HistoryAllows(w.h, c)
    requires c.key == key ==> c.limit == limit > 0 && c.window == window
    requires CountIn(Times(w.h, key), t, t + window) <= limit
    ensures CountIn(Times(Next(w, c).h, key), t, t + window) <= limit
  {
    RecordedTimes(w.h, c, Allows(w.s, c), key);
    if c.key == key && Allows(w.s, c) {
      OneMoreIsNoBurst(Times(w.h, key), c.now, window, limit, t);
    }
  }

  lemma LastCall(start: Time, calls: seq<Call>, c: Call, windows: map<string, Time>, key: string)
    requires Ordered(start, calls + [c]) && WellUsed(calls + [c], windows) && key in windows
    ensures var w := Run(Fresh(start), calls);
      AllUpTo(Times(w.h, key), c.now) && Allows(w.s, c) == HistoryAllows(w.h, c)
  {
    var all := calls + [c];
    assert forall i :: 0 <= i < |calls| ==> calls[i] == all[i];
    assert all[|calls|] == c;
    AllowIsHistory(start, calls, c, windows);
    RunAgrees(start, calls, windows);
    HistoryIsPast(Run(Fresh(start), calls), windows, key);
  }

  /** A run but for its last call. */
  lemma FrontCalls(start: Time, calls: seq<Call>, windows: map<string, Time>, key: string, limit: int)
    requires calls != [] && Ordered(start, calls) && WellUsed(calls, windows) && Steady(calls, key, limit)
    ensures var front, c := calls[..|calls| - 1], calls[|calls| - 1];
      && calls == front + [c] && Ordered(start, front) && WellUsed(front, windows) && Steady(front, key, limit)
      && c.key in windows && windows[c.key] == c.window && (c.key == key ==> c.limit == limit > 0)
  {
  }

  /** No closed interval of the window's length ever holds more than the limit. */
  lemma {:induction false} NoBurst(start: Time, calls: seq<Call>, windows: map<string, Time>, key: string, limit: int, t: Time)
    requires Ordered(start, calls) && WellUsed(calls, windows) && key in windows && Steady(calls, key, limit)
    ensures CountIn(Times(Run(Fresh(start), calls).h, key), t, t + windows[key]) <= limit
  {
    if calls != [] {
      var front, c := calls[..|calls| - 1], calls[|calls| - 1];
      FrontCalls(start, calls, windows, key, limit);
      NoBurst(start, front, windows, key, limit, t);
      LastCall(start, front, c, windows, key);
      CallKeepsNoBurst(Run(Fresh(start), front), c, key, windows[key], limit, t);
    }
  }

  // ---- The sweep uses the caller's window ----

  /** One key with a long window, and calls for other keys with a short one. */
  ghost predicate AnswersAreHistory(long: Time, short: Time) {
    forall start: Time, calls: seq<Call>, c: Call ::
      Ordered(start, calls + [c]) && WellUsedBy(calls + [c], long, short) ==>
        Allows(Run(Fresh(start), calls).s, c) == HistoryAllows(Run(Fresh(start), calls).h, c)
  }

  predicate WellUsedBy(calls: seq<Call>, long: Time, short: Time) {
    forall i :: 0 <= i < |calls| ==> (calls[i].key == "long" && calls[i].window == long) || (calls[i].key == "short" && calls[i].window == short)
  }

  function LongCall(long: Time, now: Time): Call { Call("long", 1, long, now) }

  function ShortCall(short: Time): Call { Call("short", 1, short, SWEEP_INTERVAL + 2 * short + 1) }

  lemma FirstCall(long: Time)
    ensures var w := Next(Fresh(0), LongCall(long, SWEEP_INTERVAL));
      w.s.buckets == map["long" := [SWEEP_INTERVAL]] && w.s.lastSweep == 0 && w.h == map["long" := [SWEEP_INTERVAL]]
  {
    assert [] + [SWEEP_INTERVAL] == [SWEEP_INTERVAL];
  }

  lemma SweepingCall(w: World, short: Time)
    requires 0 <= short && w.s.buckets == map["long" := [SWEEP_INTERVAL]] && w.s.lastSweep == 0 && w.h == map["long" := [SWEEP_INTERVAL]]
    ensures var n := Next(w, ShortCall(short));
      Times(n.s.buckets, "long") == [] && n.s.lastSweep == ShortCall(short).now && Times(n.h, "long") == [SWEEP_INTERVAL]
  {
    var c := ShortCall(short);
    assert c.key != "long" by {
      assert |c.key| == 5 && |"long"| == 4;
    }
    CheckTimes(w.s, c, "long");
    AfterTimes(w.s, c, "long");
    RecordedTimes(w.h, c, Allows(w.s, c), "long");
  }

  /** Accept the long key once, let a short call sweep it away, and it is accepted again inside its window. */
  lemma SweepForgets(long: Time, short: Time)
    requires 0 <= short && 2 * short < long
    ensures !AnswersAreHistory(long, short)
  {
    var c0, c1, c2 := LongCall(long, SWEEP_INTERVAL), ShortCall(short), LongCall(long, ShortCall(short).now);
    var w1 := Next(Fresh(0), c0);
    var w2 := Next(w1, c1);
    FirstCall(long);
    SweepingCall(w1, short);
    CheckTimes(w2.s, c2, "long");
    assert Allows(w2.s, c2);
    CountAppend([], SWEEP_INTERVAL, c2.now - long, c2.now);
    assert [] + [SWEEP_INTERVAL] == [SWEEP_INTERVAL];
    assert !HistoryAllows(w2.h, c2);
    var calls := [c0, c1];
    assert calls[..1] == [c0] && [c0][..0] == [];
    assert Run(Fresh(0), [c0]) == Next(Run(Fresh(0), []), c0) == w1;
    assert Run(Fresh(0), calls) == w2;
    assert Ordered(0, calls + [c2]) && WellUsedBy(calls + [c2], long, short);
  }

  /** Sharing a limiter between two windows keeps every answer right exactly when neither is more than twice the other. */
  lemma SharingIsSafeIff(long: Time, short: Time)
    requires 0 <= short <= long
    ensures AnswersAreHistory(long, short) <==> long <= 2 * short
  {
    if long <= 2 * short {
      var windows := map["long" := long, "short" := short];
      forall start: Time, calls: seq<Call>, c: Call | Ordered(start, calls + [c]) && WellUsedBy(calls + [c], long, short)
        ensures Allows(Run(Fresh(start), calls).s, c) == HistoryAllows(Run(Fresh(start), calls).h, c)
      {
        assert WellUsed(calls + [c], windows);
        AllowIsHistory(start, calls, c, windows);
      }
    } else {
      SweepForgets(long, short);
    }
  }
}
