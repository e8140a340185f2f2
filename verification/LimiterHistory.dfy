/** The limiter's answers in terms of the calls alone: which of them were accepted, and when. */
module LimiterHistory {
  import opened Limiter

  /** The limiter said yes to the call at this place of the run, and counted it. */
  predicate Accepted(start: Time, calls: seq<Call>, i: nat)
    requires i < |calls|
  {
    calls[i].limit > 0 && Allows(Run(Fresh(start), calls[..i]).s, calls[i])
  }

  /** The places of a key's accepted calls in a closed interval of time. */
  function AcceptedIn(start: Time, calls: seq<Call>, key: string, from: Time, to: Time): set<nat> {
    set i: nat | 0 <= i < |calls| && calls[i].key == key && Accepted(start, calls, i) && from <= calls[i].now <= to
  }

  lemma AcceptedStays(start: Time, calls: seq<Call>, c: Call, i: nat)
    requires i < |calls|
    ensures Accepted(start, calls + [c], i) == Accepted(start, calls, i)
  {
    assert (calls + [c])[..i] == calls[..i];
  }

  lemma AcceptedAppend(start: Time, calls: seq<Call>, c: Call, key: string, from: Time, to: Time)
    ensures AcceptedIn(start, calls + [c], key, from, to) == AcceptedIn(start, calls, key, from, to)
      + if c.key == key && c.limit > 0 && Allows(Run(Fresh(start), calls).s, c) && from <= c.now <= to then {|calls|} else {}
  {
    var all := calls + [c];
    assert all[..|calls|] == calls;
    forall i: nat | i < |calls|
      ensures Accepted(start, all, i) == Accepted(start, calls, i)
    {
      AcceptedStays(start, calls, c, i);
    }
  }

  /** The history's count is the number of accepted calls. */
  lemma {:induction false} CountIsAccepted(start: Time, calls: seq<Call>, key: string, from: Time, to: Time)
    ensures CountIn(Times(Run(Fresh(start), calls).h, key), from, to) == |AcceptedIn(start, calls, key, from, to)|
  {
    if calls != [] {
      var front, c := calls[..|calls| - 1], calls[|calls| - 1];
      var w := Run(Fresh(start), front);
      CountIsAccepted(start, front, key, from, to);
      RecordedTimes(w.h, c, Allows(w.s, c), key);
      CountAppend(Times(w.h, key), c.now, from, to);
      AcceptedAppend(start, front, c, key, from, to);
      assert calls == front + [c];
    }
  }

  /** A call is accepted exactly when it has no limit, or fewer accepted calls of its key than that lie in the window that ends now. */
  lemma AllowedIff(start: Time, calls: seq<Call>, c: Call, windows: map<string, Time>)
    requires Ordered(start, calls + [c]) && WellUsed(calls + [c], windows)
    ensures Allows(Run(Fresh(start), calls).s, c) <==> c.limit <= 0 || |AcceptedIn(start, calls, c.key, c.now - c.window, c.now)| < c.limit
  {
    var h := Run(Fresh(start), calls).h;
    assert Allows(Run(Fresh(start), calls).s, c) == HistoryAllows(h, c) by {
      AllowIsHistory(start, calls, c, windows);
    }
    CountIsAccepted(start, calls, c.key, c.now - c.window, c.now);
  }

  /** No closed interval of the window's length ever holds more accepted calls than the limit. */
  lemma NoBurstOfAccepted(start: Time, calls: seq<Call>, windows: map<string, Time>, key: string, limit: int, t: Time)
    requires Ordered(start, calls) && WellUsed(calls, windows) && key in windows && Steady(calls, key, limit)
    ensures |AcceptedIn(start, calls, key, t, t + windows[key])| <= limit
  {
    var to := t + windows[key];
    CountIsAccepted(start, calls, key, t, to);
    NoBurst(start, calls, windows, key, limit, t);
  }
}
