/** The concurrency gate: its counters are the requests in flight, and its limits hold. */
module Gate {
  import opened Outcomes

  datatype Reason = UserQuota | GlobalLimit | LargeQuota

  datatype Counters = Counters(count: nat, largeCount: nat, userCount: map<int, nat>)

  function CountOf(m: map<int, nat>, u: int): nat { if u in m then m[u] else 0 }

  datatype Limits = Limits(user: int, total: int, large: int)

  function Refusal(g: Counters, userId: int, limits: Limits, large: bool): Option<Reason> {
    if limits.user > 0 && CountOf(g.userCount, userId) >= limits.user then Some(UserQuota)
    else if limits.total > 0 && g.count >= limits.total then Some(GlobalLimit)
    else if large && limits.large > 0 && g.largeCount >= limits.large then Some(LargeQuota)
    else None
  }

  function Acquired(g: Counters, userId: int, large: bool): Counters {
    Counters(g.count + 1, if large then g.largeCount + 1 else g.largeCount, g.userCount[userId := CountOf(g.userCount, userId) + 1])
  }

  function Released(g: Counters, userId: int, large: bool): Counters {
    Counters(if g.count > 0 then g.count - 1 else 0,
             if large && g.largeCount > 0 then g.largeCount - 1 else g.largeCount,
             if CountOf(g.userCount, userId) == 0 then g.userCount
             else if g.userCount[userId] == 1 then g.userCount - {userId}
             else g.userCount[userId := g.userCount[userId] - 1])
  }

  class ConcurrencyGate {
    var count: nat
    var largeCount: nat
    var userCount: map<int, nat>

    constructor ()
      ensures Current() == Counters(0, 0, map[])
    {
      count, largeCount, userCount := 0, 0, map[];
    }

    function Current(): Counters reads this { Counters(count, largeCount, userCount) }

    method Acquire(userId: int, limits: Limits, large: bool) returns (refusal: Option<Reason>)
      modifies this
      ensures refusal == Refusal(old(Current()), userId, limits, large)
      ensures Current() == if refusal.None? then Acquired(old(Current()), userId, large) else old(Current())
    {
      if limits.user > 0 && CountOf(userCount, userId) >= limits.user {
        return Some(UserQuota);
      }
      if limits.total > 0 && count >= limits.total {
        return Some(GlobalLimit);
      }
      if large && limits.large > 0 && largeCount >= limits.large {
        return Some(LargeQuota);
      }
      count := count + 1;
      userCount := userCount[userId := CountOf(userCount, userId) + 1];
      if large {
        largeCount := largeCount + 1;
      }
      refusal := None;
    }

    method Release(userId: int, large: bool)
      modifies this
      ensures Current() == Released(old(Current()), userId, large)
    {
      if count > 0 {
        count := count - 1;
      }
      if CountOf(userCount, userId) > 0 {
        userCount := userCount[userId := userCount[userId] - 1];
        if userCount[userId] == 0 {
          userCount := userCount - {userId};
        }
      }
      if large && largeCount > 0 {
        largeCount := largeCount - 1;
      }
    }
  }

  // ---- Against the requests in flight ----

  datatype Hold = Hold(userId: int, large: bool)

  function OfUser(holds: seq<Hold>, u: int): nat {
    if holds == [] then 0 else OfUser(holds[..|holds| - 1], u) + if holds[|holds| - 1].userId == u then 1 else 0
  }

  function Large(holds: seq<Hold>): nat {
    if holds == [] then 0 else Large(holds[..|holds| - 1]) + if holds[|holds| - 1].large then 1 else 0
  }

  /** Each counter is the number of matching requests in flight; a user without any has no row. */
  ghost predicate Mirrors(g: Counters, holds: seq<Hold>) {
    && g.count == |holds| && g.largeCount == Large(holds)
    && forall u :: CountOf(g.userCount, u) == OfUser(holds, u) && (u in g.userCount ==> g.userCount[u] > 0)
  }

  datatype Event = Enter(hold: Hold, limits: Limits) | Leave(i: nat)

  datatype State = State(g: Counters, holds: seq<Hold>)

  /** A request leaves once, with the values it entered with. */
  predicate Enabled(s: State, e: Event) { e.Leave? ==> e.i < |s.holds| }

  function Next(s: State, e: Event): State
    requires Enabled(s, e)
  {
    match e
    case Enter(h, limits) =>
      if Refusal(s.g, h.userId, limits, h.large).Some? then s else State(Acquired(s.g, h.userId, h.large), s.holds + [h])
    case Leave(i) => State(Released(s.g, s.holds[i].userId, s.holds[i].large), s.holds[..i] + s.holds[i + 1..])
  }

  function Run(events: seq<Event>): Option<State> {
    if events == [] then Some(State(Counters(0, 0, map[]), []))
    else
      var before := Run(events[..|events| - 1]);
      if before.Some? && Enabled(before.value, events[|events| - 1]) then Some(Next(before.value, events[|events| - 1])) else None
  }

  lemma CountAppend(holds: seq<Hold>, h: Hold, u: int)
    ensures OfUser(holds + [h], u) == OfUser(holds, u) + if h.userId == u then 1 else 0
    ensures Large(holds + [h]) == Large(holds) + if h.large then 1 else 0
  {
    assert (holds + [h])[..|holds|] == holds;
  }

  lemma {:induction false} CountRemove(holds: seq<Hold>, i: nat, u: int)
    requires i < |holds|
    ensures OfUser(holds, u) == OfUser(holds[..i] + holds[i + 1..], u) + if holds[i].userId == u then 1 else 0
    ensures Large(holds) == Large(holds[..i] + holds[i + 1..]) + if holds[i].large then 1 else 0
  {
    var n := |holds| - 1;
    if i == n {
      assert holds[..i] + holds[i + 1..] == holds[..n];
    } else {
      CountRemove(holds[..n], i, u);
      assert holds[..i] + holds[i + 1..] == (holds[..n][..i] + holds[..n][i + 1..]) + [holds[n]];
      CountAppend(holds[..n][..i] + holds[..n][i + 1..], holds[n], u);
    }
  }

  lemma EnterMirrors(s: State, h: Hold, limits: Limits)
    requires Mirrors(s.g, s.holds)
    ensures Mirrors(Next(s, Enter(h, limits)).g, Next(s, Enter(h, limits)).holds)
  {
    var n := Next(s, Enter(h, limits));
    if n != s {
      CountAppend(s.holds, h, h.userId);
      forall u
        ensures CountOf(n.g.userCount, u) == OfUser(n.holds, u) && (u in n.g.userCount ==> n.g.userCount[u] > 0)
      {
        CountAppend(s.holds, h, u);
        assert CountOf(s.g.userCount, u) == OfUser(s.holds, u);
      }
    }
  }

  /** A matched release decrements every counter it should: no saturation fires. */
  lemma LeaveMirrors(s: State, i: nat)
    requires Mirrors(s.g, s.holds) && i < |s.holds|
    ensures s.g.count > 0 && CountOf(s.g.userCount, s.holds[i].userId) > 0 && (s.holds[i].large ==> s.g.largeCount > 0)
    ensures Mirrors(Next(s, Leave(i)).g, Next(s, Leave(i)).holds)
  {
    var n, h := Next(s, Leave(i)), s.holds[i];
    CountRemove(s.holds, i, h.userId);
    assert CountOf(s.g.userCount, h.userId) == OfUser(s.holds, h.userId);
    forall u
      ensures CountOf(n.g.userCount, u) == OfUser(n.holds, u) && (u in n.g.userCount ==> n.g.userCount[u] > 0)
    {
      CountRemove(s.holds, i, u);
      assert CountOf(s.g.userCount, u) == OfUser(s.holds, u);
    }
  }

  /** In every run of matched entries and exits the counters are the requests in flight. */
  lemma {:induction false} CountersAreRequestsInFlight(events: seq<Event>)
    requires Run(events).Some?
    ensures Mirrors(Run(events).value.g, Run(events).value.holds)
  {
    if events != [] {
      CountersAreRequestsInFlight(events[..|events| - 1]);
      var s := Run(events[..|events| - 1]).value;
      match events[|events| - 1] {
        case Enter(h, limits) => EnterMirrors(s, h, limits);
        case Leave(i) => LeaveMirrors(s, i);
      }
    } else {
      forall u
        ensures OfUser([], u) == 0
      {
      }
    }
  }

  predicate UnderLimits(holds: seq<Hold>, limits: Limits, u: int) {
    && (limits.total > 0 ==> |holds| <= limits.total)
    && (limits.user > 0 ==> OfUser(holds, u) <= limits.user)
    && (limits.large > 0 ==> Large(holds) <= limits.large)
  }

  lemma EnterHolds(s: State, h: Hold, limits: Limits, u: int)
    requires Mirrors(s.g, s.holds) && UnderLimits(s.holds, limits, u)
    ensures UnderLimits(Next(s, Enter(h, limits)).holds, limits, u)
  {
    CountAppend(s.holds, h, u);
    assert CountOf(s.g.userCount, u) == OfUser(s.holds, u);
  }

  lemma LeaveHolds(s: State, i: nat, limits: Limits, u: int)
    requires i < |s.holds| && UnderLimits(s.holds, limits, u)
    ensures UnderLimits(Next(s, Leave(i)).holds, limits, u)
  {
    CountRemove(s.holds, i, u);
  }

  predicate AllUnder(events: seq<Event>, limits: Limits) { forall i :: 0 <= i < |events| && events[i].Enter? ==> events[i].limits == limits }

  /** With fixed limits, no reachable state has more requests in flight than any of them allows. */
  lemma {:induction false} LimitsHold(events: seq<Event>, limits: Limits, u: int)
    requires Run(events).Some? && AllUnder(events, limits)
    ensures UnderLimits(Run(events).value.holds, limits, u)
  {
    if events != [] {
      var front := events[..|events| - 1];
      assert AllUnder(front, limits) by {
        assert forall i :: 0 <= i < |front| ==> front[i] == events[i];
      }
      LimitsHold(front, limits, u);
      match events[|events| - 1] {
        case Enter(h, _) =>
          CountersAreRequestsInFlight(front);
          EnterHolds(Run(front).value, h, limits, u);
        case Leave(i) => LeaveHolds(Run(front).value, i, limits, u);
      }
    }
  }

  /** An empty place for one more request in each layer; a limit of zero or less is none. */
  predicate Room(inFlight: nat, limit: int) { limit > 0 ==> inFlight < limit }

  /** In every run a request is let in exactly when each of its layers has room, and is told the first that has none. */
  lemma AdmittedIff(events: seq<Event>, u: int, limits: Limits, large: bool)
    requires Run(events).Some?
    ensures var holds, refusal := Run(events).value.holds, Refusal(Run(events).value.g, u, limits, large);
      && (refusal == None <==> Room(OfUser(holds, u), limits.user) && Room(|holds|, limits.total) && (large ==> Room(Large(holds), limits.large)))
      && (refusal == Some(UserQuota) <==> limits.user > 0 && OfUser(holds, u) >= limits.user)
      && (refusal == Some(GlobalLimit) <==> Room(OfUser(holds, u), limits.user) && limits.total > 0 && |holds| >= limits.total)
      && (refusal == Some(LargeQuota) <==>
            Room(OfUser(holds, u), limits.user) && Room(|holds|, limits.total) && large && limits.large > 0 && Large(holds) >= limits.large)
  {
    CountersAreRequestsInFlight(events);
    assert CountOf(Run(events).value.g.userCount, u) == OfUser(Run(events).value.holds, u);
  }
}
