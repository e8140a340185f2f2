/**
  Choosing a channel: priority tiers, weighted draws inside a tier, and the binding of a
  conversation to the channel that served it.
 */
module Routing {
  import opened Outcomes

  datatype Channel = Channel(id: int, priority: int, weight: nat)

  /** The candidates as the query lists them, highest priority first. */
  predicate ByPriority(cs: seq<Channel>) { forall i, j :: 0 <= i <= j < |cs| ==> cs[i].priority >= cs[j].priority }

  predicate Available(cs: seq<Channel>, exclude: set<int>, k: int) { 0 <= k < |cs| && cs[k].id !in exclude }

  /** Among the highest available priority. */
  ghost predicate Top(cs: seq<Channel>, exclude: set<int>, k: int) {
    Available(cs, exclude, k) && forall j :: Available(cs, exclude, j) ==> cs[j].priority <= cs[k].priority
  }

  /** The tickets of the available channels of a priority among the first n: weight plus one each. */
  function Tickets(cs: seq<Channel>, exclude: set<int>, priority: int, n: nat): nat
    requires n <= |cs|
  {
    if n == 0 then 0
    else Tickets(cs, exclude, priority, n - 1) + if cs[n - 1].id !in exclude && cs[n - 1].priority == priority then cs[n - 1].weight + 1 else 0
  }

  /** The draw falls among the channel's own tickets. */
  predicate Drawn(cs: seq<Channel>, exclude: set<int>, k: int, draw: int)
    requires 0 <= k < |cs|
  {
    Tickets(cs, exclude, cs[k].priority, k) <= draw < Tickets(cs, exclude, cs[k].priority, k) + cs[k].weight + 1
  }

  /** The tickets of the first n channels of a tier. */
  function TierTickets(cs: seq<Channel>, tier: seq<nat>, n: nat): nat
    requires n <= |tier| && forall j :: 0 <= j < |tier| ==> tier[j] < |cs|
  {
    if n == 0 then 0 else TierTickets(cs, tier, n - 1) + cs[tier[n - 1]].weight + 1
  }

  lemma {:induction false} NoTicketsWithout(cs: seq<Channel>, exclude: set<int>, priority: int, m: nat, n: nat)
    requires m <= n <= |cs| && forall j :: m <= j < n ==> cs[j].id in exclude || cs[j].priority != priority
    ensures Tickets(cs, exclude, priority, n) == Tickets(cs, exclude, priority, m)
  {
    if m < n {
      NoTicketsWithout(cs, exclude, priority, m, n - 1);
    }
  }

  /** A draw below any bound: the uniform choice of the source is any value of this parameter. */
  type Draw = d: nat -> nat | forall n: nat :: n > 0 ==> d(n) < n witness n => 0

  predicate AllExcluded(cs: seq<Channel>, exclude: set<int>, m: nat, n: nat)
    requires n <= |cs|
  {
    forall j :: m <= j < n ==> cs[j].id in exclude
  }

  predicate SamePriority(cs: seq<Channel>, start: nat, i: nat)
    requires start < |cs| && i <= |cs|
  {
    forall j :: start <= j < i ==> cs[j].priority == cs[start].priority
  }

  /** The available channels from position start up to i, in order. */
  function TierOf(cs: seq<Channel>, exclude: set<int>, start: nat, i: nat): (tier: seq<nat>)
    requires i <= |cs|
    ensures forall j :: 0 <= j < |tier| ==> start <= tier[j] < i && cs[tier[j]].id !in exclude
    ensures tier == [] ==> AllExcluded(cs, exclude, start, i)
  {
    if i <= start then []
    else if cs[i - 1].id !in exclude then TierOf(cs, exclude, start, i - 1) + [i - 1]
    else TierOf(cs, exclude, start, i - 1)
  }

  lemma {:induction false} SameTickets(cs: seq<Channel>, tier: seq<nat>, longer: seq<nat>, n: nat)
    requires n <= |tier| && tier <= longer && forall j :: 0 <= j < |longer| ==> longer[j] < |cs|
    ensures TierTickets(cs, longer, n) == TierTickets(cs, tier, n)
  {
    if n > 0 {
      SameTickets(cs, tier, longer, n - 1);
    }
  }

  lemma NoTicketsBefore(cs: seq<Channel>, exclude: set<int>, priority: int, n: nat)
    requires n <= |cs| && AllExcluded(cs, exclude, 0, n)
    ensures Tickets(cs, exclude, priority, n) == 0
  {
    NoTicketsWithout(cs, exclude, priority, 0, n);
  }

  /** One channel more adds its tickets to both, or to neither. */
  lemma TicketsNext(cs: seq<Channel>, exclude: set<int>, start: nat, i: nat)
    requires start <= i < |cs| && cs[i].priority == cs[start].priority
    requires var tier := TierOf(cs, exclude, start, i); TierTickets(cs, tier, |tier|) == Tickets(cs, exclude, cs[start].priority, i)
    ensures var tier := TierOf(cs, exclude, start, i + 1); TierTickets(cs, tier, |tier|) == Tickets(cs, exclude, cs[start].priority, i + 1)
  {
    var tier := TierOf(cs, exclude, start, i);
    if cs[i].id !in exclude {
      SameTickets(cs, tier, tier + [i], |tier|);
    }
  }

  /** The tier's tickets are those of the whole list. */
  lemma {:induction false} TierTotal(cs: seq<Channel>, exclude: set<int>, start: nat, i: nat)
    requires start <= i <= |cs| && start < |cs| && SamePriority(cs, start, i) && AllExcluded(cs, exclude, 0, start)
    ensures var tier := TierOf(cs, exclude, start, i); TierTickets(cs, tier, |tier|) == Tickets(cs, exclude, cs[start].priority, i)
  {
    if i == start {
      NoTicketsBefore(cs, exclude, cs[start].priority, start);
    } else {
      TierTotal(cs, exclude, start, i - 1);
      TicketsNext(cs, exclude, start, i - 1);
    }
  }

  /** Before a channel of the tier lie as many of its tickets as of the list's. */
  lemma {:induction false} TierAt(cs: seq<Channel>, exclude: set<int>, start: nat, i: nat, t: nat)
    requires start <= i <= |cs| && start < |cs| && SamePriority(cs, start, i) && AllExcluded(cs, exclude, 0, start)
    requires t < |TierOf(cs, exclude, start, i)|
    ensures var tier := TierOf(cs, exclude, start, i);
      TierTickets(cs, tier, t) == Tickets(cs, exclude, cs[start].priority, tier[t])
  {
    var tier, before := TierOf(cs, exclude, start, i), TierOf(cs, exclude, start, i - 1);
    SameTickets(cs, before, tier, Min(t, |before|));
    if t < |before| {
      TierAt(cs, exclude, start, i - 1, t);
    } else {
      TierTotal(cs, exclude, start, i - 1);
    }
  }

  /** The available channels from position start on that share its priority, and the position after them. */
  method Tier(cs: seq<Channel>, exclude: set<int>, start: nat) returns (tier: seq<nat>, i: nat)
    requires start < |cs|
    ensures start < i <= |cs| && SamePriority(cs, start, i) && (i < |cs| ==> cs[i].priority != cs[start].priority)
    ensures tier == TierOf(cs, exclude, start, i)
  {
    tier, i := [], start;
    while i < |cs| && cs[i].priority == cs[start].priority
      invariant start <= i <= |cs| && SamePriority(cs, start, i) && tier == TierOf(cs, exclude, start, i)
    {
      if cs[i].id !in exclude {
        tier := tier + [i];
      }
      i := i + 1;
    }
  }

  method TotalWeight(cs: seq<Channel>, tier: seq<nat>) returns (total: nat)
    requires forall j :: 0 <= j < |tier| ==> tier[j] < |cs|
    ensures total == TierTickets(cs, tier, |tier|)
  {
    total := 0;
    for t := 0 to |tier|
      invariant total == TierTickets(cs, tier, t)
    {
      total := total + cs[tier[t]].weight + 1;
    }
  }

  /** The channel of the tier whose tickets the draw hits. */
  method PickFrom(cs: seq<Channel>, tier: seq<nat>, draw: nat) returns (t: nat)
    requires (forall j :: 0 <= j < |tier| ==> tier[j] < |cs|) && draw < TierTickets(cs, tier, |tier|)
    ensures t < |tier| && TierTickets(cs, tier, t) <= draw < TierTickets(cs, tier, t + 1)
  {
    var pick: int := draw;
    t := 0;
    while t < |tier|
      invariant t <= |tier| && pick == draw - TierTickets(cs, tier, t) && pick >= 0
    {
      pick := pick - (cs[tier[t]].weight + 1);
      if pick < 0 {
        return;
      }
      t := t + 1;
    }
    assert false;
  }

  lemma FirstTierIsTop(cs: seq<Channel>, exclude: set<int>, start: nat, k: nat)
    requires ByPriority(cs) && start <= k < |cs| && cs[k].id !in exclude && cs[k].priority == cs[start].priority
    requires forall j :: 0 <= j < start ==> cs[j].id in exclude
    ensures Top(cs, exclude, k)
  {
    forall j | Available(cs, exclude, j)
      ensures cs[j].priority <= cs[k].priority
    {
      assert j >= start;
    }
  }

  /** The channel of a tier, the first with an available one, that the draw hits. */
  method DrawFrom(cs: seq<Channel>, exclude: set<int>, start: nat, i: nat, tier: seq<nat>, intn: Draw) returns (k: nat)
    requires ByPriority(cs) && start < i <= |cs| && SamePriority(cs, start, i) && AllExcluded(cs, exclude, 0, start)
    requires (i < |cs| ==> cs[i].priority != cs[start].priority) && tier == TierOf(cs, exclude, start, i) && tier != []
    ensures k < |cs| && Top(cs, exclude, k)
    ensures var total := Tickets(cs, exclude, cs[k].priority, |cs|);
      total > 0 && Drawn(cs, exclude, k, intn(total))
  {
    var total := TotalWeight(cs, tier);
    TierTotal(cs, exclude, start, i);
    NoTicketsWithout(cs, exclude, cs[start].priority, i, |cs|);
    var t := PickFrom(cs, tier, intn(total));
    TierAt(cs, exclude, start, i, t);
    FirstTierIsTop(cs, exclude, start, tier[t]);
    k := tier[t];
  }

  /**
    The chosen channel is available and of the highest available priority, and within its
    tier it is the one whose tickets the draw hit; none is chosen exactly when all are excluded.
   */
  method SelectChannel(cs: seq<Channel>, exclude: set<int>, intn: Draw) returns (chosen: Option<nat>)
    requires ByPriority(cs)
    ensures chosen.None? <==> forall k :: 0 <= k < |cs| ==> cs[k].id in exclude
    ensures chosen.Some? ==> Top(cs, exclude, chosen.value)
    ensures chosen.Some? ==>
      var total := Tickets(cs, exclude, cs[chosen.value].priority, |cs|);
      total > 0 && Drawn(cs, exclude, chosen.value, intn(total))
  {
    var i := 0;
    while i < |cs|
      invariant i <= |cs| && AllExcluded(cs, exclude, 0, i)
    {
      var start := i;
      var tier;
      tier, i := Tier(cs, exclude, start);
      if |tier| == 0 {
        continue;
      }
      var k := DrawFrom(cs, exclude, start, i, tier, intn);
      return Some(k);
    }
    chosen := None;
  }

  // ---- Every ticket counts once ----

  lemma {:induction false} TicketsGrow(cs: seq<Channel>, exclude: set<int>, priority: int, m: nat, n: nat)
    requires m <= n <= |cs|
    ensures Tickets(cs, exclude, priority, m) <= Tickets(cs, exclude, priority, n)
  {
    if m < n {
      TicketsGrow(cs, exclude, priority, m, n - 1);
    }
  }

  /** No draw belongs to two channels of a tier. */
  lemma OneOwner(cs: seq<Channel>, exclude: set<int>, j: int, k: int, draw: int)
    requires Top(cs, exclude, j) && Top(cs, exclude, k) && Drawn(cs, exclude, j, draw) && Drawn(cs, exclude, k, draw)
    ensures j == k
  {
    var p := cs[k].priority;
    assert cs[j].priority == p;
    if j < k {
      TicketsGrow(cs, exclude, p, j + 1, k);
    } else if k < j {
      TicketsGrow(cs, exclude, p, k + 1, j);
    }
  }

  function Draws(from: nat, to: nat): set<nat> { if to <= from then {} else Draws(from, to - 1) + {to - 1} }

  lemma {:induction false} DrawsSize(from: nat, to: nat)
    requires from <= to
    ensures |Draws(from, to)| == to - from && forall d: nat :: d in Draws(from, to) <==> from <= d < to
  {
    if from < to {
      DrawsSize(from, to - 1);
    }
  }

  /** Exactly weight plus one of the possible draws pick a top channel. */
  lemma ChosenByWeightPlusOne(cs: seq<Channel>, exclude: set<int>, k: nat)
    requires Top(cs, exclude, k)
    ensures var total := Tickets(cs, exclude, cs[k].priority, |cs|);
      |set d: nat | 0 <= d < total && Drawn(cs, exclude, k, d)| == cs[k].weight + 1
  {
    var p := cs[k].priority;
    var total, before := Tickets(cs, exclude, p, |cs|), Tickets(cs, exclude, p, k);
    TicketsGrow(cs, exclude, p, k + 1, |cs|);
    DrawsSize(before, before + cs[k].weight + 1);
    assert (set d: nat | 0 <= d < total && Drawn(cs, exclude, k, d)) == Draws(before, before + cs[k].weight + 1);
  }

  // ---- Affinity ----

  type Time = int

  const AFFINITY_TTL := 1_800_000_000_000
  const AFFINITY_MAX_ENTRIES: nat := 10_000

  datatype Binding = Binding(channelId: int, expiresAt: Time, lastAccess: Time)

  function Joined(model: string, key: string): string { model + ":" + key }

  class AffinityTable {
    var entries: map<string, Binding>

    constructor ()
      ensures entries == map[]
    {
      entries := map[];
    }

    /** A hit refreshes the access time, not the expiry. */
    method Lookup(model: string, key: string, now: Time) returns (bound: Option<int>)
      modifies this
      ensures bound.Some? <==> key != "" && Joined(model, key) in old(entries) && now <= old(entries)[Joined(model, key)].expiresAt
      ensures bound.Some? ==> bound.value == old(entries)[Joined(model, key)].channelId
      ensures entries == if bound.Some? then old(entries)[Joined(model, key) := old(entries)[Joined(model, key)].(lastAccess := now)] else old(entries)
    {
      if key == "" {
        return None;
      }
      var k := Joined(model, key);
      if k !in entries || now > entries[k].expiresAt {
        return None;
      }
      entries := entries[k := entries[k].(lastAccess := now)];
      bound := Some(entries[k].channelId);
    }

    /** Never more than the maximum; what goes is expired, or no fresher than anything that stays. */
    method Bind(model: string, key: string, channelId: int, now: Time)
      modifies this
      ensures Rebound(old(entries), entries, model, key, channelId, now)
    {
      if key == "" {
        return;
      }
      entries := entries[Joined(model, key) := Binding(channelId, now + AFFINITY_TTL, now)];
      if |entries| > AFFINITY_MAX_ENTRIES {
        Evict(now);
      }
    }

    method Evict(now: Time)
      modifies this
      ensures |entries| <= AFFINITY_MAX_ENTRIES && Survivors(entries, old(entries), now)
    {
      entries := map k | k in entries && now <= entries[k].expiresAt :: entries[k];
      while |entries| > AFFINITY_MAX_ENTRIES
        invariant Survivors(entries, old(entries), now)
        decreases |entries|
      {
        var oldest := Oldest(entries);
        ghost var before := entries;
        entries := entries - {oldest};
        assert entries.Keys == before.Keys - {oldest};
      }
    }
  }

  /**
    A part of the table: expired entries are gone, and others only while there is no room for
    them, the least recently used first.
   */
  predicate Survivors(kept: map<string, Binding>, all: map<string, Binding>, now: Time) {
    && (forall k :: k in kept ==> k in all && kept[k] == all[k] && now <= kept[k].expiresAt)
    && (|kept| < AFFINITY_MAX_ENTRIES ==> forall k :: k in all && now <= all[k].expiresAt ==> k in kept)
    && (forall k, j :: k in all && k !in kept && now <= all[k].expiresAt && j in kept ==> all[k].lastAccess <= all[j].lastAccess)
  }

  /** The effect of binding a channel for half an hour: at most ten thousand entries stay. */
  predicate Rebound(before: map<string, Binding>, after: map<string, Binding>, model: string, key: string, channelId: int, now: Time) {
    if key == "" then after == before
    else
      var bound := before[Joined(model, key) := Binding(channelId, now + 30 * 60 * 1_000_000_000, now)];
      if |bound| <= 10_000 then after == bound else |after| <= 10_000 && Survivors(after, bound, now)
  }

  /** The same bindings, some of them used since. */
  predicate SameBindings(before: map<string, Binding>, after: map<string, Binding>) {
    && after.Keys == before.Keys
    && forall k :: k in before ==> after[k].channelId == before[k].channelId && after[k].expiresAt == before[k].expiresAt
  }

  /** With room in the table, a client who was just served is bound to the channel that did it for half an hour. */
  lemma ServedIsBound(before: map<string, Binding>, after: map<string, Binding>, model: string, key: string, channelId: int, now: Time, later: Time)
    requires key != "" && |before| < 10_000 && Rebound(before, after, model, key, channelId, now)
    ensures BoundTo(after, model, key, later) == if later <= now + 30 * 60 * 1_000_000_000 then Some(channelId) else None
  {
    var k := Joined(model, key);
    assert before[k := Binding(channelId, 0, 0)].Keys == before.Keys + {k};
    assert |before.Keys + {k}| <= |before.Keys| + 1;
  }

  method Oldest(entries: map<string, Binding>) returns (oldest: string)
    requires |entries| > 0
    ensures oldest in entries && forall k :: k in entries ==> entries[oldest].lastAccess <= entries[k].lastAccess
  {
    var keys := entries.Keys;
    assert |keys| == |entries|;
    oldest :| oldest in keys;
    keys := keys - {oldest};
    while keys != {}
      invariant keys <= entries.Keys && oldest in entries && oldest !in keys
      invariant forall k :: k in entries && k !in keys ==> entries[oldest].lastAccess <= entries[k].lastAccess
      decreases |keys|
    {
      var k :| k in keys;
      keys := keys - {k};
      if entries[k].lastAccess < entries[oldest].lastAccess {
        oldest := k;
      }
    }
  }

  lemma DifferentStarts(a: string, b: string, s: string, t: string)
    requires a <= s && b <= t && !(a <= b) && !(b <= a)
    ensures s != t
  {
    var i :| 0 <= i < |a| && i < |b| && a[i] != b[i];
    assert s[i] == a[i] && t[i] == b[i];
  }

  /**
    Models have bindings of their own, as intended, exactly when no model's name with the
    separator starts another's: a name that itself contains a colon can share an entry.
   */
  lemma BindingsAreSeparateIff(m: string, n: string)
    ensures (forall k, l :: Joined(m, k) != Joined(n, l)) <==> !(m + ":" <= n + ":") && !(n + ":" <= m + ":")
  {
    var a, b := m + ":", n + ":";
    if a <= b {
      assert Joined(m, b[|a|..]) == Joined(n, "");
    }
    if b <= a {
      assert Joined(n, a[|b|..]) == Joined(m, "");
    }
    if !(a <= b) && !(b <= a) {
      forall k, l
        ensures Joined(m, k) != Joined(n, l)
      {
        DifferentStarts(a, b, Joined(m, k), Joined(n, l));
      }
    }
  }

  datatype AffinityOutcome = AffinityOff | AffinityMiss | AffinityHit | AffinityDrift

  method TopAvailablePriority(cs: seq<Channel>, exclude: set<int>) returns (top: Option<int>)
    requires ByPriority(cs)
    ensures top.None? <==> forall k :: 0 <= k < |cs| ==> cs[k].id in exclude
    ensures top.Some? ==> forall k :: Available(cs, exclude, k) ==> (cs[k].priority == top.value <==> Top(cs, exclude, k))
  {
    for i := 0 to |cs|
      invariant forall k :: 0 <= k < i ==> cs[k].id in exclude
    {
      if cs[i].id !in exclude {
        assert Available(cs, exclude, i) && forall j :: Available(cs, exclude, j) ==> j >= i;
        return Some(cs[i].priority);
      }
    }
    top := None;
  }

  /** The channel a lookup answers with. */
  function BoundTo(entries: map<string, Binding>, model: string, key: string, now: Time): Option<int> {
    if key != "" && Joined(model, key) in entries && now <= entries[Joined(model, key)].expiresAt
    then Some(entries[Joined(model, key)].channelId) else None
  }

  /** The bound channel, if it is in the top tier and not excluded. */
  method FindBound(cs: seq<Channel>, exclude: set<int>, top: int, boundId: int) returns (found: Option<nat>)
    requires forall k :: Available(cs, exclude, k) ==> (cs[k].priority == top <==> Top(cs, exclude, k))
    ensures found.Some? ==> Top(cs, exclude, found.value) && cs[found.value].id == boundId
    ensures found.None? ==> forall k :: Top(cs, exclude, k) ==> cs[k].id != boundId
  {
    for i := 0 to |cs|
      invariant forall k :: 0 <= k < i && Top(cs, exclude, k) ==> cs[k].id != boundId
    {
      if cs[i].id == boundId && cs[i].priority == top && boundId !in exclude {
        assert Available(cs, exclude, i);
        return Some(i);
      }
    }
    found := None;
  }

  /**
    Affinity never costs availability or priority: whatever the table says, the chosen
    channel is a top one, and one is chosen whenever any is left.
   */
  method SelectWithAffinity(cs: seq<Channel>, exclude: set<int>, table: AffinityTable, model: string, key: string, now: Time, intn: Draw)
    returns (chosen: Option<nat>, outcome: AffinityOutcome)
    requires ByPriority(cs)
    modifies table
    ensures chosen.None? <==> forall k :: 0 <= k < |cs| ==> cs[k].id in exclude
    ensures chosen.Some? ==> Top(cs, exclude, chosen.value)
    ensures var bound := BoundTo(old(table.entries), model, key, now);
      && (outcome.AffinityOff? <==> key == "")
      && (outcome.AffinityMiss? <==> key != "" && bound.None?)
      && (outcome.AffinityHit? <==> bound.Some? && exists k :: Top(cs, exclude, k) && cs[k].id == bound.value)
      && (outcome.AffinityHit? ==> chosen.Some? && cs[chosen.value].id == bound.value)
    ensures SameBindings(old(table.entries), table.entries)
    ensures chosen.Some? && !outcome.AffinityHit? ==>
      var total := Tickets(cs, exclude, cs[chosen.value].priority, |cs|);
      total > 0 && Drawn(cs, exclude, chosen.value, intn(total))
  {
    if key == "" {
      chosen := SelectChannel(cs, exclude, intn);
      return chosen, AffinityOff;
    }
    var bound := table.Lookup(model, key, now);
    if bound.None? {
      chosen := SelectChannel(cs, exclude, intn);
      return chosen, AffinityMiss;
    }
    var top := TopAvailablePriority(cs, exclude);
    if top.None? {
      chosen := SelectChannel(cs, exclude, intn);
      return chosen, AffinityDrift;
    }
    var found := FindBound(cs, exclude, top.value, bound.value);
    if found.Some? {
      return found, AffinityHit;
    }
    chosen := SelectChannel(cs, exclude, intn);
    outcome := AffinityDrift;
  }
}
