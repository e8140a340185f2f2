/** Sums over the tables beside the ledger: a user's keys and a user's day counters. */
module Counters {
  import opened Outcomes
  import opened Ledger
  import opened AccountInvariants
  import opened CallCharges
  import opened CallCommits

  ghost function SumMap<K>(m: map<K, int>): int
    decreases |m|
  {
    if m == map[] then 0
    else
      var k :| k in m;
      assert (m - {k}).Keys == m.Keys - {k};
      m[k] + SumMap(m - {k})
  }

  lemma {:induction false} SumMapRemove<K>(m: map<K, int>, k: K)
    requires k in m
    ensures SumMap(m) == m[k] + SumMap(m - {k})
    decreases |m|
  {
    assert m != map[];
    var j :| j in m && SumMap(m) == m[j] + SumMap(m - {j});
    assert (m - {j}).Keys == m.Keys - {j} && (m - {k}).Keys == m.Keys - {k};
    if j != k {
      SumMapRemove(m - {j}, k);
      SumMapRemove(m - {k}, j);
      assert (m - {j}) - {k} == (m - {k}) - {j};
    }
  }

  lemma SumMapUpdate<K>(m: map<K, int>, k: K, v: int)
    ensures SumMap(m[k := v]) == SumMap(m) - Lookup(m, k) + v
  {
    SumMapRemove(m[k := v], k);
    assert m[k := v] - {k} == m - {k};
    if k in m {
      SumMapRemove(m, k);
    } else {
      assert m - {k} == m;
    }
  }

  function DaysOf(m: map<(UserId, Day), int>, u: UserId): map<(UserId, Day), int> {
    map p | p in m && p.0 == u :: m[p]
  }

  function KeysOf(keys: map<KeyId, ApiKey>, u: UserId): map<KeyId, int> {
    map k | k in keys && keys[k].owner == u :: keys[k].used
  }

  /** Before any purge, a user's day counters add up to the user's used credit. */
  ghost predicate DaysMatch(b: Book) {
    forall u :: u in b.users ==> b.users[u].used == SumMap(DaysOf(b.userDays, u))
  }

  lemma BumpDays(m: map<(UserId, Day), int>, u: UserId, day: Day, delta: int, v: UserId)
    ensures SumMap(DaysOf(Bump(m, (u, day), delta), v)) == SumMap(DaysOf(m, v)) + if u == v then delta else 0
  {
    if delta != 0 {
      if u == v {
        SumMapUpdate(DaysOf(m, v), (u, day), Lookup(m, (u, day)) + delta);
        assert DaysOf(Bump(m, (u, day), delta), v) == DaysOf(m, v)[(u, day) := Lookup(m, (u, day)) + delta];
      } else {
        assert DaysOf(Bump(m, (u, day), delta), v) == DaysOf(m, v);
      }
    }
  }

  lemma BookedKeepsDays(b: Book, adj: Adjustment, day: Day, now: Time, v: UserId)
    requires v in b.users && b.users[v].used == SumMap(DaysOf(b.userDays, v)) && adj.userId in b.users
    ensures var b' := Booked(b, adj, day, now); v in b'.users && b'.users[v].used == SumMap(DaysOf(b'.userDays, v))
  {
    BumpDays(b.userDays, adj.userId, day, -NewEntry(b, adj, now).amount, v);
  }

  /** Every adjustment, of whatever shape, moves a user's used credit and day counters alike. */
  lemma ApplyTxKeepsDays(b: Book, adj: Adjustment, day: Day, now: Time)
    requires DaysMatch(b)
    ensures DaysMatch(ApplyTx(b, adj, day, now).book)
  {
    if Refusal(b, adj, day).None? {
      forall v | v in b.users
        ensures var b' := Booked(b, adj, day, now); v in b'.users && b'.users[v].used == SumMap(DaysOf(b'.userDays, v))
      {
        BookedKeepsDays(b, adj, day, now, v);
      }
    }
  }

  /** Per key of a user, the sum of the ledger's entries for the key. */
  function KeyTotals(keys: map<KeyId, ApiKey>, l: seq<Entry>, u: UserId): map<KeyId, int> {
    map k | k in keys && keys[k].owner == u :: Total(l, ByKey(k))
  }

  lemma {:induction false} SumMapZero<K>(m: map<K, int>)
    requires forall k :: k in m ==> m[k] == 0
    ensures SumMap(m) == 0
    decreases |m|
  {
    if m.Keys != {} {
      var k :| k in m.Keys;
      SumMapRemove(m, k);
      assert (m - {k}).Keys == m.Keys - {k};
      SumMapZero(m - {k});
    }
  }

  lemma {:induction false} UserIsSumOfKeyTotals(b: Book, l: seq<Entry>, u: UserId)
    requires forall i :: 0 <= i < |l| ==>
      if IsCall(l[i].entryType) then l[i].refType.ApiKeyRef? && l[i].refId in b.keys && b.keys[l[i].refId].owner == l[i].userId
      else !l[i].refType.ApiKeyRef?
    ensures Total(l, CallsOfUser(u)) == SumMap(KeyTotals(b.keys, l, u))
  {
    if l == [] {
      SumMapZero(KeyTotals(b.keys, l, u));
    } else {
      var n := |l| - 1;
      var e := l[n];
      UserIsSumOfKeyTotals(b, l[..n], u);
      if IsCall(e.entryType) && e.userId == u {
        SumMapUpdate(KeyTotals(b.keys, l[..n], u), e.refId, Total(l, ByKey(e.refId)));
        assert KeyTotals(b.keys, l, u) == KeyTotals(b.keys, l[..n], u)[e.refId := Total(l, ByKey(e.refId))];
      } else {
        assert KeyTotals(b.keys, l, u) == KeyTotals(b.keys, l[..n], u);
      }
    }
  }

  lemma {:induction false} SumMapNegate<K>(m: map<K, int>, n: map<K, int>)
    requires m.Keys == n.Keys && forall k :: k in m ==> n[k] == -m[k]
    ensures SumMap(n) == -SumMap(m)
    decreases |m|
  {
    if m.Keys != {} {
      var k :| k in m.Keys;
      SumMapRemove(m, k);
      SumMapRemove(n, k);
      assert (m - {k}).Keys == m.Keys - {k} && (n - {k}).Keys == n.Keys - {k};
      SumMapNegate(m - {k}, n - {k});
    }
  }

  /** A user's used credit is the sum over the user's keys. */
  lemma UserUsedIsSumOfKeys(b: Book, u: UserId)
    requires InOrder(b) && u in b.users
    ensures b.users[u].used == SumMap(KeysOf(b.keys, u))
  {
    assert forall i :: 0 <= i < |b.ledger| ==> EntryShape(b, b.ledger[i]);
    UserIsSumOfKeyTotals(b, b.ledger, u);
    SumMapNegate(KeyTotals(b.keys, b.ledger, u), KeysOf(b.keys, u));
  }
}
