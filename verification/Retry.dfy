/**
  One request over its candidate channels: which channels are tried, and which single
  billing call each way of ending makes.
 */
module Retry {
  import opened Outcomes
  import opened Routing

  datatype BillingCall = Refund | Settle

  /** What becomes of the response body of a successful attempt. */
  datatype Body = ReadFails | TransformFails | Transformed | CannotFlush | Streamed

  /** What happens to one attempt. */
  datatype Attempt =
    | DecryptFails
    | NoConduit
    | Unsupported
    | BuildFails
    | NetworkError
    | HttpError(retryable: bool)
    | Success(body: Body)

  /** The request is over after an attempt that is the client's fault, final, or successful. */
  predicate Ends(a: Attempt) { a.NoConduit? || a.Unsupported? || (a.HttpError? && !a.retryable) || a.Success? }

  /** The billing call an ending attempt makes. */
  function CallOf(a: Attempt): BillingCall {
    if a.Success? && (a.body.Transformed? || a.body.Streamed?) then Settle else Refund
  }

  method JsonResponse(body: Body) returns (calls: seq<BillingCall>)
    requires body.ReadFails? || body.TransformFails? || body.Transformed?
    ensures calls == [if body.Transformed? then Settle else Refund]
  {
    calls := [];
    if body.ReadFails? {
      calls := calls + [Refund];
      return;
    }
    if body.TransformFails? {
      calls := calls + [Refund];
      return;
    }
    calls := calls + [Settle];
  }

  method StreamResponse(body: Body) returns (calls: seq<BillingCall>)
    requires body.CannotFlush? || body.Streamed?
    ensures calls == [if body.Streamed? then Settle else Refund]
  {
    calls := [];
    if body.CannotFlush? {
      calls := calls + [Refund];
      return;
    }
    calls := calls + [Settle];
  }

  /**
    One attempt ends the request with exactly one billing call, or makes none and leaves it to the
    next channel; a channel that answers is bound to the client.
   */
  method TryChannel(a: Attempt, channelId: int, table: AffinityTable, model: string, key: string, now: Time)
    returns (done: bool, calls: seq<BillingCall>)
    modifies table
    ensures if a.Success? then Rebound(old(table.entries), table.entries, model, key, channelId, now) else table.entries == old(table.entries)
    ensures done == Ends(a) && calls == if done then [CallOf(a)] else []
    ensures !done <==> a.DecryptFails? || a.BuildFails? || a.NetworkError? || (a.HttpError? && a.retryable)
    ensures Settle in calls <==> a == Success(Transformed) || a == Success(Streamed)
    ensures Refund in calls <==>
      || a.NoConduit? || a.Unsupported? || (a.HttpError? && !a.retryable)
      || a == Success(ReadFails) || a == Success(TransformFails) || a == Success(CannotFlush)
  {
    calls := [];
    match a
    case DecryptFails => return false, calls;
    case NoConduit =>
      calls := calls + [Refund];
      return true, calls;
    case Unsupported =>
      calls := calls + [Refund];
      return true, calls;
    case BuildFails => return false, calls;
    case NetworkError => return false, calls;
    case HttpError(retryable) =>
      if !retryable {
        calls := calls + [Refund];
        return true, calls;
      }
      return false, calls;
    case Success(body) =>
      table.Bind(model, key, channelId, now);
      if body.CannotFlush? || body.Streamed? {
        calls := StreamResponse(body);
      } else {
        calls := JsonResponse(body);
      }
      return true, calls;
  }

  function Ids(cs: seq<Channel>): set<int> { set k | 0 <= k < |cs| :: cs[k].id }

  function TriedIds(cs: seq<Channel>, tried: seq<nat>): set<int>
    requires forall i :: 0 <= i < |tried| ==> tried[i] < |cs|
  {
    set i | 0 <= i < |tried| :: cs[tried[i]].id
  }

  predicate InRange(cs: seq<Channel>, tried: seq<nat>) { forall i :: 0 <= i < |tried| ==> tried[i] < |cs| }

  /** Each attempt goes to a top channel among those not tried before it. */
  ghost predicate BestFirst(cs: seq<Channel>, tried: seq<nat>)
    requires InRange(cs, tried)
  {
    forall i :: 0 <= i < |tried| ==> Top(cs, TriedIds(cs, tried[..i]), tried[i])
  }

  /** A table whose bindings may have changed between attempts, and the draw of each attempt. */
  datatype Luck = Luck(now: Time, intn: Draw)

  /** Selects the next channel and marks it as tried. */
  method NextChannel(cs: seq<Channel>, tried: seq<nat>, exclude: set<int>, luck: Luck, table: AffinityTable, model: string, key: string)
    returns (chosen: Option<nat>, excluded: set<int>)
    requires ByPriority(cs) && InRange(cs, tried) && BestFirst(cs, tried) && exclude == TriedIds(cs, tried)
    modifies table
    ensures chosen.None? ==> TriedIds(cs, tried) == Ids(cs)
    ensures chosen.Some? ==> chosen.value < |cs| && InRange(cs, tried + [chosen.value]) && BestFirst(cs, tried + [chosen.value])
    ensures chosen.Some? ==> excluded == TriedIds(cs, tried + [chosen.value])
    ensures SameBindings(old(table.entries), table.entries)
  {
    var outcome;
    chosen, outcome := SelectWithAffinity(cs, exclude, table, model, key, luck.now, luck.intn);
    excluded := exclude;
    if chosen.None? {
      NoneLeft(cs, tried);
    } else {
      TriedOneMore(cs, tried, chosen.value);
      excluded := exclude + {cs[chosen.value].id};
    }
  }

  /** Bound to a channel, from bindings that may have been used on the way. */
  ghost predicate BoundAfter(before: map<string, Binding>, after: map<string, Binding>, model: string, key: string, channelId: int, now: Time) {
    exists used :: SameBindings(before, used) && Rebound(used, after, model, key, channelId, now)
  }

  /** With room in the table, the requests of the next half hour find the channel that answered this one. */
  lemma ServedStays(before: map<string, Binding>, after: map<string, Binding>, model: string, key: string, channelId: int, now: Time, later: Time)
    requires key != "" && |before| < 10_000 && BoundAfter(before, after, model, key, channelId, now)
    ensures BoundTo(after, model, key, later) == if later <= now + 30 * 60 * 1_000_000_000 then Some(channelId) else None
  {
    var used :| SameBindings(before, used) && Rebound(used, after, model, key, channelId, now);
    assert |used| == |used.Keys| == |before.Keys| == |before|;
    ServedIsBound(used, after, model, key, channelId, now, later);
  }

  /** One round of the loop: the next channel, if there is one, and its attempt. */
  method TryNext(cs: seq<Channel>, tried: seq<nat>, exclude: set<int>, a: Attempt, luck: Luck, table: AffinityTable, model: string, key: string,
                 ghost before: map<string, Binding>)
    returns (chosen: Option<nat>, excluded: set<int>, done: bool, calls: seq<BillingCall>)
    requires ByPriority(cs) && InRange(cs, tried) && BestFirst(cs, tried) && exclude == TriedIds(cs, tried) && SameBindings(before, table.entries)
    modifies table
    ensures chosen.None? ==> TriedIds(cs, tried) == Ids(cs) && !done && calls == []
    ensures chosen.Some? ==> chosen.value < |cs| && InRange(cs, tried + [chosen.value]) && BestFirst(cs, tried + [chosen.value])
    ensures chosen.Some? ==> excluded == TriedIds(cs, tried + [chosen.value]) && done == Ends(a) && calls == if done then [CallOf(a)] else []
    ensures if chosen.Some? && a.Success? then BoundAfter(before, table.entries, model, key, cs[chosen.value].id, luck.now)
            else SameBindings(before, table.entries)
  {
    chosen, excluded := NextChannel(cs, tried, exclude, luck, table, model, key);
    done, calls := false, [];
    if chosen.Some? {
      ghost var used := table.entries;
      assert SameBindings(before, used);
      done, calls := TryChannel(a, cs[chosen.value].id, table, model, key, luck.now);
    }
  }

  /** The last attempt made brought an answer, whole or as a stream, to its end. */
  predicate Answered(attempts: seq<Attempt>, tried: seq<nat>)
    requires |tried| <= |attempts|
  {
    tried != [] && (attempts[|tried| - 1] == Success(Transformed) || attempts[|tried| - 1] == Success(Streamed))
  }

  /**
    The retry loop.  However the attempts go: no channel is tried twice, each is the best one
    left, and exactly one billing call is made, a settle exactly when the last attempt brought
    an answer to its end; every attempt before it failed in a way another channel may mend.
   */
  method RelayWithRetry(cs: seq<Channel>, maxRetries: int, attempts: seq<Attempt>, luck: seq<Luck>,
                        table: AffinityTable, model: string, key: string)
    returns (tried: seq<nat>, calls: seq<BillingCall>)
    requires ByPriority(cs) && |attempts| == |luck| >= maxRetries
    modifies table
    ensures InRange(cs, tried) && BestFirst(cs, tried) && |tried| <= Max(maxRetries, 0)
    ensures forall i :: 0 <= i < |tried| - 1 ==>
      attempts[i].DecryptFails? || attempts[i].BuildFails? || attempts[i].NetworkError? || (attempts[i].HttpError? && attempts[i].retryable)
    ensures |calls| == 1 && (Settle in calls <==>
      tried != [] && (attempts[|tried| - 1] == Success(Transformed) || attempts[|tried| - 1] == Success(Streamed)))
    ensures var served := |tried| > 0 && Ends(attempts[|tried| - 1]);
      && calls == [if served then CallOf(attempts[|tried| - 1]) else Refund]
      && (served || |tried| == Max(maxRetries, 0) || TriedIds(cs, tried) == Ids(cs))
    ensures if tried == [] || !attempts[|tried| - 1].Success? then SameBindings(old(table.entries), table.entries)
            else BoundAfter(old(table.entries), table.entries, model, key, cs[tried[|tried| - 1]].id, luck[|tried| - 1].now)
  {
    tried, calls := [], [];
    if |cs| == 0 {
      calls := calls + [Refund];
      return;
    }
    var exclude: set<int> := {};
    ghost var before := table.entries;
    var attempt := 0;
    while attempt < maxRetries
      invariant attempt == |tried| <= Max(maxRetries, 0) && calls == []
      invariant InRange(cs, tried) && BestFirst(cs, tried)
      invariant exclude == TriedIds(cs, tried) && SameBindings(before, table.entries)
      invariant forall i :: 0 <= i < |tried| ==> !Ends(attempts[i])
      decreases maxRetries - attempt
    {
      var chosen, done, made;
      chosen, exclude, done, made := TryNext(cs, tried, exclude, attempts[attempt], luck[attempt], table, model, key, before);
      if chosen.None? {
        break;
      }
      tried := tried + [chosen.value];
      calls := calls + made;
      if done {
        return;
      }
      attempt := attempt + 1;
    }
    calls := calls + [Refund];
  }

  lemma NoneLeft(cs: seq<Channel>, tried: seq<nat>)
    requires InRange(cs, tried) && forall k :: 0 <= k < |cs| ==> cs[k].id in TriedIds(cs, tried)
    ensures TriedIds(cs, tried) == Ids(cs)
  {
  }

  lemma TriedOneMore(cs: seq<Channel>, tried: seq<nat>, k: nat)
    requires InRange(cs, tried) && BestFirst(cs, tried) && k < |cs| && Top(cs, TriedIds(cs, tried), k)
    ensures var more := tried + [k];
      InRange(cs, more) && BestFirst(cs, more) && TriedIds(cs, more) == TriedIds(cs, tried) + {cs[k].id}
  {
    var more := tried + [k];
    forall i | 0 <= i < |more|
      ensures Top(cs, TriedIds(cs, more[..i]), more[i])
    {
      if i < |tried| {
        assert more[..i] == tried[..i];
      } else {
        assert more[..i] == tried;
      }
    }
    assert TriedIds(cs, more) == TriedIds(cs, tried) + {cs[k].id} by {
      forall x | x in TriedIds(cs, tried) + {cs[k].id}
        ensures x in TriedIds(cs, more)
      {
        if x in TriedIds(cs, tried) {
          var i :| 0 <= i < |tried| && cs[tried[i]].id == x;
          assert cs[more[i]].id == x;
        } else {
          assert cs[more[|tried|]].id == x;
        }
      }
    }
  }

  // ---- What that order of attempts means ----

  lemma TriedBefore(cs: seq<Channel>, tried: seq<nat>, i: nat, j: nat)
    requires InRange(cs, tried) && i < j <= |tried|
    ensures cs[tried[i]].id in TriedIds(cs, tried[..j])
  {
    assert tried[..j][i] == tried[i];
  }

  /** No channel twice, and priorities never rise. */
  lemma NoRepeatNoRise(cs: seq<Channel>, tried: seq<nat>, i: nat, j: nat)
    requires InRange(cs, tried) && BestFirst(cs, tried) && i < j < |tried|
    ensures cs[tried[i]].id != cs[tried[j]].id && cs[tried[i]].priority >= cs[tried[j]].priority
  {
    TriedBefore(cs, tried, i, j);
    assert Top(cs, TriedIds(cs, tried[..i]), tried[i]) && Top(cs, TriedIds(cs, tried[..j]), tried[j]);
    forall x | x in TriedIds(cs, tried[..i])
      ensures x in TriedIds(cs, tried[..j])
    {
      var k :| 0 <= k < i && cs[tried[..i][k]].id == x;
      assert tried[..j][k] == tried[k];
    }
    assert Available(cs, TriedIds(cs, tried[..i]), tried[j]);
  }

  lemma FrontIsBestFirst(cs: seq<Channel>, tried: seq<nat>)
    requires tried != [] && InRange(cs, tried) && BestFirst(cs, tried)
    ensures var front := tried[..|tried| - 1];
      InRange(cs, front) && BestFirst(cs, front) && Top(cs, TriedIds(cs, front), tried[|tried| - 1]) && tried == front + [tried[|tried| - 1]]
  {
    var front := tried[..|tried| - 1];
    forall i | 0 <= i < |front|
      ensures Top(cs, TriedIds(cs, front[..i]), front[i])
    {
      assert front[..i] == tried[..i];
    }
  }

  lemma {:induction false} TriedSize(cs: seq<Channel>, tried: seq<nat>)
    requires InRange(cs, tried) && BestFirst(cs, tried)
    ensures |TriedIds(cs, tried)| == |tried|
  {
    if tried != [] {
      var front := tried[..|tried| - 1];
      FrontIsBestFirst(cs, tried);
      TriedSize(cs, front);
      TriedOneMore(cs, front, tried[|tried| - 1]);
    }
  }

  lemma {:induction false} IdsSize(cs: seq<Channel>)
    ensures |Ids(cs)| <= |cs|
  {
    if cs != [] {
      var front := cs[..|cs| - 1];
      IdsSize(front);
      assert Ids(cs) == Ids(front) + {cs[|cs| - 1].id};
    }
  }

  /** With retries for every candidate, giving up means that every candidate was tried. */
  lemma GivingUpIsExhaustion(cs: seq<Channel>, tried: seq<nat>, maxRetries: nat)
    requires InRange(cs, tried) && BestFirst(cs, tried) && maxRetries >= |cs|
    requires |tried| == maxRetries || TriedIds(cs, tried) == Ids(cs)
    ensures TriedIds(cs, tried) == Ids(cs)
  {
    if |tried| == maxRetries {
      TriedSize(cs, tried);
      IdsSize(cs);
      assert TriedIds(cs, tried) <= Ids(cs);
      SubsetOfSameSize(TriedIds(cs, tried), Ids(cs));
    }
  }

  lemma SubsetOfSameSize(x: set<int>, y: set<int>)
    requires x <= y && |x| >= |y|
    ensures x == y
  {
    assert |y - x| == |y| - |x|;
  }
}
