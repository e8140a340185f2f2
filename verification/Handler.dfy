/**
  The handler of one request on top of the billing protocol: what `RelayWithRetry` asks of the
  billing session, and the `EnsureFinal` that runs when the handler returns, are protocol events,
  each enabled where it happens, whatever other requests do in between.
 */
module Handler {
  import opened Outcomes
  import opened CallCharges
  import opened Ledger
  import opened Protocol
  import opened ProtocolRuns
  import opened Payment
  import R = Retry
  import opened Routing
  import S = Session

  /** The protocol event of one billing call. */
  function EventOf(call: R.BillingCall, r: string, final: nat, w: S.Wire): Event {
    if call.Settle? then SettleCall(r, final, w) else RefundCall(r, w)
  }

  /** The protocol's state knows this session and holds these books. */
  ghost predicate Follows(s: State, session: S.BillingSession)
    reads session, session.service
  {
    && session.requestId in s.tracks && session.precharged >= 0
    && s.tracks[session.requestId].session == session.View() && s.book == session.service.Books()
  }

  /** The timing hypothesis for this call. */
  predicate CallInTime(c: Config, s: State, call: R.BillingCall, r: string, final: nat, w: S.Wire) {
    r in s.tracks && call.Settle? && S.Executes(w) ==> InTime(c, s, S.SettleAdj(s.tracks[r].session, final))
  }

  /** The first billing call of a handler is an enabled event, and the session does what the event says. */
  method Ask(session: S.BillingSession, call: R.BillingCall, final: nat, w: S.Wire, c: Config, ghost s: State, now: Time)
    requires Follows(s, session) && !s.tracks[session.requestId].handlerDone && now == s.clock
    requires CallInTime(c, s, call, session.requestId, final, w)
    modifies session, session.service
    ensures var ev := EventOf(call, session.requestId, final, w);
      && Enabled(c, s, ev) && Follows(Next(c, s, ev), session)
      && Next(c, s, ev).tracks[session.requestId].handlerDone && Next(c, s, ev).clock == s.clock
  {
    var ok;
    if call.Settle? {
      ok := session.Settle(final, w, c.dayOf(now), now);
    } else {
      ok := session.Refund(w, c.dayOf(now), now);
    }
  }

  /** The call when the handler returns is an enabled refund event, whatever the first call came to. */
  method Close(session: S.BillingSession, w: S.Wire, c: Config, ghost s: State, now: Time)
    requires Follows(s, session) && s.tracks[session.requestId].handlerDone && now == s.clock
    modifies session, session.service
    ensures var ev := RefundCall(session.requestId, w);
      Enabled(c, s, ev) && Follows(Next(c, s, ev), session)
  {
    session.EnsureFinal(w, c.dayOf(now), now);
  }

  /** A fresh session of a request the protocol has not seen, on the protocol's books. */
  ghost predicate Opens(s: State, session: S.BillingSession)
    reads session, session.service
  {
    && session.phase.Init? && session.precharged == 0 && session.requestId != "" && session.requestId !in s.tracks
    && session.keyId in s.book.keys && s.book.keys[session.keyId].owner == session.userId
    && s.book == session.service.Books()
  }

  function StartOf(session: S.BillingSession, cost: nat, w: S.Wire): Event {
    StartCall(session.requestId, session.keyId, cost, session.dailyLimit, session.keyDailyLimit, w)
  }

  /** The consume a confirmed precharge books is found under its request, stamped with its time. */
  lemma ConfirmedIsFound(b: Book, adj: Adjustment, day: Day, now: Time)
    requires adj.entryType.Consume? && adj.requestId != "" && ApplyTx(b, adj, day, now).reply.Accepted?
    ensures var e := Find(ApplyTx(b, adj, day, now).book.ledger, adj.requestId, Consume);
      e.Some? && e.value.createdAt == now
  {
    FindIsHasEntry(b.ledger, adj.requestId, Consume);
    FindAppend(b.ledger, NewEntry(b, adj, now), adj.requestId, Consume);
  }

  /** A handler goes on exactly when its precharge is confirmed. */
  method Open(session: S.BillingSession, cost: nat, w: S.Wire, c: Config, ghost s: State, now: Time) returns (ok: bool)
    requires Opens(s, session) && now == s.clock
    modifies session, session.service
    ensures var ev := StartOf(session, cost, w);
      && Enabled(c, s, ev) && Next(c, s, ev).book == session.service.Books() && Next(c, s, ev).clock == s.clock
      && ok == (session.requestId in Next(c, s, ev).tracks)
    ensures ok ==>
      var s' := Next(c, s, StartOf(session, cost, w));
      var e := Find(s'.book.ledger, session.requestId, Consume);
      Follows(s', session) && !s'.tracks[session.requestId].handlerDone && e.Some? && e.value.createdAt == now
  {
    ghost var adj := S.PrechargeAdj(session.View(), cost);
    if ApplyTx(s.book, adj, c.dayOf(now), now).reply.Accepted? {
      ConfirmedIsFound(s.book, adj, c.dayOf(now), now);
    }
    ok := session.Precharge(cost, w, c.dayOf(now), now);
  }

  /** How long after the previous call a call comes, and what becomes of its write. */
  datatype Moment = Moment(wait: nat, wire: S.Wire)

  /** The events after the start: the one billing call of the relay loop and the one made on return. */
  function EndOf(r: string, call: R.BillingCall, final: nat, first: Moment, closing: Moment): seq<Event> {
    [Advance(first.wait), EventOf(call, r, final, first.wire), Advance(closing.wait), RefundCall(r, closing.wire)]
  }

  lemma RunSnoc(c: Config, s: State, evs: seq<Event>, ev: Event)
    ensures Run(c, s, evs + [ev]) ==
            var before := Run(c, s, evs);
            if before.None? || !Enabled(c, before.value, ev) then None else Some(Next(c, before.value, ev))
  {
    assert (evs + [ev])[..|evs|] == evs;
  }

  lemma Extend(c: Config, s: State, evs: seq<Event>, t: State, ev: Event)
    requires Run(c, s, evs) == Some(t) && Enabled(c, t, ev)
    ensures Run(c, s, evs + [ev]) == Some(Next(c, t, ev))
  {
    RunSnoc(c, s, evs, ev);
  }

  predicate Steps(c: Config, s: State, ev: Event, s': State) { Enabled(c, s, ev) && s' == Next(c, s, ev) }

  lemma ExtendStep(c: Config, s: State, evs: seq<Event>, t: State, ev: Event, t': State)
    requires Run(c, s, evs) == Some(t) && Steps(c, t, ev, t')
    ensures Run(c, s, evs + [ev]) == Some(t')
  {
    Extend(c, s, evs, t, ev);
  }

  lemma FourSteps(c: Config, s: State, a: Event, s1: State, b: Event, s2: State, d: Event, s3: State, e: Event, s4: State)
    requires Steps(c, s, a, s1) && Steps(c, s1, b, s2) && Steps(c, s2, d, s3) && Steps(c, s3, e, s4)
    ensures Run(c, s, [a, b, d, e]) == Some(s4)
  {
    assert [] + [a] == [a] && [a] + [b] == [a, b] && [a, b] + [d] == [a, b, d] && [a, b, d] + [e] == [a, b, d, e];
    ExtendStep(c, s, [], s, a, s1);
    ExtendStep(c, s, [a], s1, b, s2);
    ExtendStep(c, s, [a, b], s2, d, s3);
    ExtendStep(c, s, [a, b, d], s3, e, s4);
  }

  method Finish(session: S.BillingSession, call: R.BillingCall, final: nat, first: Moment, closing: Moment, c: Config, ghost s: State, now: Time)
    requires Follows(s, session) && !s.tracks[session.requestId].handlerDone && now == s.clock
    requires CallInTime(c, s.(clock := now + first.wait), call, session.requestId, final, first.wire)
    modifies session, session.service
    ensures var end := Run(c, s, EndOf(session.requestId, call, final, first, closing));
      end.Some? && Follows(end.value, session)
  {
    var r := session.requestId;
    ghost var s1 := Next(c, s, Advance(first.wait));
    Ask(session, call, final, first.wire, c, s1, now + first.wait);
    ghost var s2 := Next(c, s1, EventOf(call, r, final, first.wire));
    ghost var s3 := Next(c, s2, Advance(closing.wait));
    Close(session, closing.wire, c, s3, now + first.wait + closing.wait);
    ghost var s4 := Next(c, s3, RefundCall(r, closing.wire));
    FourSteps(c, s, Advance(first.wait), s1, EventOf(call, r, final, first.wire), s2, Advance(closing.wait), s3, RefundCall(r, closing.wire), s4);
  }

  /** The billing call of a retry loop that tried these channels. */
  function LastCall(attempts: seq<R.Attempt>, tried: seq<nat>): R.BillingCall
    requires |tried| <= |attempts|
  {
    if R.Answered(attempts, tried) then R.Settle else R.Refund
  }

  /** From the confirmed precharge to the handler's return. */
  method Relay(session: S.BillingSession, final: nat, first: Moment, closing: Moment,
               cs: seq<Channel>, maxRetries: int, attempts: seq<R.Attempt>, luck: seq<R.Luck>,
               table: AffinityTable, model: string, key: string, c: Config, ghost s: State, now: Time)
    returns (tried: seq<nat>)
    requires Follows(s, session) && !s.tracks[session.requestId].handlerDone && now == s.clock
    requires CallInTime(c, s.(clock := now + first.wait), R.Settle, session.requestId, final, first.wire)
    requires ByPriority(cs) && |attempts| == |luck| >= maxRetries
    modifies session, session.service, table
    ensures |tried| <= |attempts|
    ensures var end := Run(c, s, EndOf(session.requestId, LastCall(attempts, tried), final, first, closing));
      end.Some? && Follows(end.value, session)
  {
    var calls;
    tried, calls := R.RelayWithRetry(cs, maxRetries, attempts, luck, table, model, key);
    assert calls[0] in calls;
    Finish(session, calls[0], final, first, closing, c, s, now);
  }

  /** The last event of a run. */
  lemma RunEnds(c: Config, s: State, evs: seq<Event>, e: Event)
    requires Run(c, s, evs + [e]).Some?
    ensures Run(c, s, evs).Some? && Enabled(c, Run(c, s, evs).value, e)
    ensures Run(c, s, evs + [e]).value == Next(c, Run(c, s, evs).value, e)
  {
    RunSnoc(c, s, evs, e);
  }

  lemma RunWaits(c: Config, s: State, evs: seq<Event>, delta: nat)
    requires Run(c, s, evs).Some?
    ensures Run(c, s, evs + [Advance(delta)]) == Some(Waited(Run(c, s, evs).value, delta))
  {
    RunSnoc(c, s, evs, Advance(delta));
  }

  /** Waiting, a call, waiting, a call. */
  lemma TwoCalls(c: Config, s: State, a: nat, first: Event, b: nat, second: Event)
    requires Run(c, s, [Advance(a), first, Advance(b), second]).Some?
    ensures var s1 := Waited(s, a);
      Enabled(c, s1, first) && var s3 := Waited(Next(c, s1, first), b);
        && Enabled(c, s3, second) && Run(c, s, [Advance(a), first, Advance(b), second]).value == Next(c, s3, second)
  {
    assert [] + [Advance(a)] == [Advance(a)] && [Advance(a)] + [first] == [Advance(a), first];
    assert [Advance(a), first] + [Advance(b)] == [Advance(a), first, Advance(b)];
    assert [Advance(a), first, Advance(b)] + [second] == [Advance(a), first, Advance(b), second];
    RunEnds(c, s, [Advance(a), first, Advance(b)], second);
    RunEnds(c, s, [Advance(a), first], Advance(b));
    RunEnds(c, s, [Advance(a)], first);
    RunWaits(c, s, [], a);
    RunWaits(c, s, [Advance(a), first], b);
  }

  /** The books after the four events: the two calls with time in between. */
  lemma EndBook(c: Config, s: State, r: string, call: R.BillingCall, final: nat, first: Moment, closing: Moment)
    requires Run(c, s, EndOf(r, call, final, first, closing)).Some?
    ensures var s1, ev := Waited(s, first.wait), EventOf(call, r, final, first.wire);
      Enabled(c, s1, ev) && var s3 := Waited(Next(c, s1, ev), closing.wait);
        && Enabled(c, s3, RefundCall(r, closing.wire))
        && Run(c, s, EndOf(r, call, final, first, closing)).value == Next(c, s3, RefundCall(r, closing.wire))
  {
    TwoCalls(c, s, first.wait, EventOf(call, r, final, first.wire), closing.wait, RefundCall(r, closing.wire));
  }

  /** What is booked after the start is what the two calls leave. */
  lemma EndSettled(c: Config, s: State, r: string, final: nat, first: Moment, closing: Moment)
    requires Outstanding(s, r) && Run(c, s, EndOf(r, R.Settle, final, first, closing)).Some?
    ensures var session, b' := s.tracks[r].session, Run(c, s, EndOf(r, R.Settle, final, first, closing)).value.book;
      if S.Executes(first.wire) then SettledTerms(s.book, b', r, session.userId, session.precharged, final) else b' == s.book
  {
    EndBook(c, s, r, R.Settle, final, first, closing);
    SettledLeaves(c, Waited(s, first.wait), r, final, first.wire, closing.wait, closing.wire);
  }

  lemma EndRefunded(c: Config, s: State, r: string, final: nat, first: Moment, closing: Moment)
    requires Outstanding(s, r) && Run(c, s, EndOf(r, R.Refund, final, first, closing)).Some?
    ensures var session, b' := s.tracks[r].session, Run(c, s, EndOf(r, R.Refund, final, first, closing)).value.book;
      if S.Executes(first.wire) || S.Executes(closing.wire) || session.precharged == 0 then
        RefundedTerms(s.book, b', r, session.userId, session.precharged)
      else b' == s.book
  {
    EndBook(c, s, r, R.Refund, final, first, closing);
    RefundedLeaves(c, Waited(s, first.wait), r, first.wire, closing.wait, closing.wire);
  }

  /** A started call costs what its answer costs, or nothing. */
  ghost predicate Terms(b: Book, b': Book, r: string, user: UserId, cost: nat, final: nat, answered: bool, first: S.Wire, closing: S.Wire) {
    && user in b.users && user in b'.users
    && (answered ==>
          && NoneAdded(b.ledger, b'.ledger, r, EntryType.Refund)
          && (S.Executes(first) ==> HasEntry(b'.ledger, r, SettleAdjust))
          && (S.Executes(first) && !HasEntry(b.ledger, r, SettleAdjust) ==> b'.users[user].balance == Max(b.users[user].balance - final, 0)))
    && (!answered ==>
          && NoneAdded(b.ledger, b'.ledger, r, SettleAdjust)
          && (cost > 0 && (S.Executes(first) || S.Executes(closing)) ==> HasEntry(b'.ledger, r, EntryType.Refund))
          && ((cost == 0 || S.Executes(first) || S.Executes(closing)) && !HasEntry(b.ledger, r, EntryType.Refund) ==>
                b'.users[user].balance == b.users[user].balance))
  }

  /** From the books of the start to those before it, which lack one consume of the request and its cost. */
  lemma TermsBefore(b: Book, b1: Book, b': Book, e: Entry, r: string, user: UserId, cost: nat, final: nat, answered: bool, first: S.Wire, closing: S.Wire)
    requires b1.ledger == b.ledger + [e] && e.entryType.Consume?
    requires user in b.users && user in b1.users && b1.users[user].balance == b.users[user].balance - cost
    requires answered ==> if S.Executes(first) then SettledTerms(b1, b', r, user, cost, final) else b' == b1
    requires !answered ==> if S.Executes(first) || S.Executes(closing) || cost == 0 then RefundedTerms(b1, b', r, user, cost) else b' == b1
    ensures Terms(b, b', r, user, cost, final, answered, first, closing)
  {
    HasEntryAppend(b.ledger, e, r, SettleAdjust);
    HasEntryAppend(b.ledger, e, r, EntryType.Refund);
  }

  lemma StartAndEnd(c: Config, s: State, ev: Event, call: R.BillingCall, final: nat, first: Moment, closing: Moment)
    requires ev.StartCall? && Enabled(c, s, ev) && ev.requestId !in s.tracks && ev.requestId in Next(c, s, ev).tracks
    requires Run(c, Next(c, s, ev), EndOf(ev.requestId, call, final, first, closing)).Some?
    ensures var b' := Run(c, Next(c, s, ev), EndOf(ev.requestId, call, final, first, closing)).value.book;
      Terms(s.book, b', ev.requestId, s.book.keys[ev.keyId].owner, ev.cost, final, call.Settle?, first.wire, closing.wire)
  {
    StartedLeaves(c, s, ev);
    var s1 := Next(c, s, ev);
    if call.Settle? {
      EndSettled(c, s1, ev.requestId, final, first, closing);
    } else {
      EndRefunded(c, s1, ev.requestId, final, first, closing);
    }
    TermsBefore(s.book, s1.book, Run(c, s1, EndOf(ev.requestId, call, final, first, closing)).value.book, s1.book.ledger[|s.book.ledger|],
                ev.requestId, s.book.keys[ev.keyId].owner, ev.cost, final, call.Settle?, first.wire, closing.wire);
  }

  /**
    A whole request: the precharge, the retry loop with its one billing call, and the closing call.
    It is a run of the protocol that ends in the session's own state and the service's own books,
    provided its billing call, if it is carried out, comes within the upstream timeout plus the write window.
    An answer, whole or streamed, is settled and never refunded; without one the precharge comes back.
   */
  method Serve(session: S.BillingSession, cost: nat, opening: S.Wire, final: nat, first: Moment, closing: Moment,
               cs: seq<Channel>, maxRetries: int, attempts: seq<R.Attempt>, luck: seq<R.Luck>,
               table: AffinityTable, model: string, key: string, c: Config, ghost s: State, now: Time)
    returns (ok: bool, tried: seq<nat>)
    requires Opens(s, session) && now == s.clock && (S.Executes(first.wire) ==> first.wait <= c.upstream + c.window)
    requires ByPriority(cs) && |attempts| == |luck| >= maxRetries
    modifies session, session.service, table
    ensures |tried| <= |attempts|
    ensures var start := [StartOf(session, cost, opening)];
      var end := Run(c, s, if ok then start + EndOf(session.requestId, LastCall(attempts, tried), final, first, closing) else start);
      && end.Some? && end.value.book == session.service.Books()
      && (if ok then Follows(end.value, session) else session.requestId !in end.value.tracks)
    ensures ok ==>
      var answered := tried != [] && (attempts[|tried| - 1] == R.Success(R.Streamed) || attempts[|tried| - 1] == R.Success(R.Transformed));
      Terms(s.book, session.service.Books(), session.requestId, session.userId, cost, final, answered, first.wire, closing.wire)
  {
    tried := [];
    ok := Open(session, cost, opening, c, s, now);
    ghost var ev := StartOf(session, cost, opening);
    RunFirst(c, s, ev);
    if ok {
      tried := Relay(session, final, first, closing, cs, maxRetries, attempts, luck, table, model, key, c, Next(c, s, ev), now);
      RunConcat(c, s, [ev], EndOf(session.requestId, LastCall(attempts, tried), final, first, closing));
      StartAndEnd(c, s, ev, LastCall(attempts, tried), final, first, closing);
    }
  }

  lemma {:induction false} RunConcat(c: Config, s: State, evs: seq<Event>, more: seq<Event>)
    requires Run(c, s, evs).Some?
    ensures Run(c, s, evs + more) == Run(c, Run(c, s, evs).value, more)
    decreases |more|
  {
    if more == [] {
      assert evs + more == evs;
    } else {
      var front, ev := more[..|more| - 1], more[|more| - 1];
      RunConcat(c, s, evs, front);
      assert more == front + [ev];
      Regroup(evs, front, [ev]);
      RunSnoc(c, s, evs + front, ev);
      RunSnoc(c, Run(c, s, evs).value, front, ev);
    }
  }

  // ---- Among other requests ----

  /** The event is not a call of request `r`. */
  predicate Elsewhere(ev: Event, r: string) {
    !((ev.StartCall? || ev.SettleCall? || ev.RefundCall?) && ev.requestId == r)
  }

  predicate AllElsewhere(evs: seq<Event>, r: string) { forall i :: 0 <= i < |evs| ==> Elsewhere(evs[i], r) }

  lemma {:induction false} ElsewhereKeepsTrack(c: Config, s: State, evs: seq<Event>, r: string)
    requires Run(c, s, evs).Some? && AllElsewhere(evs, r) && r in s.tracks
    ensures var s' := Run(c, s, evs).value; r in s'.tracks && s'.tracks[r] == s.tracks[r]
  {
    if evs != [] {
      ElsewhereKeepsTrack(c, s, evs[..|evs| - 1], r);
      assert Elsewhere(evs[|evs| - 1], r);
    }
  }

  lemma CallEndsHandler(c: Config, s: State, call: R.BillingCall, r: string, final: nat, w: S.Wire)
    requires r in s.tracks && !s.tracks[r].handlerDone && CallInTime(c, s, call, r, final, w)
    ensures var ev := EventOf(call, r, final, w);
      Enabled(c, s, ev) && r in Next(c, s, ev).tracks && Next(c, s, ev).tracks[r].handlerDone
  {
  }

  /**
    Whatever others do before the handler's billing call and between it and the closing call, both
    calls are enabled, others leave the session's track alone, and nothing else is asked of it.
   */
  lemma HandlerCallsAreEnabled(c: Config, s: State, r: string, call: R.BillingCall, final: nat, w: S.Wire, w': S.Wire,
                               before: seq<Event>, between: seq<Event>)
    requires r in s.tracks && !s.tracks[r].handlerDone
    requires Run(c, s, before).Some? && AllElsewhere(before, r) && AllElsewhere(between, r)
    requires CallInTime(c, Run(c, s, before).value, call, r, final, w)
    requires var s1, ev := Run(c, s, before).value, EventOf(call, r, final, w); Enabled(c, s1, ev) ==> Run(c, Next(c, s1, ev), between).Some?
    ensures var evs := before + [EventOf(call, r, final, w)] + between;
      var s1, s3 := Run(c, s, before).value, Run(c, s, evs);
      && r in s1.tracks && s1.tracks[r] == s.tracks[r]
      && s3.Some? && r in s3.value.tracks && s3.value.tracks[r] == Next(c, s1, EventOf(call, r, final, w)).tracks[r]
      && Run(c, s, evs + [RefundCall(r, w')]).Some?
  {
    var ev := EventOf(call, r, final, w);
    ElsewhereKeepsTrack(c, s, before, r);
    var s1 := Run(c, s, before).value;
    CallEndsHandler(c, s1, call, r, final, w);
    Extend(c, s, before, s1, ev);
    RunConcat(c, s, before + [ev], between);
    ElsewhereKeepsTrack(c, Next(c, s1, ev), between, r);
    Extend(c, s, before + [ev] + between, Run(c, s, before + [ev] + between).value, RefundCall(r, w'));
  }
}
