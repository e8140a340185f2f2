/**
  What a handler's two billing calls leave in the books: a settled call one settle entry and
  no refund, a refunded call one refund and no settle, and the balance each is due.
 */
module Payment {
  import opened Outcomes
  import opened Ledger
  import opened Acceptance
  import opened Protocol
  import S = Session

  /** No entry of the type is new under the request. */
  predicate NoneAdded(l: seq<Entry>, l': seq<Entry>, r: string, t: EntryType) { HasEntry(l', r, t) ==> HasEntry(l, r, t) }

  lemma ThroughAdds(w: S.Wire, b: Book, adj: Adjustment, day: Day, now: Time, t: EntryType)
    requires t != adj.entryType
    ensures NoneAdded(b.ledger, S.Through(w, b, adj, day, now).ledger, adj.requestId, t)
  {
    if S.Executes(w) && ApplyTx(b, adj, day, now).reply.Accepted? {
      EntryAfter(b, adj, day, now);
      HasEntryAppend(b.ledger, ApplyTx(b, adj, day, now).reply.entry, adj.requestId, t);
    }
  }

  /** A write that needs no room ends in the ledger, now if it was not there before. */
  lemma ThroughLeaves(w: S.Wire, b: Book, adj: Adjustment, day: Day, now: Time)
    requires S.Executes(w) && !adj.prechargeMode && adj.dailyLimit == adj.keyDailyLimit == 0 && adj.requestId != ""
    requires adj.userId in b.users && (adj.clampToBalance || b.users[adj.userId].balance + adj.amount >= 0)
    ensures HasEntry(S.Through(w, b, adj, day, now).ledger, adj.requestId, adj.entryType)
  {
    OtherAcceptedIff(b, adj, day, now);
    if ApplyTx(b, adj, day, now).reply.Accepted? {
      EntryAfter(b, adj, day, now);
      HasEntryAppend(b.ledger, ApplyTx(b, adj, day, now).reply.entry, adj.requestId, adj.entryType);
    }
  }

  /** The balance afterwards, if the write is executed and its kind is new for the request. */
  lemma ThroughMoves(w: S.Wire, b: Book, adj: Adjustment, day: Day, now: Time)
    requires S.Executes(w) && !adj.prechargeMode && adj.dailyLimit == adj.keyDailyLimit == 0 && adj.requestId != ""
    requires adj.userId in b.users && (adj.clampToBalance || b.users[adj.userId].balance + adj.amount >= 0)
    requires !HasEntry(b.ledger, adj.requestId, adj.entryType)
    ensures var b' := S.Through(w, b, adj, day, now);
      adj.userId in b'.users && b'.users[adj.userId].balance == b.users[adj.userId].balance + Taken(b.users[adj.userId].balance, adj)
  {
    OtherAcceptedIff(b, adj, day, now);
    UserRowAfter(b, adj, day, now);
  }

  // ---- A call's settle or refund, and the refund asked for when the handler returns ----

  predicate Outstanding(s: State, r: string) {
    && r in s.tracks && r != "" && s.tracks[r].session.phase.Precharged? && s.tracks[r].session.requestId == r && s.tracks[r].session.precharged >= 0
    && s.tracks[r].session.userId in s.book.users && s.book.users[s.tracks[r].session.userId].balance >= 0
  }

  function Waited(s: State, wait: nat): State { s.(clock := s.clock + wait) }

  /** After a settle, whatever came of it, the closing call writes nothing. */
  lemma ClosingSettled(c: Config, s: State, r: string, final: nat, w: S.Wire, wait: nat, w': S.Wire)
    requires Outstanding(s, r) && Enabled(c, s, SettleCall(r, final, w))
    ensures var s2 := Waited(Next(c, s, SettleCall(r, final, w)), wait);
      && Enabled(c, s2, RefundCall(r, w'))
      && Next(c, s2, RefundCall(r, w')).book == S.Through(w, s.book, S.SettleAdj(s.tracks[r].session, final), c.dayOf(s.clock), s.clock)
  {
  }

  function RefundFor(s: State, r: string): Adjustment
    requires r in s.tracks
  {
    S.RefundAdj(s.tracks[r].session.userId, s.tracks[r].session.keyId, r, s.tracks[r].session.precharged)
  }

  /** After a refund that was not confirmed the closing call asks for it again. */
  lemma ClosingRefunded(c: Config, s: State, r: string, w: S.Wire, wait: nat, w': S.Wire)
    requires Outstanding(s, r)
    ensures var s2 := Waited(Next(c, s, RefundCall(r, w)), wait);
      var adj, b2 := RefundFor(s, r), S.Through(w, s.book, RefundFor(s, r), c.dayOf(s.clock), s.clock);
      && Enabled(c, s2, RefundCall(r, w'))
      && Next(c, s2, RefundCall(r, w')).book ==
           if s.tracks[r].session.precharged == 0 then s.book
           else if S.Booked(S.Report(w, s.book, adj, c.dayOf(s.clock), s.clock)) then b2
           else S.Through(w', b2, adj, c.dayOf(s2.clock), s2.clock)
  {
  }

  /** Settled: one settle entry and no refund, and the whole call costs its final price or the balance there was. */
  ghost predicate SettledTerms(b: Book, b': Book, r: string, user: UserId, precharged: nat, final: nat) {
    && user in b.users && user in b'.users
    && HasEntry(b'.ledger, r, SettleAdjust) && NoneAdded(b.ledger, b'.ledger, r, EntryType.Refund)
    && (!HasEntry(b.ledger, r, SettleAdjust) ==> b'.users[user].balance == Max(b.users[user].balance + precharged - final, 0))
  }

  lemma ThroughKeepsUsers(w: S.Wire, b: Book, adj: Adjustment, day: Day, now: Time)
    ensures S.Through(w, b, adj, day, now).users.Keys == b.users.Keys
  {
    if S.Executes(w) {
      if ApplyTx(b, adj, day, now).reply.Accepted? {
        UserRowAfter(b, adj, day, now);
      } else {
        RefusedLeaves(b, adj, day, now);
      }
    }
  }

  lemma SettledLeaves(c: Config, s: State, r: string, final: nat, w: S.Wire, wait: nat, w': S.Wire)
    requires Outstanding(s, r) && Enabled(c, s, SettleCall(r, final, w))
    ensures var session := s.tracks[r].session;
      var b' := Next(c, Waited(Next(c, s, SettleCall(r, final, w)), wait), RefundCall(r, w')).book;
      if S.Executes(w) then SettledTerms(s.book, b', r, session.userId, session.precharged, final) else b' == s.book
  {
    ClosingSettled(c, s, r, final, w, wait, w');
    var adj := S.SettleAdj(s.tracks[r].session, final);
    if S.Executes(w) {
      ThroughKeepsUsers(w, s.book, adj, c.dayOf(s.clock), s.clock);
      ThroughAdds(w, s.book, adj, c.dayOf(s.clock), s.clock, EntryType.Refund);
      ThroughLeaves(w, s.book, adj, c.dayOf(s.clock), s.clock);
      if !HasEntry(s.book.ledger, r, SettleAdjust) {
        ThroughMoves(w, s.book, adj, c.dayOf(s.clock), s.clock);
      }
    }
  }

  /** Refunded: one refund entry and no settle, and the precharge is back. */
  ghost predicate RefundedTerms(b: Book, b': Book, r: string, user: UserId, precharged: nat) {
    && user in b.users && user in b'.users
    && (precharged > 0 ==> HasEntry(b'.ledger, r, EntryType.Refund)) && NoneAdded(b.ledger, b'.ledger, r, SettleAdjust)
    && (!HasEntry(b.ledger, r, EntryType.Refund) ==> b'.users[user].balance == b.users[user].balance + precharged)
  }

  lemma OneRefund(w: S.Wire, b: Book, adj: Adjustment, day: Day, now: Time, user: UserId, key: KeyId, r: string, amount: nat)
    requires adj == S.RefundAdj(user, key, r, amount) && amount > 0 && r != "" && user in b.users && b.users[user].balance >= 0 && S.Executes(w)
    ensures RefundedTerms(b, S.Through(w, b, adj, day, now), r, user, amount)
  {
    ThroughKeepsUsers(w, b, adj, day, now);
    ThroughAdds(w, b, adj, day, now, SettleAdjust);
    ThroughLeaves(w, b, adj, day, now);
    if !HasEntry(b.ledger, r, EntryType.Refund) {
      ThroughMoves(w, b, adj, day, now);
    }
  }

  /** Asking again for a refund that is booked changes nothing. */
  lemma RefundAgain(w: S.Wire, b: Book, adj: Adjustment, day: Day, now: Time)
    requires !adj.prechargeMode && adj.requestId != "" && HasEntry(b.ledger, adj.requestId, adj.entryType)
    ensures S.Through(w, b, adj, day, now) == b
  {
    if S.Executes(w) && ApplyTx(b, adj, day, now).reply.Accepted? {
      NewIsNotDuplicate(b.ledger, adj);
    }
  }

  /** Of two refunds asked for, the second only where the first was not confirmed, one is booked if any is carried out. */
  lemma TwoRefunds(w: S.Wire, w': S.Wire, b: Book, day: Day, now: Time, day': Day, now': Time, user: UserId, key: KeyId, r: string, amount: nat)
    requires amount > 0 && r != "" && user in b.users && b.users[user].balance >= 0
    ensures var adj := S.RefundAdj(user, key, r, amount);
      var b2 := S.Through(w, b, adj, day, now);
      var b' := if S.Booked(S.Report(w, b, adj, day, now)) then b2 else S.Through(w', b2, adj, day', now');
      if S.Executes(w) || S.Executes(w') then RefundedTerms(b, b', r, user, amount) else b' == b
  {
    var adj := S.RefundAdj(user, key, r, amount);
    if S.Executes(w) {
      OneRefund(w, b, adj, day, now, user, key, r, amount);
      RefundAgain(w', S.Through(w, b, adj, day, now), adj, day', now');
    } else if S.Executes(w') {
      OneRefund(w', b, adj, day', now', user, key, r, amount);
    }
  }

  lemma RefundedLeaves(c: Config, s: State, r: string, w: S.Wire, wait: nat, w': S.Wire)
    requires Outstanding(s, r)
    ensures var session := s.tracks[r].session;
      var b' := Next(c, Waited(Next(c, s, RefundCall(r, w)), wait), RefundCall(r, w')).book;
      if S.Executes(w) || S.Executes(w') || session.precharged == 0
      then RefundedTerms(s.book, b', r, session.userId, session.precharged) else b' == s.book
  {
    ClosingRefunded(c, s, r, w, wait, w');
    var session := s.tracks[r].session;
    if session.precharged > 0 {
      TwoRefunds(w, w', s.book, c.dayOf(s.clock), s.clock, c.dayOf(s.clock + wait), s.clock + wait,
                 session.userId, session.keyId, r, session.precharged);
    }
  }

  // ---- When a session's settle or refund is confirmed ----

  /** A settle is confirmed exactly when its reply arrives and the account exists; otherwise it has failed, for good. */
  lemma SettledIff(session: S.State, b: Book, final: int, w: S.Wire, day: Day, now: Time)
    ensures var seen := S.Report(w, b, S.SettleAdj(session, final), day, now);
      S.AfterSettle(session, seen) == session.(phase := if w == S.Delivered && session.userId in b.users then S.Settled else S.SettleFailed)
  {
    OtherAcceptedIff(b, S.SettleAdj(session, final), day, now);
  }

  /** A refund is confirmed exactly when its reply arrives and the account exists; otherwise it may be asked for again. */
  lemma RefundedIff(session: S.State, b: Book, w: S.Wire, day: Day, now: Time)
    requires session.userId in b.users ==> b.users[session.userId].balance + session.precharged >= 0
    ensures var seen := S.Report(w, b, S.RefundAdj(session.userId, session.keyId, session.requestId, session.precharged), day, now);
      S.AfterRefund(session, seen) == if w == S.Delivered && session.userId in b.users then session.(phase := S.Refunded) else session
  {
    OtherAcceptedIff(b, S.RefundAdj(session.userId, session.keyId, session.requestId, session.precharged), day, now);
  }

  // ---- When a call starts ----

  /** A call starts exactly when its confirmation arrives and the balance, the key and both days have room for its cost. */
  lemma StartsIff(c: Config, s: State, ev: Event)
    requires ev.StartCall? && Enabled(c, s, ev) && ev.requestId !in s.tracks
    ensures ev.requestId in Next(c, s, ev).tracks <==>
      var b, key, day := s.book, s.book.keys[ev.keyId], c.dayOf(s.clock);
      && ev.wire.Delivered? && key.owner in b.users && b.users[key.owner].balance >= ev.cost
      && (ev.keyId != 0 && key.limit.Some? ==> key.used + ev.cost <= key.limit.value)
      && (ev.cost > 0 && ev.dailyLimit > 0 ==> Lookup(b.userDays, (key.owner, day)) + ev.cost <= ev.dailyLimit)
      && (ev.cost > 0 && ev.keyId != 0 && ev.keyDailyLimit > 0 ==> Lookup(b.keyDays, (ev.keyId, day)) + ev.cost <= ev.keyDailyLimit)
      && NewRequest(b.ledger, ev.requestId, Consume)
  {
    PrechargeAcceptedIff(s.book, S.PrechargeAdj(NewSession(s, ev), ev.cost), c.dayOf(s.clock), s.clock);
  }

  /** It then has exactly its cost taken from its key's owner, as one consume entry of its key. */
  lemma StartedLeaves(c: Config, s: State, ev: Event)
    requires ev.StartCall? && Enabled(c, s, ev) && ev.requestId !in s.tracks && ev.requestId in Next(c, s, ev).tracks
    ensures var s', owner := Next(c, s, ev), s.book.keys[ev.keyId].owner;
      && Outstanding(s', ev.requestId) && s'.tracks[ev.requestId].session.userId == owner
      && s'.tracks[ev.requestId].session.precharged == ev.cost && !s'.tracks[ev.requestId].handlerDone
      && owner in s.book.users && s'.book.users[owner].balance == s.book.users[owner].balance - ev.cost
      && s'.book.ledger == s.book.ledger + [Entry(owner, Consume, 0 - ev.cost, s.book.users[owner].balance - ev.cost, ApiKeyRef, ev.keyId, ev.requestId, s.clock)]
  {
    var adj := S.PrechargeAdj(NewSession(s, ev), ev.cost);
    UserRowAfter(s.book, adj, c.dayOf(s.clock), s.clock);
    EntryAfter(s.book, adj, c.dayOf(s.clock), s.clock);
    StartsIff(c, s, ev);
  }
}
