/**
  The daily counters that the limits are checked against: in every run they are the ledger
  grouped by day, for users and for keys.
 */
module DayTotals {
  import opened Outcomes
  import opened Ledger
  import opened Acceptance
  import opened Protocol
  import opened ProtocolRuns

  /** The entries picked, of one day. */
  function DayTotal(l: seq<Entry>, sel: Selector, dayOf: Time -> Day, d: Day): int {
    if l == [] then 0
    else
      var e := l[|l| - 1];
      DayTotal(l[..|l| - 1], sel, dayOf, d) + if Picks(sel, e) && dayOf(e.createdAt) == d then e.amount else 0
  }

  lemma DayTotalAppend(l: seq<Entry>, e: Entry, sel: Selector, dayOf: Time -> Day, d: Day)
    ensures DayTotal(l + [e], sel, dayOf, d) == DayTotal(l, sel, dayOf, d) + if Picks(sel, e) && dayOf(e.createdAt) == d then e.amount else 0
  {
    assert (l + [e])[..|l|] == l;
  }

  /** A user's counter of a day is minus the user's calls of that day. */
  predicate UserDayMatches(b: Book, dayOf: Time -> Day, u: UserId, d: Day) {
    Lookup(b.userDays, (u, d)) == -DayTotal(b.ledger, CallsOfUser(u), dayOf, d)
  }

  predicate KeyDayMatches(b: Book, dayOf: Time -> Day, k: KeyId, d: Day) {
    Lookup(b.keyDays, (k, d)) == -DayTotal(b.ledger, ByKey(k), dayOf, d)
  }

  /** Spending is booked for calls, and a call's entry names the key that pays. */
  predicate Shaped(adj: Adjustment) {
    adj.affectsUsed == IsCall(adj.entryType) == adj.refType.ApiKeyRef? && (adj.affectsUsed ==> adj.refId == adj.keyId)
  }

  lemma ApplyTxKeepsUserDay(b: Book, adj: Adjustment, dayOf: Time -> Day, now: Time, u: UserId, d: Day)
    requires Shaped(adj) && UserDayMatches(b, dayOf, u, d)
    ensures UserDayMatches(ApplyTx(b, adj, dayOf(now), now).book, dayOf, u, d)
  {
    if ApplyTx(b, adj, dayOf(now), now).reply.Accepted? {
      EntryAfter(b, adj, dayOf(now), now);
      UserDaysAfter(b, adj, dayOf(now), now, u, d);
      DayTotalAppend(b.ledger, ApplyTx(b, adj, dayOf(now), now).reply.entry, CallsOfUser(u), dayOf, d);
    } else {
      RefusedLeaves(b, adj, dayOf(now), now);
    }
  }

  lemma ApplyTxKeepsKeyDay(b: Book, adj: Adjustment, dayOf: Time -> Day, now: Time, k: KeyId, d: Day)
    requires Shaped(adj) && k != 0 && KeyDayMatches(b, dayOf, k, d)
    ensures KeyDayMatches(ApplyTx(b, adj, dayOf(now), now).book, dayOf, k, d)
  {
    if ApplyTx(b, adj, dayOf(now), now).reply.Accepted? {
      EntryAfter(b, adj, dayOf(now), now);
      KeyDaysAfter(b, adj, dayOf(now), now, k, d);
      DayTotalAppend(b.ledger, ApplyTx(b, adj, dayOf(now), now).reply.entry, ByKey(k), dayOf, d);
    } else {
      RefusedLeaves(b, adj, dayOf(now), now);
    }
  }

  predicate AllShaped(late: set<Adjustment>) { forall adj :: adj in late ==> Shaped(adj) }

  lemma SentIsShaped(c: Config, s: State, ev: Event)
    requires Enabled(c, s, ev) && AllShaped(s.late) && SentBy(s, ev).Some?
    ensures Shaped(SentBy(s, ev).value)
  {
  }

  lemma NextLate(c: Config, s: State, ev: Event)
    requires Enabled(c, s, ev)
    ensures var sent := SentBy(s, ev); Next(c, s, ev).late <= s.late + if sent.Some? then {sent.value} else {}
  {
  }

  lemma NextKeepsShaped(c: Config, s: State, ev: Event)
    requires Enabled(c, s, ev) && AllShaped(s.late)
    ensures AllShaped(Next(c, s, ev).late)
  {
    NextLate(c, s, ev);
    if SentBy(s, ev).Some? {
      SentIsShaped(c, s, ev);
    }
  }

  lemma NextKeepsDayTotals(c: Config, s: State, ev: Event, u: UserId, k: KeyId, d: Day)
    requires Enabled(c, s, ev) && AllShaped(s.late) && k != 0
    requires UserDayMatches(s.book, c.dayOf, u, d) && KeyDayMatches(s.book, c.dayOf, k, d)
    ensures UserDayMatches(Next(c, s, ev).book, c.dayOf, u, d) && KeyDayMatches(Next(c, s, ev).book, c.dayOf, k, d)
  {
    NextBook(c, s, ev);
    if SentBy(s, ev).Some? {
      SentIsShaped(c, s, ev);
      ApplyTxKeepsUserDay(s.book, SentBy(s, ev).value, c.dayOf, s.clock, u, d);
      ApplyTxKeepsKeyDay(s.book, SentBy(s, ev).value, c.dayOf, s.clock, k, d);
    }
  }

  /** In every state of every run the counter of a user or a key for a day is what its calls of that day cost. */
  lemma {:induction false} CountersAreDayTotals(c: Config, s: State, evs: seq<Event>, u: UserId, k: KeyId, d: Day)
    requires Initial(s) && Run(c, s, evs).Some? && k != 0
    ensures var n := Run(c, s, evs).value;
      && AllShaped(n.late)
      && Lookup(n.book.userDays, (u, d)) == -DayTotal(n.book.ledger, CallsOfUser(u), c.dayOf, d)
      && Lookup(n.book.keyDays, (k, d)) == -DayTotal(n.book.ledger, ByKey(k), c.dayOf, d)
  {
    if evs != [] {
      var front, ev := evs[..|evs| - 1], evs[|evs| - 1];
      CountersAreDayTotals(c, s, front, u, k, d);
      NextKeepsShaped(c, Run(c, s, front).value, ev);
      NextKeepsDayTotals(c, Run(c, s, front).value, ev, u, k, d);
    }
  }
}
