/**
  The billing protocol as a state machine: any number of requests, cleanups, grants,
  redemptions and key edits interleaved, where every write may be lost, may lose its
  reply, or may commit after its caller has given up.

  A request's handler calls Settle at most once and returns after the first Settle or
  Refund it calls; Refund may be called again when the handler returns.
 */
module Protocol {
  import opened Outcomes
  import opened Ledger
  import opened AccountInvariants
  import opened CallCharges
  import opened CallCommits
  import S = Session
  import B = BillingService

  /** Times in one unit; `dayOf` maps a time to the day its spending counts for. */
  datatype Config = Config(upstream: nat, window: nat, threshold: nat, dayOf: Time -> Day)

  /** The start-up check: refuses to serve unless the upstream timeout plus the write window stays below the threshold. */
  predicate StartupAccepts(upstreamSeconds: int, second: int, threshold: int, window: int) {
    !(upstreamSeconds * second + window >= threshold)
  }

  /** The weakest condition under which no call gets two outcomes; see `OneOutcomeIffSafe`. */
  predicate Safe(c: Config) { c.upstream + c.window <= c.threshold }

  /** A request whose precharge was confirmed. */
  datatype Track = Track(session: S.State, handlerDone: bool, final: Option<nat>, refundCalled: bool)

  datatype State = State(
    book: Book, clock: Time, tracks: map<string, Track>,
    late: set<Adjustment>, scanned: set<S.Orphan>)

  datatype Event =
    | StartCall(requestId: string, keyId: KeyId, cost: nat, dailyLimit: int, keyDailyLimit: int, wire: S.Wire)
    | SettleCall(requestId: string, final: nat, wire: S.Wire)
    | RefundCall(requestId: string, wire: S.Wire)
    | CommitLate(adj: Adjustment)
    | Scan
    | RefundOrphan(orphan: S.Orphan, wire: S.Wire)
    | GrantTo(user: UserId, amount: int, actor: int, key: string)
    | RedeemCode(user: UserId, code: B.Redemption)
    | EditKey(keyId: KeyId, limit: Option<nat>, status: KeyStatus)
    | Advance(delta: nat)

  /** The timing hypothesis: a settle commits within the upstream timeout plus the write window of its consume. */
  predicate InTime(c: Config, s: State, adj: Adjustment) {
    adj.entryType.SettleAdjust? ==>
      var e := Find(s.book.ledger, adj.requestId, Consume);
      e.Some? && s.clock <= e.value.createdAt + c.upstream + c.window
  }

  predicate Enabled(c: Config, s: State, ev: Event) {
    match ev
    case StartCall(r, k, _, _, _, _) => r != "" && k in s.book.keys
    case SettleCall(r, final, w) =>
      r in s.tracks && !s.tracks[r].handlerDone && (S.Executes(w) ==> InTime(c, s, S.SettleAdj(s.tracks[r].session, final)))
    case RefundCall(r, _) => r in s.tracks
    case CommitLate(adj) => adj in s.late && InTime(c, s, adj)
    case RefundOrphan(o, _) => o in s.scanned
    case GrantTo(_, amount, _, _) => amount != 0
    case EditKey(k, _, _) => k in s.book.keys
    case _ => true
  }

  function Commit(c: Config, s: State, adj: Adjustment): State {
    s.(book := ApplyTx(s.book, adj, c.dayOf(s.clock), s.clock).book)
  }

  /** A write sent over the wire: executed now, kept for later, or lost. */
  function Send(c: Config, s: State, adj: Adjustment, w: S.Wire): State {
    if S.Executes(w) then Commit(c, s, adj) else if w.Delayed? then s.(late := s.late + {adj}) else s
  }

  function Seen(c: Config, s: State, adj: Adjustment, w: S.Wire): S.Seen {
    S.Report(w, s.book, adj, c.dayOf(s.clock), s.clock)
  }

  function Elements(os: seq<S.Orphan>): set<S.Orphan> { set i | 0 <= i < |os| :: os[i] }

  function NewSession(s: State, ev: Event): S.State
    requires ev.StartCall? && ev.keyId in s.book.keys
  {
    S.State(S.Init, ev.requestId, s.book.keys[ev.keyId].owner, ev.keyId, 0, ev.dailyLimit, ev.keyDailyLimit)
  }

  function Next(c: Config, s: State, ev: Event): State
    requires Enabled(c, s, ev)
  {
    match ev
    case StartCall(r, _, cost, _, _, w) =>
      var session := NewSession(s, ev);
      var adj := S.PrechargeAdj(session, cost);
      var after := S.AfterPrecharge(session, cost, Seen(c, s, adj, w));
      var s' := Send(c, s, adj, w);
      if after.phase.Precharged? then s'.(tracks := s'.tracks[r := Track(after, false, None, false)]) else s'
    case SettleCall(r, final, w) =>
      var t := s.tracks[r];
      if !t.session.phase.Precharged? then s.(tracks := s.tracks[r := t.(handlerDone := true)])
      else
        var adj := S.SettleAdj(t.session, final);
        var after := S.AfterSettle(t.session, Seen(c, s, adj, w));
        Send(c, s.(tracks := s.tracks[r := Track(after, true, Some(final), t.refundCalled)]), adj, w)
    case RefundCall(r, w) =>
      var t := s.tracks[r];
      if !t.session.phase.Precharged? then s.(tracks := s.tracks[r := t.(handlerDone := true)])
      else if t.session.precharged == 0 then
        s.(tracks := s.tracks[r := Track(t.session.(phase := S.Refunded), true, t.final, true)])
      else
        var adj := S.RefundAdj(t.session.userId, t.session.keyId, r, t.session.precharged);
        var after := S.AfterRefund(t.session, Seen(c, s, adj, w));
        Send(c, s.(tracks := s.tracks[r := Track(after, true, t.final, true)]), adj, w)
    case CommitLate(adj) => Commit(c, s, adj)
    case Scan => s.(scanned := s.scanned + Elements(S.OrphansAmong(s.book.ledger, s.book.ledger, s.clock - c.threshold)))
    case RefundOrphan(o, w) => if o.amount < 0 then s else Send(c, s, S.OrphanRefund(o), w)
    case GrantTo(user, amount, actor, key) => Commit(c, s, B.GrantAdjustment(user, amount, actor, key))
    case RedeemCode(user, code) => Commit(c, s, B.RedeemAdjustment(user, code))
    case EditKey(k, limit, status) =>
      s.(book := s.book.(keys := s.book.keys[k := s.book.keys[k].(limit := limit, status := status)]))
    case Advance(delta) => s.(clock := s.clock + delta)
  }

  // ---- Runs ----

  ghost predicate Initial(s: State) {
    && Fresh(s.book) && (forall k :: k in s.book.keys ==> k != 0)
    && s.tracks == map[] && s.late == {} && s.scanned == {}
  }

  /** The state after the events, each enabled where it happens; `None` when one is not. */
  function Run(c: Config, s: State, evs: seq<Event>): Option<State> {
    if evs == [] then Some(s)
    else
      var before := Run(c, s, evs[..|evs| - 1]);
      if before.None? || !Enabled(c, before.value, evs[|evs| - 1]) then None
      else Some(Next(c, before.value, evs[|evs| - 1]))
  }

  // ---- The invariant ----

  ghost predicate TrackOk(s: State, r: string)
    requires r in s.tracks
  {
    var t := s.tracks[r];
    var e := Find(s.book.ledger, r, Consume);
    && r != "" && t.session.requestId == r && t.session.precharged >= 0 && !t.session.phase.Init?
    && e.Some? && e.value.userId == t.session.userId && e.value.refId == t.session.keyId && e.value.amount == -t.session.precharged
    && (!t.handlerDone ==> t.session.phase.Precharged? && !t.refundCalled)
    && (t.final.Some? ==> t.handlerDone && !t.refundCalled && !t.session.phase.Precharged?)
    && (t.refundCalled ==> t.session.phase.Precharged? || t.session.phase.Refunded?)
  }

  /** The scan's cutoff has passed the call's consume. */
  predicate Aged(c: Config, s: State, r: string) {
    var e := Find(s.book.ledger, r, Consume);
    e.Some? && s.clock > e.value.createdAt + c.threshold
  }

  predicate SettleOf(s: State, adj: Adjustment) {
    adj.requestId in s.tracks && s.tracks[adj.requestId].final.Some?
    && adj == S.SettleAdj(s.tracks[adj.requestId].session, s.tracks[adj.requestId].final.value)
  }

  predicate RefundOf(s: State, adj: Adjustment) {
    adj.requestId in s.tracks && s.tracks[adj.requestId].refundCalled
    && var t := s.tracks[adj.requestId].session; adj == S.RefundAdj(t.userId, t.keyId, adj.requestId, t.precharged)
  }

  ghost predicate ScannedOk(c: Config, s: State, o: S.Orphan) {
    var e := Find(s.book.ledger, o.requestId, Consume);
    && o.requestId != "" && Aged(c, s, o.requestId) && Find(s.book.ledger, o.requestId, SettleAdjust).None?
    && e.value.userId == o.userId && e.value.refId == o.keyId && e.value.amount == -o.amount
  }

  predicate OrphanRefundOf(s: State, adj: Adjustment) {
    exists o :: o in s.scanned && adj == S.OrphanRefund(o)
  }

  /** The writes that may still be in flight, with the fact that licenses each. */
  predicate Licensed(s: State, adj: Adjustment) {
    ConsumeShape(s.book, adj) || SettleOf(s, adj) || RefundOf(s, adj) || OrphanRefundOf(s, adj)
  }

  /** A settle entry books the difference to the final cost, or takes all that was left when that is less. */
  predicate SettledFor(t: Track, e: Entry) {
    t.final.Some? && e.amount == Max(t.session.precharged - t.final.value, -(e.balanceAfter - e.amount))
  }

  ghost predicate OutcomesLicensed(c: Config, s: State) {
    && (forall r: string :: Find(s.book.ledger, r, SettleAdjust).Some? ==>
          r in s.tracks && SettledFor(s.tracks[r], Find(s.book.ledger, r, SettleAdjust).value))
    && (forall r: string :: Find(s.book.ledger, r, Refund).Some? ==>
          (r in s.tracks && s.tracks[r].refundCalled) || Aged(c, s, r))
  }

  ghost predicate Inv(c: Config, s: State) {
    && InOrder(s.book)
    && (forall r :: r in s.tracks ==> TrackOk(s, r))
    && (forall adj :: adj in s.late ==> Licensed(s, adj))
    && (forall o :: o in s.scanned ==> ScannedOk(c, s, o))
    && OutcomesLicensed(c, s)
  }

  // ---- Preservation ----

  /** A licensed terminal write meets a call that does not have the other outcome. */
  lemma LicensedIsTerminal(c: Config, s: State, adj: Adjustment)
    requires Safe(c) && Inv(c, s) && InTime(c, s, adj)
    requires SettleOf(s, adj) || RefundOf(s, adj) || OrphanRefundOf(s, adj)
    ensures TerminalShape(s.book, adj)
  {
    FindIsHasEntry(s.book.ledger, adj.requestId, Consume);
    if SettleOf(s, adj) || RefundOf(s, adj) {
      assert TrackOk(s, adj.requestId);
    } else {
      var o :| o in s.scanned && adj == S.OrphanRefund(o);
      assert ScannedOk(c, s, o);
    }
  }

  lemma CommitInOrder(c: Config, s: State, adj: Adjustment)
    requires Safe(c) && Inv(c, s) && InTime(c, s, adj) && (Licensed(s, adj) || PlainShape(adj))
    ensures InOrder(Commit(c, s, adj).book)
    ensures !FloorTakesEffect(s.book, adj, c.dayOf(s.clock))
  {
    if PlainShape(adj) {
      CommitPlain(s.book, adj, c.dayOf(s.clock), s.clock);
    } else if ConsumeShape(s.book, adj) {
      CommitConsume(s.book, adj, c.dayOf(s.clock), s.clock);
    } else {
      LicensedIsTerminal(c, s, adj);
      CommitTerminal(s.book, adj, c.dayOf(s.clock), s.clock);
    }
  }

  lemma {:induction false} FindStable(l: seq<Entry>, l': seq<Entry>, r: string, t: EntryType)
    requires l <= l'
    ensures Find(l, r, t).Some? ==> Find(l', r, t) == Find(l, r, t)
  {
    if l != l' {
      assert l <= l'[..|l'| - 1];
      FindStable(l, l'[..|l'| - 1], r, t);
    }
  }

  /** Time passes, the ledger grows, tracks and scans stay. */
  ghost predicate Later(s: State, s': State) {
    && s.tracks == s'.tracks && s.scanned == s'.scanned && s.late == s'.late
    && s.book.ledger <= s'.book.ledger && s.clock <= s'.clock
    && s.book.keys.Keys == s'.book.keys.Keys && (forall k :: k in s.book.keys ==> s'.book.keys[k].owner == s.book.keys[k].owner)
  }

  lemma LicensedLater(s: State, s': State, adj: Adjustment)
    requires Later(s, s') && Licensed(s, adj)
    ensures Licensed(s', adj)
  {
  }

  lemma ScannedLater(c: Config, s: State, s': State, o: S.Orphan)
    requires Later(s, s') && ScannedOk(c, s, o)
    requires Find(s'.book.ledger, o.requestId, SettleAdjust).None?
    ensures ScannedOk(c, s', o)
  {
    FindStable(s.book.ledger, s'.book.ledger, o.requestId, Consume);
  }

  lemma LaterKeeps(c: Config, s: State, s': State)
    requires Inv(c, s) && InOrder(s'.book) && Later(s, s') && OutcomesLicensed(c, s')
    requires forall r: string :: Aged(c, s, r) && Find(s.book.ledger, r, SettleAdjust).None? ==> Find(s'.book.ledger, r, SettleAdjust).None?
    ensures Inv(c, s')
  {
    forall r | r in s'.tracks
      ensures TrackOk(s', r)
    {
      assert TrackOk(s, r);
      FindStable(s.book.ledger, s'.book.ledger, r, Consume);
    }
    forall adj | adj in s'.late
      ensures Licensed(s', adj)
    {
      LicensedLater(s, s', adj);
    }
    forall o | o in s'.scanned
      ensures ScannedOk(c, s', o)
    {
      assert ScannedOk(c, s, o);
      ScannedLater(c, s, s', o);
    }
  }

  /** What a terminal entry needs when it is appended: its request's licence, and for a settle that the scan's cutoff has not passed. */
  ghost predicate EntryLicensed(c: Config, s: State, e: Entry) {
    && (e.entryType.SettleAdjust? ==> e.requestId in s.tracks && SettledFor(s.tracks[e.requestId], e) && !Aged(c, s, e.requestId))
    && (e.entryType.Refund? ==> (e.requestId in s.tracks && s.tracks[e.requestId].refundCalled) || Aged(c, s, e.requestId))
  }

  lemma AgedStays(c: Config, s: State, b': Book, r: string)
    requires s.book.ledger <= b'.ledger && Aged(c, s, r)
    ensures Aged(c, s.(book := b'), r)
  {
    FindStable(s.book.ledger, b'.ledger, r, Consume);
  }

  lemma GrowKeepsOutcomes(c: Config, s: State, b': Book, e: Entry)
    requires OutcomesLicensed(c, s) && EntryLicensed(c, s, e) && b'.ledger == s.book.ledger + [e]
    ensures OutcomesLicensed(c, s.(book := b'))
  {
    var l, s' := s.book.ledger, s.(book := b');
    forall r: string | Find(b'.ledger, r, SettleAdjust).Some?
      ensures r in s.tracks && SettledFor(s.tracks[r], Find(b'.ledger, r, SettleAdjust).value)
    {
      FindAppend(l, e, r, SettleAdjust);
    }
    forall r: string | Find(b'.ledger, r, Refund).Some?
      ensures (r in s.tracks && s.tracks[r].refundCalled) || Aged(c, s', r)
    {
      FindAppend(l, e, r, Refund);
      if Aged(c, s, r) {
        AgedStays(c, s, b', r);
      }
    }
  }

  /** The ledger grows by one licensed entry. */
  lemma GrowKeeps(c: Config, s: State, b': Book, e: Entry)
    requires Inv(c, s) && InOrder(b') && b'.ledger == s.book.ledger + [e] && b'.keys.Keys == s.book.keys.Keys
    requires forall k :: k in b'.keys ==> b'.keys[k].owner == s.book.keys[k].owner
    requires EntryLicensed(c, s, e)
    ensures Inv(c, s.(book := b'))
  {
    GrowKeepsOutcomes(c, s, b', e);
    forall r: string | Aged(c, s, r) && Find(s.book.ledger, r, SettleAdjust).None?
      ensures Find(b'.ledger, r, SettleAdjust).None?
    {
      FindAppend(s.book.ledger, e, r, SettleAdjust);
    }
    LaterKeeps(c, s, s.(book := b'));
  }

  lemma SameLedgerKeeps(c: Config, s: State, b': Book)
    requires Inv(c, s) && InOrder(b') && b'.ledger == s.book.ledger && b'.keys.Keys == s.book.keys.Keys
    requires forall k :: k in b'.keys ==> b'.keys[k].owner == s.book.keys[k].owner
    ensures Inv(c, s.(book := b'))
  {
    LaterKeeps(c, s, s.(book := b'));
  }

  lemma TerminalCommitLicensed(c: Config, s: State, adj: Adjustment)
    requires Safe(c) && Inv(c, s) && InTime(c, s, adj)
    requires SettleOf(s, adj) || RefundOf(s, adj) || OrphanRefundOf(s, adj)
    requires adj.userId in s.book.users
    ensures EntryLicensed(c, s, NewEntry(s.book, adj, s.clock))
  {
    LicensedIsTerminal(c, s, adj);
    if !SettleOf(s, adj) && !RefundOf(s, adj) {
      var o :| o in s.scanned && adj == S.OrphanRefund(o);
      assert ScannedOk(c, s, o);
    }
  }

  lemma BookedGrows(b: Book, adj: Adjustment, day: Day, now: Time)
    requires adj.userId in b.users
    ensures var b' := Booked(b, adj, day, now);
      && b'.ledger == b.ledger + [NewEntry(b, adj, now)] && b'.keys.Keys == b.keys.Keys
      && forall k :: k in b'.keys ==> b'.keys[k].owner == b.keys[k].owner
  {
  }

  lemma AcceptedKeeps(c: Config, s: State, adj: Adjustment)
    requires Safe(c) && Inv(c, s) && InTime(c, s, adj) && (Licensed(s, adj) || PlainShape(adj))
    requires adj.userId in s.book.users && InOrder(Booked(s.book, adj, c.dayOf(s.clock), s.clock))
    ensures Inv(c, s.(book := Booked(s.book, adj, c.dayOf(s.clock), s.clock)))
  {
    if IsTerminal(adj.entryType) {
      TerminalCommitLicensed(c, s, adj);
    }
    BookedGrows(s.book, adj, c.dayOf(s.clock), s.clock);
    GrowKeeps(c, s, Booked(s.book, adj, c.dayOf(s.clock), s.clock), NewEntry(s.book, adj, s.clock));
  }

  lemma CommitKeeps(c: Config, s: State, adj: Adjustment)
    requires Safe(c) && Inv(c, s) && InTime(c, s, adj) && (Licensed(s, adj) || PlainShape(adj))
    ensures Inv(c, Commit(c, s, adj))
  {
    CommitInOrder(c, s, adj);
    if Refusal(s.book, adj, c.dayOf(s.clock)).None? {
      AcceptedKeeps(c, s, adj);
    } else {
      SameLedgerKeeps(c, s, Commit(c, s, adj).book);
    }
  }

  lemma ScannedSameBook(c: Config, s: State, s': State)
    requires s'.book == s.book && s'.clock == s.clock
    requires forall o :: o in s.scanned ==> ScannedOk(c, s, o)
    ensures forall o :: o in s.scanned ==> ScannedOk(c, s', o)
  {
    forall o | o in s.scanned
      ensures ScannedOk(c, s', o)
    {
      assert ScannedOk(c, s, o);
    }
  }

  lemma TracksSameBook(s: State, s': State)
    requires s'.book == s.book && s'.tracks == s.tracks
    requires forall r :: r in s.tracks ==> TrackOk(s, r)
    ensures forall r :: r in s'.tracks ==> TrackOk(s', r)
  {
    forall r | r in s'.tracks
      ensures TrackOk(s', r)
    {
      assert TrackOk(s, r);
    }
  }

  lemma LateMore(s: State, s': State)
    requires s'.book == s.book && s.scanned <= s'.scanned && s'.late <= s.late
    requires forall r :: r in s.tracks ==> r in s'.tracks && Advances(s.tracks[r], s'.tracks[r])
    requires forall adj :: adj in s.late ==> Licensed(s, adj)
    ensures forall adj :: adj in s'.late ==> Licensed(s', adj)
  {
    forall adj | adj in s'.late
      ensures Licensed(s', adj)
    {
      LicensedMore(s, s', adj);
    }
  }

  /** A licensed write joins those in flight. */
  lemma DelayKeeps(c: Config, s: State, adj: Adjustment)
    requires Inv(c, s) && Licensed(s, adj)
    ensures Inv(c, s.(late := s.late + {adj}))
  {
    var s' := s.(late := s.late + {adj});
    TracksSameBook(s, s');
    ScannedSameBook(c, s, s');
    forall a | a in s'.late
      ensures Licensed(s', a)
    {
      LicensedMore(s, s', a);
    }
  }

  lemma SendKeeps(c: Config, s: State, adj: Adjustment, w: S.Wire)
    requires Safe(c) && Inv(c, s) && Licensed(s, adj) && (S.Executes(w) ==> InTime(c, s, adj))
    ensures Inv(c, Send(c, s, adj, w))
  {
    if S.Executes(w) {
      CommitKeeps(c, s, adj);
    } else if w.Delayed? {
      DelayKeeps(c, s, adj);
    }
  }

  /** What a handler's step may do to its request's track. */
  ghost predicate Advances(t: Track, t': Track) {
    && t'.session.precharged == t.session.precharged && t'.session.userId == t.session.userId && t'.session.keyId == t.session.keyId
    && t'.session.requestId == t.session.requestId
    && (t.final.Some? ==> t'.final == t.final) && (t.refundCalled ==> t'.refundCalled)
  }

  /** A licence does not lapse when tracks advance and scans accumulate. */
  lemma LicensedMore(s: State, s': State, adj: Adjustment)
    requires Licensed(s, adj) && s'.book == s.book && s.scanned <= s'.scanned
    requires forall r :: r in s.tracks ==> r in s'.tracks && Advances(s.tracks[r], s'.tracks[r])
    ensures Licensed(s', adj)
  {
  }

  lemma OutcomesSameBook(c: Config, s: State, s': State)
    requires OutcomesLicensed(c, s) && s'.book == s.book && s'.clock == s.clock
    requires forall r :: r in s.tracks ==> r in s'.tracks && Advances(s.tracks[r], s'.tracks[r])
    ensures OutcomesLicensed(c, s')
  {
  }

  lemma OtherTracksOk(s: State, s': State, r: string)
    requires s'.book == s.book && s'.tracks.Keys == s.tracks.Keys + {r} && TrackOk(s', r)
    requires forall q :: q in s.tracks && q != r ==> s'.tracks[q] == s.tracks[q] && TrackOk(s, q)
    ensures forall q :: q in s'.tracks ==> TrackOk(s', q)
  {
    forall q | q in s'.tracks
      ensures TrackOk(s', q)
    {
      assert q != r ==> TrackOk(s, q);
    }
  }

  lemma TrackKeeps(c: Config, s: State, r: string, t': Track)
    requires Inv(c, s) && (r in s.tracks ==> Advances(s.tracks[r], t'))
    requires TrackOk(s.(tracks := s.tracks[r := t']), r)
    ensures Inv(c, s.(tracks := s.tracks[r := t']))
  {
    var s' := s.(tracks := s.tracks[r := t']);
    OtherTracksOk(s, s', r);
    ScannedSameBook(c, s, s');
    OutcomesSameBook(c, s, s');
    LateMore(s, s');
  }

  lemma StartCallKeeps(c: Config, s: State, ev: Event)
    requires Safe(c) && Inv(c, s) && ev.StartCall? && Enabled(c, s, ev)
    ensures Inv(c, Next(c, s, ev))
  {
    var r, session := ev.requestId, NewSession(s, ev);
    var adj := S.PrechargeAdj(session, ev.cost);
    SendKeeps(c, s, adj, ev.wire);
    if S.AfterPrecharge(session, ev.cost, Seen(c, s, adj, ev.wire)).phase.Precharged? {
      CommitConsume(s.book, adj, c.dayOf(s.clock), s.clock);
      FindAppend(s.book.ledger, NewEntry(s.book, adj, s.clock), r, Consume);
      assert r in s.tracks ==> TrackOk(s, r);
      TrackKeeps(c, Send(c, s, adj, ev.wire), r, Track(S.AfterPrecharge(session, ev.cost, Seen(c, s, adj, ev.wire)), false, None, false));
    }
  }

  lemma SettleCallKeeps(c: Config, s: State, ev: Event)
    requires Safe(c) && Inv(c, s) && ev.SettleCall? && Enabled(c, s, ev)
    ensures Inv(c, Next(c, s, ev))
  {
    var t := s.tracks[ev.requestId];
    assert TrackOk(s, ev.requestId);
    var adj := S.SettleAdj(t.session, ev.final);
    var t' := Track(S.AfterSettle(t.session, Seen(c, s, adj, ev.wire)), true, Some(ev.final), t.refundCalled);
    TrackKeeps(c, s, ev.requestId, t');
    SendKeeps(c, s.(tracks := s.tracks[ev.requestId := t']), adj, ev.wire);
  }

  lemma RefundCallKeeps(c: Config, s: State, ev: Event)
    requires Safe(c) && Inv(c, s) && ev.RefundCall? && Enabled(c, s, ev)
    ensures Inv(c, Next(c, s, ev))
  {
    var r := ev.requestId;
    var t := s.tracks[r];
    assert TrackOk(s, r);
    if !t.session.phase.Precharged? {
      TrackKeeps(c, s, r, t.(handlerDone := true));
    } else if t.session.precharged == 0 {
      TrackKeeps(c, s, r, Track(t.session.(phase := S.Refunded), true, t.final, true));
    } else {
      var adj := S.RefundAdj(t.session.userId, t.session.keyId, r, t.session.precharged);
      var t' := Track(S.AfterRefund(t.session, Seen(c, s, adj, ev.wire)), true, t.final, true);
      TrackKeeps(c, s, r, t');
      SendKeeps(c, s.(tracks := s.tracks[r := t']), adj, ev.wire);
    }
  }

  /** What a scan reports of a call: its consume, past the cutoff, with no settle beside it. */
  lemma OrphanIsItsConsume(l: seq<Entry>, cutoff: Time, o: S.Orphan)
    requires UniqueEntries(l) && o in S.OrphansAmong(l, l, cutoff)
    ensures o.requestId != "" && Find(l, o.requestId, SettleAdjust).None?
    ensures var e := Find(l, o.requestId, Consume); e.Some? && e.value.createdAt < cutoff && o == S.OrphanOf(e.value)
  {
    var i := S.OrphanIsAmong(l, l, cutoff, o);
    FindOnly(l, i);
    FindIsHasEntry(l, o.requestId, SettleAdjust);
  }

  lemma OrphanIsScannedOk(c: Config, s: State, o: S.Orphan)
    requires UniqueEntries(s.book.ledger) && o in S.OrphansAmong(s.book.ledger, s.book.ledger, s.clock - c.threshold)
    ensures ScannedOk(c, s, o)
  {
    OrphanIsItsConsume(s.book.ledger, s.clock - c.threshold, o);
  }

  lemma ScanKeeps(c: Config, s: State)
    requires Inv(c, s)
    ensures Inv(c, Next(c, s, Scan))
  {
    var s' := Next(c, s, Scan);
    TracksSameBook(s, s');
    ScannedSameBook(c, s, s');
    OutcomesSameBook(c, s, s');
    LateMore(s, s');
    forall o | o in s'.scanned && o !in s.scanned
      ensures ScannedOk(c, s', o)
    {
      OrphanIsScannedOk(c, s, o);
    }
  }

  /** With no two entries of one type per request, looking an entry up finds it. */
  lemma {:induction false} FindOnly(l: seq<Entry>, i: nat)
    requires i < |l| && UniqueEntries(l) && l[i].requestId != ""
    ensures Find(l, l[i].requestId, l[i].entryType) == Some(l[i])
  {
    var n := |l| - 1;
    if i < n {
      FindOnly(l[..n], i);
    } else {
      FindIsHasEntry(l[..n], l[n].requestId, l[n].entryType);
    }
  }

  lemma EditKeyKeeps(c: Config, s: State, ev: Event)
    requires Inv(c, s) && ev.EditKey? && Enabled(c, s, ev)
    ensures Inv(c, Next(c, s, ev))
  {
    SameLedgerInOrder(s.book, Next(c, s, ev).book);
    SameLedgerKeeps(c, s, Next(c, s, ev).book);
  }

  lemma AdvanceKeeps(c: Config, s: State, ev: Event)
    requires Inv(c, s) && ev.Advance?
    ensures Inv(c, Next(c, s, ev))
  {
    LaterKeeps(c, s, Next(c, s, ev));
  }

  lemma RefundOrphanKeeps(c: Config, s: State, ev: Event)
    requires Safe(c) && Inv(c, s) && ev.RefundOrphan? && Enabled(c, s, ev)
    ensures Inv(c, Next(c, s, ev))
  {
    if ev.orphan.amount >= 0 {
      SendKeeps(c, s, S.OrphanRefund(ev.orphan), ev.wire);
    }
  }

  lemma NextKeeps(c: Config, s: State, ev: Event)
    requires Safe(c) && Inv(c, s) && Enabled(c, s, ev)
    ensures Inv(c, Next(c, s, ev))
  {
    match ev
    case StartCall(_, _, _, _, _, _) => StartCallKeeps(c, s, ev);
    case SettleCall(_, _, _) => SettleCallKeeps(c, s, ev);
    case RefundCall(_, _) => RefundCallKeeps(c, s, ev);
    case CommitLate(adj) => CommitKeeps(c, s, adj);
    case Scan => ScanKeeps(c, s);
    case RefundOrphan(_, _) => RefundOrphanKeeps(c, s, ev);
    case GrantTo(user, amount, actor, key) => CommitKeeps(c, s, B.GrantAdjustment(user, amount, actor, key));
    case RedeemCode(user, code) => CommitKeeps(c, s, B.RedeemAdjustment(user, code));
    case EditKey(_, _, _) => EditKeyKeeps(c, s, ev);
    case Advance(_) => AdvanceKeeps(c, s, ev);
  }
}
