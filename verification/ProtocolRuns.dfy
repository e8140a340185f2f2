/** What holds in every state that a run of the billing protocol reaches. */
module ProtocolRuns {
  import opened Outcomes
  import opened Ledger
  import opened AccountInvariants
  import opened CallCharges
  import opened CallCommits
  import opened Protocol
  import opened Counters
  import B = BillingService
  import S = Session

  lemma InitialInv(c: Config, s: State)
    requires Initial(s)
    ensures Inv(c, s)
  {
    assert forall r: string, t :: Find(s.book.ledger, r, t).None?;
  }

  lemma {:induction false} RunKeepsInv(c: Config, s: State, evs: seq<Event>)
    requires Safe(c) && Initial(s) && Run(c, s, evs).Some?
    ensures Inv(c, Run(c, s, evs).value)
  {
    if evs == [] {
      InitialInv(c, s);
    } else {
      RunKeepsInv(c, s, evs[..|evs| - 1]);
      NextKeeps(c, Run(c, s, evs[..|evs| - 1]).value, evs[|evs| - 1]);
    }
  }

  /** The start-up check leaves a margin, so a configuration that passes it is safe. */
  lemma StartupCheckIsSafe(seconds: nat, second: nat, threshold: nat, window: nat, dayOf: Time -> Day)
    ensures StartupAccepts(seconds, second, threshold, window) <==> seconds * second + window < threshold
    ensures StartupAccepts(seconds, second, threshold, window) ==> Safe(Config(seconds * second, window, threshold, dayOf))
  {
  }

  ghost predicate NeverTwoOutcomes(c: Config) {
    forall s: State, evs: seq<Event> :: Initial(s) && Run(c, s, evs).Some? ==> OneTerminal(Run(c, s, evs).value.book.ledger)
  }

  // ---- Without the guard ----

  /** One user with one unlimited key, nothing booked yet. */
  function Opening(): State {
    State(Book(map[1 := User(0, 0)], map[1 := ApiKey(1, 0, None, KeyEnabled)], map[], map[], []), 0, map[], {}, {})
  }

  const CALL := "call"

  /** A call that outlives the threshold: it is refunded as an orphan, then settles. */
  function Overtaken(c: Config, granted: int, cost: nat, final: nat): seq<Event> {
    [GrantTo(1, granted, 7, ""), StartCall(CALL, 1, cost, 0, 0, S.Delivered), Advance(c.threshold + 1), Scan,
     RefundOrphan(S.Orphan(1, CALL, cost, 1, 0), S.Delivered), SettleCall(CALL, final, S.Delivered)]
  }

  lemma RunStep(c: Config, s: State, evs: seq<Event>, n: nat)
    requires n < |evs|
    ensures Run(c, s, evs[..n + 1]) ==
            var before := Run(c, s, evs[..n]);
            if before.None? || !Enabled(c, before.value, evs[n]) then None else Some(Next(c, before.value, evs[n]))
  {
    assert evs[..n + 1][..n] == evs[..n];
  }

  function Granted(granted: int): seq<Entry> {
    [Entry(1, EntryType.Grant, granted, granted, AdminRef, 7, "", 0)]
  }

  function Consumed(granted: int, cost: int): seq<Entry> {
    Granted(granted) + [Entry(1, Consume, -cost, granted - cost, ApiKeyRef, 1, CALL, 0)]
  }

  /** The call's precharge is confirmed. */
  predicate Started(s: State, granted: int, cost: int) {
    && s.tracks == map[CALL := Track(S.State(S.Precharged, CALL, 1, 1, cost, 0, 0), false, None, false)]
    && s.book.users == map[1 := User(granted - cost, cost)] && s.book.keys == map[1 := ApiKey(1, cost, None, KeyEnabled)]
    && s.book.ledger == Consumed(granted, cost)
  }

  /** The call's precharge was given back, and its handler knows nothing of it. */
  predicate Overtook(s: State, granted: int, cost: int) {
    && s.tracks == map[CALL := Track(S.State(S.Precharged, CALL, 1, 1, cost, 0, 0), false, None, false)]
    && s.book.users == map[1 := User(granted, 0)] && s.book.keys == map[1 := ApiKey(1, 0, None, KeyEnabled)]
    && s.book.ledger == Consumed(granted, cost) + [Entry(1, EntryType.Refund, cost, granted, ApiKeyRef, 1, CALL, s.clock)]
  }

  lemma OvertakenStarts(c: Config, granted: int, cost: nat)
    requires 0 < cost <= granted
    ensures var s1 := Next(c, Opening(), GrantTo(1, granted, 7, ""));
      var ev := StartCall(CALL, 1, cost, 0, 0, S.Delivered);
      Enabled(c, s1, ev) && Started(Next(c, s1, ev), granted, cost) && Next(c, s1, ev).clock == 0
  {
    var s1 := Next(c, Opening(), GrantTo(1, granted, 7, ""));
    assert s1.book.ledger == Granted(granted);
    assert !HasEntry(s1.book.ledger, CALL, Consume);
  }

  /** Past the threshold, the scan finds the call. */
  lemma OvertakenIsScanned(c: Config, s: State, granted: int, cost: nat)
    requires 0 < cost <= granted && Started(s, granted, cost) && s.clock == c.threshold + 1
    ensures S.Orphan(1, CALL, cost, 1, 0) in Next(c, s, Scan).scanned
  {
    var l := s.book.ledger;
    S.OrphanIsListed(l, l, s.clock - c.threshold, 1);
  }

  /** The cleanup gives its precharge back. */
  lemma OvertakenRefunds(c: Config, s: State, granted: int, cost: nat)
    requires 0 < cost <= granted && Started(s, granted, cost)
    requires S.Orphan(1, CALL, cost, 1, 0) in s.scanned
    ensures var s' := Next(c, s, RefundOrphan(S.Orphan(1, CALL, cost, 1, 0), S.Delivered));
      Overtook(s', granted, cost) && s'.clock == s.clock
  {
    assert !HasEntry(s.book.ledger, CALL, EntryType.Refund);
  }

  lemma OvertookEntries(s: State, granted: int, cost: nat)
    requires Overtook(s, granted, cost)
    ensures Find(s.book.ledger, CALL, Consume) == Some(Consumed(granted, cost)[1])
    ensures !HasEntry(s.book.ledger, CALL, SettleAdjust)
  {
    var l := s.book.ledger;
    FindAppend([], Granted(granted)[0], CALL, Consume);
    assert [] + [Granted(granted)[0]] == Granted(granted);
    FindAppend(Granted(granted), Consumed(granted, cost)[1], CALL, Consume);
    FindAppend(Consumed(granted, cost), l[2], CALL, Consume);
  }

  function SettleEntry(granted: int, cost: int, final: int, now: Time): Entry {
    Entry(1, SettleAdjust, cost - final, granted + cost - final, ApiKeyRef, 1, CALL, now)
  }

  lemma OvertakenMaySettle(c: Config, s: State, granted: int, cost: nat, final: nat)
    requires final < cost <= granted && Overtook(s, granted, cost) && s.clock <= c.upstream + c.window
    ensures Enabled(c, s, SettleCall(CALL, final, S.Delivered))
    ensures !HasEntry(s.book.ledger, CALL, SettleAdjust)
  {
    OvertookEntries(s, granted, cost);
  }

  /** The late settle is booked as if nothing had happened; the key's used credit stays at its floor. */
  lemma OvertakenBooks(b: Book, adj: Adjustment, granted: int, cost: nat, final: nat, day: Day, now: Time)
    requires final < cost <= granted && !HasEntry(b.ledger, CALL, SettleAdjust)
    requires b.users == map[1 := User(granted, 0)] && b.keys == map[1 := ApiKey(1, 0, None, KeyEnabled)]
    requires adj == S.SettleAdj(S.State(S.Precharged, CALL, 1, 1, cost, 0, 0), final)
    ensures var b' := ApplyTx(b, adj, day, now).book;
      && b'.users == map[1 := User(granted + cost - final, final - cost)] && b'.keys == b.keys
      && b'.ledger == b.ledger + [SettleEntry(granted, cost, final, now)]
  {
    assert Refusal(b, adj, day).None?;
  }

  lemma TwoOutcomes(l: seq<Entry>, i: nat, j: nat)
    requires i < |l| && j < |l| && l[i].requestId == l[j].requestId == CALL && l[i].entryType.Refund? && l[j].entryType.SettleAdjust?
    ensures !OneTerminal(l)
  {
    FindIsHasEntry(l, CALL, EntryType.Refund);
    FindIsHasEntry(l, CALL, SettleAdjust);
  }

  lemma OvertakenSettles(c: Config, s: State, granted: int, cost: nat, final: nat)
    requires final < cost <= granted && Overtook(s, granted, cost) && s.clock <= c.upstream + c.window
    ensures var ev := SettleCall(CALL, final, S.Delivered);
      && Enabled(c, s, ev)
      && var b' := Next(c, s, ev).book;
         && b'.users == map[1 := User(granted + cost - final, final - cost)] && b'.keys == map[1 := ApiKey(1, 0, None, KeyEnabled)]
         && b'.ledger == s.book.ledger + [SettleEntry(granted, cost, final, s.clock)] && !OneTerminal(b'.ledger)
  {
    var adj := S.SettleAdj(s.tracks[CALL].session, final);
    OvertakenMaySettle(c, s, granted, cost, final);
    OvertakenBooks(s.book, adj, granted, cost, final, c.dayOf(s.clock), s.clock);
    assert Next(c, s, SettleCall(CALL, final, S.Delivered)).book == ApplyTx(s.book, adj, c.dayOf(s.clock), s.clock).book;
    TwoOutcomes(s.book.ledger + [SettleEntry(granted, cost, final, s.clock)], 2, 3);
  }

  /** The key's ledger gives the precharge back and the unused part on top of it. */
  lemma OvertakenTotal(s: State, granted: int, cost: nat, final: nat)
    requires Overtook(s, granted, cost)
    ensures Total(s.book.ledger + [SettleEntry(granted, cost, final, s.clock)], ByKey(1)) == cost - final
  {
    TotalAppend([], Granted(granted)[0], ByKey(1));
    assert [] + [Granted(granted)[0]] == Granted(granted);
    TotalAppend(Granted(granted), Consumed(granted, cost)[1], ByKey(1));
    TotalAppend(Consumed(granted, cost), s.book.ledger[2], ByKey(1));
    TotalAppend(s.book.ledger, SettleEntry(granted, cost, final, s.clock), ByKey(1));
  }

  lemma RunFirst(c: Config, s: State, ev: Event)
    requires Enabled(c, s, ev)
    ensures Run(c, s, [ev]) == Some(Next(c, s, ev))
  {
    assert [ev][..0] == [];
    assert Run(c, s, []) == Some(s);
  }

  lemma RunNext(c: Config, evs: seq<Event>, n: nat, s: State) returns (s': State)
    requires n < |evs| && Run(c, Opening(), evs[..n]) == Some(s) && Enabled(c, s, evs[n])
    ensures s' == Next(c, s, evs[n]) && Run(c, Opening(), evs[..n + 1]) == Some(s')
  {
    RunStep(c, Opening(), evs, n);
    s' := Next(c, s, evs[n]);
  }

  /** The first two events: the grant and the call's precharge. */
  lemma OvertakenOpening(c: Config, granted: int, cost: nat, final: nat) returns (s: State)
    requires 0 < cost <= granted
    ensures Run(c, Opening(), Overtaken(c, granted, cost, final)[..2]) == Some(s) && Started(s, granted, cost) && s.clock == 0
  {
    var evs := Overtaken(c, granted, cost, final);
    assert evs[..1] == [evs[0]];
    RunFirst(c, Opening(), evs[0]);
    RunStep(c, Opening(), evs, 1);
    OvertakenStarts(c, granted, cost);
    s := Next(c, Next(c, Opening(), evs[0]), evs[1]);
  }

  lemma OvertakenAged(c: Config, granted: int, cost: nat, final: nat) returns (s: State)
    requires 0 < cost <= granted
    ensures Run(c, Opening(), Overtaken(c, granted, cost, final)[..3]) == Some(s) && Started(s, granted, cost) && s.clock == c.threshold + 1
  {
    var s2 := OvertakenOpening(c, granted, cost, final);
    s := RunNext(c, Overtaken(c, granted, cost, final), 2, s2);
  }

  /** The next three: time passes, the scan finds the call, the cleanup refunds it. */
  lemma OvertakenMiddle(c: Config, granted: int, cost: nat, final: nat) returns (s: State)
    requires 0 < cost <= granted
    ensures Run(c, Opening(), Overtaken(c, granted, cost, final)[..5]) == Some(s) && Overtook(s, granted, cost) && s.clock == c.threshold + 1
  {
    var evs := Overtaken(c, granted, cost, final);
    var s3 := OvertakenAged(c, granted, cost, final);
    assert evs[3] == Scan && evs[4] == RefundOrphan(S.Orphan(1, CALL, cost, 1, 0), S.Delivered);
    OvertakenIsScanned(c, s3, granted, cost);
    var s4 := RunNext(c, evs, 3, s3);
    OvertakenRefunds(c, s4, granted, cost);
    s := RunNext(c, evs, 4, s4);
  }

  /** When the timeout plus the write window exceeds the threshold, a run exists that leaves the user `cost - final` richer than granted. */
  lemma OvertakenGains(c: Config, granted: int, cost: nat, final: nat)
    requires !Safe(c) && final < cost <= granted
    ensures var s := Run(c, Opening(), Overtaken(c, granted, cost, final));
      && s.Some? && s.value.book.users == map[1 := User(granted + cost - final, final - cost)] && !OneTerminal(s.value.book.ledger)
      && s.value.book.keys == map[1 := ApiKey(1, 0, None, KeyEnabled)] && Total(s.value.book.ledger, ByKey(1)) == cost - final
  {
    var evs := Overtaken(c, granted, cost, final);
    var s := OvertakenMiddle(c, granted, cost, final);
    OvertakenSettles(c, s, granted, cost, final);
    OvertakenTotal(s, granted, cost, final);
    RunStep(c, Opening(), evs, 5);
    assert evs[..6] == evs;
  }

  /**
    No call is ever both settled and refunded, in any run, exactly when the upstream timeout plus the
    write window does not exceed the orphan threshold. The start-up check asks for strictly less.
   */
  lemma OneOutcomeIffSafe(c: Config)
    ensures NeverTwoOutcomes(c) <==> Safe(c)
  {
    if Safe(c) {
      forall s: State, evs: seq<Event> | Initial(s) && Run(c, s, evs).Some?
        ensures OneTerminal(Run(c, s, evs).value.book.ledger)
      {
        RunKeepsInv(c, s, evs);
      }
    } else {
      OvertakenGains(c, 1, 1, 0);
      assert Initial(Opening());
    }
  }

  // ---- What the books say in every reachable state ----

  /** The adjustment an event sends, if it sends one. */
  function SentBy(s: State, ev: Event): Option<Adjustment>
    requires ev.StartCall? ==> ev.keyId in s.book.keys
    requires ev.SettleCall? || ev.RefundCall? ==> ev.requestId in s.tracks
  {
    match ev
    case StartCall(_, _, cost, _, _, _) => Some(S.PrechargeAdj(NewSession(s, ev), cost))
    case SettleCall(r, final, _) => Some(S.SettleAdj(s.tracks[r].session, final))
    case RefundCall(r, _) => var t := s.tracks[r].session; Some(S.RefundAdj(t.userId, t.keyId, r, t.precharged))
    case CommitLate(adj) => Some(adj)
    case RefundOrphan(o, _) => Some(S.OrphanRefund(o))
    case GrantTo(user, amount, actor, key) => Some(B.GrantAdjustment(user, amount, actor, key))
    case RedeemCode(user, code) => Some(B.RedeemAdjustment(user, code))
    case _ => None
  }

  /** Whatever the event, the books take its adjustment, or stay but for an edited key. */
  lemma NextBook(c: Config, s: State, ev: Event)
    requires Enabled(c, s, ev)
    ensures var b, b', sent := s.book, Next(c, s, ev).book, SentBy(s, ev);
      || (sent.Some? && b' == ApplyTx(b, sent.value, c.dayOf(s.clock), s.clock).book)
      || (b'.ledger == b.ledger && b'.users == b.users && b'.userDays == b.userDays && b'.keyDays == b.keyDays)
  {
    match ev
    case StartCall(_, _, _, _, _, _) =>
    case SettleCall(_, _, _) =>
    case RefundCall(_, _) =>
    case _ => NextBookElse(c, s, ev);
  }

  lemma NextBookElse(c: Config, s: State, ev: Event)
    requires Enabled(c, s, ev) && !ev.StartCall? && !ev.SettleCall? && !ev.RefundCall?
    ensures var b, b', sent := s.book, Next(c, s, ev).book, SentBy(s, ev);
      || (sent.Some? && b' == ApplyTx(b, sent.value, c.dayOf(s.clock), s.clock).book)
      || (b'.ledger == b.ledger && b'.users == b.users && b'.userDays == b.userDays && b'.keyDays == b.keyDays)
  {
  }

  lemma NextKeepsDays(c: Config, s: State, ev: Event)
    requires Enabled(c, s, ev) && DaysMatch(s.book)
    ensures DaysMatch(Next(c, s, ev).book)
  {
    NextBook(c, s, ev);
    if SentBy(s, ev).Some? {
      ApplyTxKeepsDays(s.book, SentBy(s, ev).value, c.dayOf(s.clock), s.clock);
    }
  }

  lemma {:induction false} RunKeepsDays(c: Config, s: State, evs: seq<Event>)
    requires Initial(s) && Run(c, s, evs).Some?
    ensures DaysMatch(Run(c, s, evs).value.book)
  {
    if evs == [] {
      forall u | u in s.book.users
        ensures SumMap(DaysOf(s.book.userDays, u)) == 0
      {
        assert DaysOf(s.book.userDays, u) == map[];
      }
    } else {
      RunKeepsDays(c, s, evs[..|evs| - 1]);
      NextKeepsDays(c, Run(c, s, evs[..|evs| - 1]).value, evs[|evs| - 1]);
    }
  }

  /** The key reconciliation query: the keys whose used credit differs from their ledger. */
  function ReconcileApiKeys(b: Book): set<KeyId> {
    set k | k in b.keys && b.keys[k].used != -Total(b.ledger, ByKey(k))
  }

  /**
    Both reconciliations find nothing in any reachable state, so no floor and no clamp ever broke the books;
    and a user's used credit is the sum over the user's keys and over the user's days.
   */
  lemma BooksAgree(c: Config, s: State, evs: seq<Event>)
    requires Safe(c) && Initial(s) && Run(c, s, evs).Some?
    ensures var b := Run(c, s, evs).value.book;
      && Reconcile(b) == {} && ReconcileApiKeys(b) == {}
      && (forall k :: k in b.keys ==> b.keys[k].used == -Total(b.ledger, ByKey(k)))
      && forall u :: u in b.users ==>
           && b.users[u].balance == Total(b.ledger, ByUser(u)) >= 0
           && b.users[u].used == -Total(b.ledger, CallsOfUser(u)) == SumMap(KeysOf(b.keys, u)) == SumMap(DaysOf(b.userDays, u))
  {
    RunKeepsInv(c, s, evs);
    RunKeepsDays(c, s, evs);
    var b := Run(c, s, evs).value.book;
    forall u | u in b.users
      ensures b.users[u].used == SumMap(KeysOf(b.keys, u))
    {
      UserUsedIsSumOfKeys(b, u);
    }
  }

  /** A row of agreeing books that is moved by any amount, and no other, is found. */
  lemma ReconcilesFindDrift(b: Book, u: UserId, k: KeyId, drift: int)
    requires Reconcile(b) == {} && ReconcileApiKeys(b) == {} && u in b.users && k in b.keys && drift != 0
    ensures Reconcile(b.(users := b.users[u := b.users[u].(balance := b.users[u].balance + drift)])) == {u}
    ensures ReconcileApiKeys(b.(keys := b.keys[k := b.keys[k].(used := b.keys[k].used + drift)])) == {k}
  {
    var x, y := b.(users := b.users[u := b.users[u].(balance := b.users[u].balance + drift)]), b.(keys := b.keys[k := b.keys[k].(used := b.keys[k].used + drift)]);
    assert u !in Reconcile(b) && forall v :: v in x.users && v != u ==> v !in Reconcile(b);
    assert k !in ReconcileApiKeys(b) && forall j :: j in y.keys && j != k ==> j !in ReconcileApiKeys(b);
  }

  ghost predicate KeysAlwaysAgree(c: Config) {
    forall s: State, evs: seq<Event> :: Initial(s) && Run(c, s, evs).Some? ==> ReconcileApiKeys(Run(c, s, evs).value.book) == {}
  }

  /** The key reconciliation finds nothing in any run exactly when the configuration is safe. */
  lemma KeysAgreeIffSafe(c: Config)
    ensures KeysAlwaysAgree(c) <==> Safe(c)
  {
    if Safe(c) {
      forall s: State, evs: seq<Event> | Initial(s) && Run(c, s, evs).Some?
        ensures ReconcileApiKeys(Run(c, s, evs).value.book) == {}
      {
        BooksAgree(c, s, evs);
      }
    } else {
      OvertakenGains(c, 1, 1, 0);
      assert Initial(Opening());
      assert 1 in ReconcileApiKeys(Run(c, Opening(), Overtaken(c, 1, 1, 0)).value.book);
    }
  }

  lemma NextKeepsSound(c: Config, s: State, ev: Event)
    requires Enabled(c, s, ev) && Sound(s.book)
    ensures Sound(Next(c, s, ev).book)
  {
    NextBook(c, s, ev);
    if SentBy(s, ev).Some? {
      ApplyTxKeepsSound(s.book, SentBy(s, ev).value, c.dayOf(s.clock), s.clock);
    }
  }

  /** The balance reconciliation finds nothing in any run, safe or not. */
  lemma {:induction false} BalancesAlwaysAgree(c: Config, s: State, evs: seq<Event>)
    requires Initial(s) && Run(c, s, evs).Some?
    ensures Sound(Run(c, s, evs).value.book) && Reconcile(Run(c, s, evs).value.book) == {}
  {
    if evs != [] {
      BalancesAlwaysAgree(c, s, evs[..|evs| - 1]);
      NextKeepsSound(c, Run(c, s, evs[..|evs| - 1]).value, evs[|evs| - 1]);
    }
  }

  /** What is left of the balance just before a settle entry was booked. */
  function LeftBefore(e: Entry): int { e.balanceAfter - e.amount }

  ghost predicate NetsOneOf(s: State, r: string) {
    var l := s.book.ledger;
    var consume, settle, refund := Find(l, r, Consume), Find(l, r, SettleAdjust), Find(l, r, EntryType.Refund);
    if consume.None? then settle.None? && refund.None? && Charge(l, r) == 0
    else if refund.Some? then settle.None? && Charge(l, r) == 0
    else if settle.None? then Charge(l, r) == -consume.value.amount
    else
      && r in s.tracks && s.tracks[r].final.Some? && s.tracks[r].session.precharged == -consume.value.amount
      && Charge(l, r) == Min(s.tracks[r].final.value, -consume.value.amount + LeftBefore(settle.value))
  }

  lemma RefundIsWhole(b: Book, r: string)
    requires forall i :: 0 <= i < |b.ledger| ==> EntryShape(b, b.ledger[i])
    requires Find(b.ledger, r, EntryType.Refund).Some?
    ensures var c := Find(b.ledger, r, Consume); c.Some? && Find(b.ledger, r, EntryType.Refund).value.amount == -c.value.amount
  {
    FindIsHasEntry(b.ledger, r, EntryType.Refund);
    var i :| 0 <= i < |b.ledger| && b.ledger[i] == Find(b.ledger, r, EntryType.Refund).value;
    assert EntryShape(b, b.ledger[i]);
  }

  lemma InvNets(c: Config, s: State, r: string)
    requires Inv(c, s) && r != ""
    ensures NetsOneOf(s, r)
  {
    var l := s.book.ledger;
    CallTotal(l, r);
    if Find(l, r, SettleAdjust).Some? {
      assert TrackOk(s, r) && SettledFor(s.tracks[r], Find(l, r, SettleAdjust).value);
    } else if Find(l, r, EntryType.Refund).Some? {
      RefundIsWhole(s.book, r);
    }
  }

  /**
    The net charge of every call in every reachable state: nothing before it starts; its precharge while
    no outcome is booked, also after a failed settle; nothing once refunded; and once settled the smaller
    of its final cost and what it precharged plus the balance left then.
   */
  lemma CallNets(c: Config, s: State, evs: seq<Event>, r: string)
    requires Safe(c) && Initial(s) && Run(c, s, evs).Some? && r != ""
    ensures NetsOneOf(Run(c, s, evs).value, r)
  {
    RunKeepsInv(c, s, evs);
    InvNets(c, Run(c, s, evs).value, r);
  }

  // ---- Why the handler's order matters ----

  /**
    The session alone would let a refund whose reply was lost be followed by a settle; only handlers that
    return after the first outcome they ask for rule it out.
   */
  lemma SessionAloneAllowsBoth(s: S.State, b: Book, day: Day, now: Time)
    requires s.phase.Precharged? && s.precharged > 0 && s.userId in b.users && b.users[s.userId].balance >= 0 && s.requestId != ""
    requires !HasEntry(b.ledger, s.requestId, EntryType.Refund) && !HasEntry(b.ledger, s.requestId, SettleAdjust)
    ensures var refund := S.RefundAdj(s.userId, s.keyId, s.requestId, s.precharged);
      var s1 := S.AfterRefund(s, S.Report(S.ReplyLost, b, refund, day, now));
      var b1 := S.Through(S.ReplyLost, b, refund, day, now);
      var settle := S.SettleAdj(s1, 0);
      var s2 := S.AfterSettle(s1, S.Report(S.Delivered, b1, settle, day, now));
      var b2 := S.Through(S.Delivered, b1, settle, day, now);
      && s1.phase.Precharged? && s2.phase.Settled?
      && HasEntry(b2.ledger, s.requestId, EntryType.Refund) && HasEntry(b2.ledger, s.requestId, SettleAdjust)
      && b2.users[s.userId].balance == b.users[s.userId].balance + 2 * s.precharged
  {
    var refund := S.RefundAdj(s.userId, s.keyId, s.requestId, s.precharged);
    var b1 := S.Through(S.ReplyLost, b, refund, day, now);
    HasEntryAppend(b.ledger, NewEntry(b, refund, now), s.requestId, SettleAdjust);
    HasEntryAppend(b.ledger, NewEntry(b, refund, now), s.requestId, EntryType.Refund);
    var settle := S.SettleAdj(s, 0);
    HasEntryAppend(b1.ledger, NewEntry(b1, settle, now), s.requestId, SettleAdjust);
    HasEntryAppend(b1.ledger, NewEntry(b1, settle, now), s.requestId, EntryType.Refund);
  }
}
