/** The monthly grant: repeated every hour, booked once a month for each account. */
module MonthlyGrant {
  import opened Outcomes
  import opened Ledger
  import opened AccountInvariants
  import opened BillingService
  import N = Numerals

  const BATCH_SIZE: nat := 200
  const MAX_BATCHES: nat := 50

  const PREFIX := "monthly-grant:"

  datatype Mode = TopUp | Add

  function GrantKey(month: string, user: nat): string { PREFIX + month + ":" + N.Decimal(user) }

  /** The amount to grant; none when the balance already covers it. */
  function Delta(mode: Mode, amount: int, balance: int): Option<int> {
    if mode.TopUp? then (if balance >= amount then None else Some(amount - balance)) else Some(amount)
  }

  datatype Tally = Tally(granted: nat, skipped: nat, replayed: nat, failed: nat)

  datatype Round = Round(book: Book, tally: Tally)

  /** One account: the book afterwards and what it counted as. */
  function GrantOne(r: Round, user: nat, mode: Mode, amount: int, month: string, day: Day, now: Time): Round
    requires user in r.book.users
  {
    var delta := Delta(mode, amount, r.book.users[user].balance);
    if delta.None? then r.(tally := r.tally.(skipped := r.tally.skipped + 1))
    else
      var tx := ApplyTx(r.book, GrantAdjustment(user, delta.value, 0, GrantKey(month, user)), day, now);
      Round(tx.book,
            if tx.reply.Accepted? then r.tally.(granted := r.tally.granted + 1)
            else if tx.reply.error.ErrDuplicateEntry? then r.tally.(replayed := r.tally.replayed + 1)
            else r.tally.(failed := r.tally.failed + 1))
  }

  predicate Accounts(b: Book, ids: seq<nat>) { forall i :: 0 <= i < |ids| ==> ids[i] in b.users }

  function GrantAll(b: Book, ids: seq<nat>, mode: Mode, amount: int, month: string, day: Day, now: Time): (r: Round)
    requires Accounts(b, ids)
    ensures r.book.users.Keys == b.users.Keys
  {
    if ids == [] then Round(b, Tally(0, 0, 0, 0))
    else
      var front := GrantAll(b, ids[..|ids| - 1], mode, amount, month, day, now);
      GrantOne(front, ids[|ids| - 1], mode, amount, month, day, now)
  }

  predicate Ascending(ids: seq<nat>) { forall i, j :: 0 <= i < j < |ids| ==> ids[i] < ids[j] }

  /** The eligible accounts after an id, at most limit of them; ids are listed in order. */
  method ListGrantTargets(ids: seq<nat>, afterId: nat, limit: nat) returns (targets: seq<nat>, ghost from: nat)
    requires Ascending(ids)
    ensures from <= |ids| && (forall i :: 0 <= i < from ==> ids[i] <= afterId) && (from < |ids| ==> ids[from] > afterId)
    ensures targets == ids[from..Min(from + limit, |ids|)]
  {
    var i := 0;
    while i < |ids| && ids[i] <= afterId
      invariant i <= |ids| && forall j :: 0 <= j < i ==> ids[j] <= afterId
    {
      i := i + 1;
    }
    from := i;
    targets := ids[i..if i + limit < |ids| then i + limit else |ids|];
  }

  lemma NextPosition(ids: seq<nat>, afterId: nat, from: nat, done: nat)
    requires Ascending(ids) && from <= |ids| && done <= |ids| && forall i :: 0 <= i < |ids| ==> ids[i] > 0
    requires (forall i :: 0 <= i < from ==> ids[i] <= afterId) && (from < |ids| ==> ids[from] > afterId)
    requires afterId == if done == 0 then 0 else ids[done - 1]
    ensures from == done
  {
    assert forall i :: 0 <= i < done ==> ids[i] <= afterId;
    assert done < |ids| ==> ids[done] > afterId;
  }

  /** Where a batch that found accounts leaves the loop. */
  lemma AfterBatch(ids: seq<nat>, batch: nat, done: nat, targets: seq<nat>)
    requires done == Min(|ids|, batch * BATCH_SIZE) && targets == ids[done..Min(done + BATCH_SIZE, |ids|)] && targets != []
    ensures var to := done + |targets|;
      && to == Min(|ids|, (batch + 1) * BATCH_SIZE) && targets == ids[done..to] && targets[|targets| - 1] == ids[to - 1]
      && (|targets| < BATCH_SIZE ==> to == |ids|)
  {
  }

  /** Where the loop stands after so many batches: how many accounts are done, and the last of them. */
  ghost predicate At(ids: seq<nat>, batch: nat, done: nat, afterId: nat, more: bool) {
    && done == Min(|ids|, batch * BATCH_SIZE) && (!more ==> done == |ids|)
    && afterId == if done == 0 then 0 else ids[done - 1]
  }

  /** The targets of the next batch are the accounts after those that are done. */
  method NextTargets(ids: seq<nat>, afterId: nat, ghost done: nat) returns (targets: seq<nat>)
    requires Ascending(ids) && done <= |ids| && forall i :: 0 <= i < |ids| ==> ids[i] > 0
    requires afterId == if done == 0 then 0 else ids[done - 1]
    ensures targets == ids[done..Min(done + BATCH_SIZE, |ids|)]
  {
    var found, from := ListGrantTargets(ids, afterId, BATCH_SIZE);
    NextPosition(ids, afterId, from, done);
    targets := found;
  }

  /** Lists one batch and grants it; finding none ends the loop. */
  method NextBatch(service: Service, ghost b0: Book, ids: seq<nat>, batch: nat, ghost done: nat, afterId: nat, tally: Tally,
                   mode: Mode, amount: int, month: string, day: Day, now: Time)
    returns (tally': Tally, afterId': nat, more: bool, batch': nat, ghost done': nat)
    requires Ascending(ids) && amount > 0 && forall i :: 0 <= i < |ids| ==> ids[i] > 0
    requires At(ids, batch, done, afterId, true) && Reached(service.Books(), tally, b0, ids, done, mode, amount, month, day, now)
    modifies service
    ensures batch <= batch' <= batch + 1 && (more ==> batch' == batch + 1) && At(ids, batch', done', afterId', more)
    ensures Reached(service.Books(), tally', b0, ids, done', mode, amount, month, day, now)
  {
    tally', afterId', batch', done' := tally, afterId, batch, done;
    var targets := NextTargets(ids, afterId, done);
    if |targets| == 0 {
      more := false;
    } else {
      AfterBatch(ids, batch, done, targets);
      tally', done' := GrantBatch(service, b0, ids, done, targets, tally, mode, amount, month, day, now);
      afterId' := targets[|targets| - 1];
      more := |targets| >= BATCH_SIZE;
      batch' := batch + 1;
    }
  }

  /** Batch after batch, every eligible account up to the safety bound exactly once. */
  method GrantMonthlyCredits(service: Service, ids: seq<nat>, mode: Mode, amount: int, month: string, day: Day, now: Time) returns (tally: Tally)
    requires Ascending(ids) && Accounts(service.Books(), ids) && forall i :: 0 <= i < |ids| ==> ids[i] > 0
    modifies service
    ensures amount <= 0 ==> service.Books() == old(service.Books())
    ensures amount > 0 ==>
      Round(service.Books(), tally) == GrantAll(old(service.Books()), ids[..Min(|ids|, MAX_BATCHES * BATCH_SIZE)], mode, amount, month, day, now)
  {
    tally := Tally(0, 0, 0, 0);
    if amount <= 0 {
      return;
    }
    ghost var b0 := service.Books();
    var afterId, batch, more := 0, 0, true;
    ghost var done := 0;
    while batch < MAX_BATCHES && more
      invariant batch <= MAX_BATCHES && At(ids, batch, done, afterId, more)
      invariant Reached(service.Books(), tally, b0, ids, done, mode, amount, month, day, now)
      decreases MAX_BATCHES - batch, more
    {
      tally, afterId, more, batch, done := NextBatch(service, b0, ids, batch, done, afterId, tally, mode, amount, month, day, now);
    }
    assert done == Min(|ids|, MAX_BATCHES * BATCH_SIZE);
  }

  /** The round has settled the first n accounts. */
  ghost predicate Reached(book: Book, tally: Tally, b0: Book, ids: seq<nat>, n: nat, mode: Mode, amount: int, month: string, day: Day, now: Time) {
    Accounts(b0, ids) && n <= |ids| && Round(book, tally) == GrantAll(b0, ids[..n], mode, amount, month, day, now)
  }

  lemma ReachedNext(book: Book, tally: Tally, b0: Book, ids: seq<nat>, n: nat, mode: Mode, amount: int, month: string, day: Day, now: Time)
    requires Reached(book, tally, b0, ids, n, mode, amount, month, day, now) && n < |ids|
    ensures ids[n] in book.users
    ensures var r := GrantOne(Round(book, tally), ids[n], mode, amount, month, day, now);
      Reached(r.book, r.tally, b0, ids, n + 1, mode, amount, month, day, now)
  {
    assert ids[..n + 1][..n] == ids[..n];
  }

  method GrantAccount(service: Service, user: nat, tally: Tally, mode: Mode, amount: int, month: string, day: Day, now: Time) returns (tally': Tally)
    requires user in service.users && amount > 0
    modifies service
    ensures Round(service.Books(), tally') == GrantOne(Round(old(service.Books()), tally), user, mode, amount, month, day, now)
  {
    var delta := Delta(mode, amount, service.users[user].balance);
    if delta.None? {
      return tally.(skipped := tally.skipped + 1);
    }
    var reply := service.Grant(user, delta.value, 0, GrantKey(month, user), day, now);
    if reply.value.Accepted? {
      return tally.(granted := tally.granted + 1);
    } else if reply.value.error.ErrDuplicateEntry? {
      return tally.(replayed := tally.replayed + 1);
    }
    tally' := tally.(failed := tally.failed + 1);
  }

  method GrantBatch(service: Service, ghost b0: Book, ghost ids: seq<nat>, ghost from: nat, targets: seq<nat>, tally: Tally,
                    mode: Mode, amount: int, month: string, day: Day, now: Time) returns (tally': Tally, ghost to: nat)
    requires from + |targets| <= |ids| && targets == ids[from..from + |targets|] && amount > 0
    requires Reached(service.Books(), tally, b0, ids, from, mode, amount, month, day, now)
    modifies service
    ensures to == from + |targets| && Reached(service.Books(), tally', b0, ids, to, mode, amount, month, day, now)
  {
    tally', to := tally, from;
    for i := 0 to |targets|
      invariant to == from + i && Reached(service.Books(), tally', b0, ids, to, mode, amount, month, day, now)
    {
      assert ids[to] == targets[i];
      ReachedNext(service.Books(), tally', b0, ids, to, mode, amount, month, day, now);
      tally' := GrantAccount(service, targets[i], tally', mode, amount, month, day, now);
      to := to + 1;
    }
  }

  // ---- Once a month ----

  /** The account has this month's entry. */
  predicate GrantedIn(b: Book, month: string, user: nat) { HasEntry(b.ledger, AdminRequestId(GrantKey(month, user)), EntryType.Grant) }

  lemma SameParts(prefix: string, m: string, x: string, n: string, y: string)
    requires |m| == |n| && prefix + m + ":" + x == prefix + n + ":" + y
    ensures m == n && x == y
  {
    var s, t := prefix + m + ":" + x, prefix + n + ":" + y;
    assert s[|prefix|..|prefix| + |m|] == m && t[|prefix|..|prefix| + |m|] == n;
    assert s[|prefix| + |m| + 1..] == x && t[|prefix| + |m| + 1..] == y;
  }

  /** Different accounts or months (all written with the same number of characters) never share a key. */
  lemma KeysAreSeparate(m: string, u: nat, n: string, v: nat)
    requires |m| == |n|
    ensures GrantKey(m, u) == GrantKey(n, v) <==> m == n && u == v
  {
    if GrantKey(m, u) == GrantKey(n, v) {
      SameParts(PREFIX, m, N.Decimal(u), n, N.Decimal(v));
      N.DecimalIsInjective(u, v);
    }
  }

  /** In any history at all, an account's grants of one month are a single entry. */
  lemma GrantedAtMostOnce(b: Book, ops: seq<Op>, month: string, user: nat, i: nat, j: nat)
    requires Fresh(b) && i < |Replay(b, ops).ledger| && j < |Replay(b, ops).ledger|
    requires Replay(b, ops).ledger[i].entryType.Grant? && Replay(b, ops).ledger[j].entryType.Grant?
    requires Replay(b, ops).ledger[i].requestId == Replay(b, ops).ledger[j].requestId == AdminRequestId(GrantKey(month, user))
    ensures i == j
  {
    EveryRunIsSound(b, ops);
  }

  /** An account settled for the month: further rounds leave it as it is. */
  predicate Done(b: Book, mode: Mode, amount: int, month: string, user: nat) {
    user in b.users && (GrantedIn(b, month, user) || (mode.TopUp? && b.users[user].balance >= amount))
  }

  lemma GrantOneSettles(r: Round, user: nat, mode: Mode, amount: int, month: string, day: Day, now: Time)
    requires user in r.book.users && amount > 0 && r.book.users[user].balance >= 0
    ensures var n := GrantOne(r, user, mode, amount, month, day, now);
      && Done(n.book, mode, amount, month, user)
      && n.tally.failed == r.tally.failed
      && (Done(r.book, mode, amount, month, user) ==> n.book == r.book)
      && (!Done(r.book, mode, amount, month, user) ==> n.book.users[user].balance == if mode.TopUp? then amount else r.book.users[user].balance + amount)
  {
    var delta := Delta(mode, amount, r.book.users[user].balance);
    if delta.Some? {
      var adj := GrantAdjustment(user, delta.value, 0, GrantKey(month, user));
      if !GrantedIn(r.book, month, user) {
        HasEntryAppend(r.book.ledger, NewEntry(r.book, adj, now), adj.requestId, EntryType.Grant);
      }
    }
  }

  /** Granting one account leaves every other as it was. */
  lemma OthersKept(r: Round, user: nat, other: nat, mode: Mode, amount: int, month: string, day: Day, now: Time)
    requires user in r.book.users && other in r.book.users && user != other
    ensures var n := GrantOne(r, user, mode, amount, month, day, now);
      n.book.users[other] == r.book.users[other] && (GrantedIn(r.book, month, other) ==> GrantedIn(n.book, month, other))
  {
    var delta := Delta(mode, amount, r.book.users[user].balance);
    if delta.Some? {
      var adj := GrantAdjustment(user, delta.value, 0, GrantKey(month, user));
      HasEntryAppend(r.book.ledger, NewEntry(r.book, adj, now), AdminRequestId(GrantKey(month, other)), EntryType.Grant);
    }
  }

  ghost predicate NoDebt(b: Book) { forall u :: u in b.users ==> b.users[u].balance >= 0 }

  /** What a round over these accounts leaves behind. */
  ghost predicate Settled(r: Round, b: Book, ids: seq<nat>, mode: Mode, amount: int, month: string) {
    && r.tally.failed == 0 && r.book.users.Keys == b.users.Keys
    && NoDebt(r.book)
    && (forall u: nat :: u in b.users && u !in ids ==> r.book.users[u] == b.users[u])
    && (forall i :: 0 <= i < |ids| ==> Done(r.book, mode, amount, month, ids[i]))
  }

  lemma DoneStays(r: Round, user: nat, other: nat, mode: Mode, amount: int, month: string, day: Day, now: Time)
    requires user in r.book.users && user != other && Done(r.book, mode, amount, month, other)
    ensures Done(GrantOne(r, user, mode, amount, month, day, now).book, mode, amount, month, other)
  {
    OthersKept(r, user, other, mode, amount, month, day, now);
  }

  lemma NextKeepsOthers(r: Round, b: Book, ids: seq<nat>, user: nat, mode: Mode, amount: int, month: string, day: Day, now: Time)
    requires user in r.book.users && r.book.users.Keys == b.users.Keys
    requires forall u: nat :: u in b.users && u !in ids ==> r.book.users[u] == b.users[u]
    ensures forall u: nat :: u in b.users && u !in ids && u != user ==> GrantOne(r, user, mode, amount, month, day, now).book.users[u] == b.users[u]
  {
    forall u: nat | u in b.users && u !in ids && u != user
      ensures GrantOne(r, user, mode, amount, month, day, now).book.users[u] == b.users[u]
    {
      OthersKept(r, user, u, mode, amount, month, day, now);
    }
  }

  lemma NextKeepsDone(r: Round, ids: seq<nat>, user: nat, mode: Mode, amount: int, month: string, day: Day, now: Time)
    requires user in r.book.users && user !in ids
    requires forall i :: 0 <= i < |ids| ==> Done(r.book, mode, amount, month, ids[i])
    ensures forall i :: 0 <= i < |ids| ==> Done(GrantOne(r, user, mode, amount, month, day, now).book, mode, amount, month, ids[i])
  {
    forall i | 0 <= i < |ids|
      ensures Done(GrantOne(r, user, mode, amount, month, day, now).book, mode, amount, month, ids[i])
    {
      DoneStays(r, user, ids[i], mode, amount, month, day, now);
    }
  }

  lemma OneMoreSettled(r: Round, r': Round, b: Book, ids: seq<nat>, user: nat, mode: Mode, amount: int, month: string)
    requires Settled(r, b, ids, mode, amount, month)
    requires r'.tally.failed == r.tally.failed && r'.book.users.Keys == r.book.users.Keys && NoDebt(r'.book)
    requires forall u: nat :: u in b.users && u !in ids && u != user ==> r'.book.users[u] == b.users[u]
    requires Done(r'.book, mode, amount, month, user) && forall i :: 0 <= i < |ids| ==> Done(r'.book, mode, amount, month, ids[i])
    ensures Settled(r', b, ids + [user], mode, amount, month)
  {
    forall i | 0 <= i < |ids + [user]|
      ensures Done(r'.book, mode, amount, month, (ids + [user])[i])
    {
      assert i < |ids| ==> (ids + [user])[i] == ids[i];
    }
  }

  lemma OneKeepsNoDebt(r: Round, user: nat, mode: Mode, amount: int, month: string, day: Day, now: Time)
    requires user in r.book.users && amount > 0 && NoDebt(r.book)
    ensures NoDebt(GrantOne(r, user, mode, amount, month, day, now).book)
  {
  }

  lemma NextSettles(r: Round, b: Book, ids: seq<nat>, user: nat, mode: Mode, amount: int, month: string, day: Day, now: Time)
    requires Settled(r, b, ids, mode, amount, month) && user in b.users && user !in ids && amount > 0
    ensures Settled(GrantOne(r, user, mode, amount, month, day, now), b, ids + [user], mode, amount, month)
  {
    GrantOneSettles(r, user, mode, amount, month, day, now);
    OneKeepsNoDebt(r, user, mode, amount, month, day, now);
    NextKeepsOthers(r, b, ids, user, mode, amount, month, day, now);
    NextKeepsDone(r, ids, user, mode, amount, month, day, now);
    OneMoreSettled(r, GrantOne(r, user, mode, amount, month, day, now), b, ids, user, mode, amount, month);
  }

  /** The accounts but the last, which is not among them. */
  lemma FrontAccounts(b: Book, ids: seq<nat>)
    requires Accounts(b, ids) && ids != []
    ensures var front, user := ids[..|ids| - 1], ids[|ids| - 1];
      Accounts(b, front) && user in b.users && ids == front + [user] && (Ascending(ids) ==> Ascending(front) && user !in front)
  {
  }

  lemma {:induction false} RoundSettles(b: Book, ids: seq<nat>, mode: Mode, amount: int, month: string, day: Day, now: Time)
    requires Accounts(b, ids) && Ascending(ids) && amount > 0 && NoDebt(b)
    ensures Settled(GrantAll(b, ids, mode, amount, month, day, now), b, ids, mode, amount, month)
  {
    if ids != [] {
      var front, user := ids[..|ids| - 1], ids[|ids| - 1];
      FrontAccounts(b, ids);
      RoundSettles(b, front, mode, amount, month, day, now);
      NextSettles(GrantAll(b, front, mode, amount, month, day, now), b, front, user, mode, amount, month, day, now);
    }
  }

  /** A settled account is passed over. */
  lemma DoneIsIdle(r: Round, user: nat, mode: Mode, amount: int, month: string, day: Day, now: Time)
    requires Done(r.book, mode, amount, month, user) && amount > 0
    ensures var n := GrantOne(r, user, mode, amount, month, day, now); n.book == r.book && n.tally.granted == r.tally.granted
  {
  }

  lemma {:induction false} DoneRoundIsIdle(b: Book, ids: seq<nat>, mode: Mode, amount: int, month: string, day: Day, now: Time)
    requires Accounts(b, ids) && amount > 0
    requires forall i :: 0 <= i < |ids| ==> Done(b, mode, amount, month, ids[i])
    ensures GrantAll(b, ids, mode, amount, month, day, now).book == b
    ensures GrantAll(b, ids, mode, amount, month, day, now).tally.granted == 0
  {
    if ids != [] {
      var front := ids[..|ids| - 1];
      FrontAccounts(b, ids);
      DoneRoundIsIdle(b, front, mode, amount, month, day, now);
      DoneIsIdle(GrantAll(b, front, mode, amount, month, day, now), ids[|ids| - 1], mode, amount, month, day, now);
    }
  }

  /** The next round of the same month books nothing. */
  lemma SecondRoundIsIdle(b: Book, ids: seq<nat>, mode: Mode, amount: int, month: string, day: Day, now: Time, day2: Day, now2: Time)
    requires Accounts(b, ids) && Ascending(ids) && amount > 0 && NoDebt(b)
    ensures var first := GrantAll(b, ids, mode, amount, month, day, now).book;
      GrantAll(first, ids, mode, amount, month, day2, now2).book == first
  {
    RoundSettles(b, ids, mode, amount, month, day, now);
    DoneRoundIsIdle(GrantAll(b, ids, mode, amount, month, day, now).book, ids, mode, amount, month, day2, now2);
  }
}
