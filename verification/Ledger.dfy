/**
  The credit ledger: users, API keys, the two daily counters and the append-only
  ledger, and the effect of one adjustment transaction on all of them.

  `ApplyTx` is the specification of one transaction; the step-by-step
  implementation in `BillingService` is proved against it.
 */
module Ledger {
  import opened Outcomes

  type UserId = int
  type KeyId = int
  type Day = int
  type Time = int

  datatype EntryType = Grant | Revoke | Redeem | Consume | Refund | SettleAdjust
  datatype RefType = NoRef | ApiKeyRef | AdminRef | RedemptionRef
  datatype KeyStatus = KeyEnabled | KeyDisabled | KeyExpired | KeyDepleted

  datatype User = User(balance: int, used: int)
  datatype ApiKey = ApiKey(owner: UserId, used: int, limit: Option<nat>, status: KeyStatus)
  datatype Entry = Entry(
    userId: UserId, entryType: EntryType, amount: int, balanceAfter: int,
    refType: RefType, refId: int, requestId: string, createdAt: Time)

  datatype Book = Book(
    users: map<UserId, User>, keys: map<KeyId, ApiKey>,
    userDays: map<(UserId, Day), int>, keyDays: map<(KeyId, Day), int>,
    ledger: seq<Entry>)

  datatype Adjustment = Adjustment(
    userId: UserId, amount: int, entryType: EntryType, refType: RefType, refId: int,
    requestId: string, affectsUsed: bool, clampToBalance: bool, dailyLimit: int,
    keyId: KeyId, keyDailyLimit: int, prechargeMode: bool)

  datatype Error =
    | ErrKeyDepleted | ErrNotFound | ErrInsufficientCredits
    | ErrDailyLimitExceeded | ErrKeyDailyLimitExceeded | ErrDuplicateEntry

  /** What a transaction leaves behind, and what its caller is told. */
  datatype TxResult = TxResult(book: Book, reply: Reply)
  datatype Reply = Accepted(entry: Entry) | Refused(error: Error)

  predicate IsCall(t: EntryType) { t.Consume? || t.SettleAdjust? || t.Refund? }

  predicate IsTerminal(t: EntryType) { t.SettleAdjust? || t.Refund? }

  // ---- Sums over the ledger ----

  /** Which entries a sum ranges over. */
  datatype Selector = ByUser(u: UserId) | CallsOfUser(u: UserId) | ByKey(k: KeyId) | ByRequest(r: string)

  predicate Picks(sel: Selector, e: Entry) {
    match sel
    case ByUser(u) => e.userId == u
    case CallsOfUser(u) => e.userId == u && IsCall(e.entryType)
    case ByKey(k) => e.refType.ApiKeyRef? && e.refId == k
    case ByRequest(r) => e.requestId == r && IsCall(e.entryType)
  }

  function Total(l: seq<Entry>, sel: Selector): int {
    if l == [] then 0
    else Total(l[..|l| - 1], sel) + if Picks(sel, l[|l| - 1]) then l[|l| - 1].amount else 0
  }

  lemma TotalAppend(l: seq<Entry>, e: Entry, sel: Selector)
    ensures Total(l + [e], sel) == Total(l, sel) + if Picks(sel, e) then e.amount else 0
  {
    assert (l + [e])[..|l|] == l;
  }

  predicate HasEntry(l: seq<Entry>, r: string, t: EntryType) {
    exists i :: 0 <= i < |l| && l[i].requestId == r && l[i].entryType == t
  }

  lemma HasEntryAppend(l: seq<Entry>, e: Entry, r: string, t: EntryType)
    ensures HasEntry(l + [e], r, t) <==> HasEntry(l, r, t) || (e.requestId == r && e.entryType == t)
  {
    var m := l + [e];
    if HasEntry(l, r, t) {
      var i :| 0 <= i < |l| && l[i].requestId == r && l[i].entryType == t;
      assert m[i] == l[i];
    }
    if e.requestId == r && e.entryType == t {
      assert m[|l|] == e;
    }
  }

  // ---- One transaction ----

  /** A limit of zero or less does not limit; reaching the limit exactly is allowed. */
  predicate ProjectedExceeds(spent: int, delta: int, limit: int) {
    limit > 0 && spent + delta > limit
  }

  function Lookup<K>(m: map<K, int>, k: K): int { if k in m then m[k] else 0 }

  /** A zero delta writes no row. */
  function Bump<K>(m: map<K, int>, k: K, delta: int): map<K, int> {
    if delta == 0 then m else m[k := Lookup(m, k) + delta]
  }

  predicate TouchesKey(adj: Adjustment) { adj.keyId != 0 && adj.affectsUsed }

  /** The conditional update of a precharge matches no row. */
  predicate KeyRefuses(keys: map<KeyId, ApiKey>, adj: Adjustment) {
    && TouchesKey(adj) && adj.prechargeMode
    && (adj.keyId !in keys ||
        (keys[adj.keyId].limit.Some? && keys[adj.keyId].used - adj.amount > keys[adj.keyId].limit.value))
  }

  function MarkDepleted(keys: map<KeyId, ApiKey>, k: KeyId): map<KeyId, ApiKey> {
    if k in keys && keys[k].limit.Some? && keys[k].status.KeyEnabled?
    then keys[k := keys[k].(status := KeyDepleted)] else keys
  }

  /** The key's used credit after the transaction; `GREATEST` applies outside precharge mode only. */
  function KeyCharged(keys: map<KeyId, ApiKey>, adj: Adjustment, amount: int): map<KeyId, ApiKey> {
    if !TouchesKey(adj) || adj.keyId !in keys then keys
    else
      var key := keys[adj.keyId];
      if adj.prechargeMode then keys[adj.keyId := key.(used := key.used - adj.amount)]
      else if amount == 0 then keys
      else keys[adj.keyId := key.(used := Max(key.used - amount, 0))]
  }

  /** The amount that is booked: a clamped debit takes the whole balance and no more. */
  function Effective(balance: int, adj: Adjustment): int {
    if balance + adj.amount < 0 && adj.clampToBalance then -balance else adj.amount
  }

  predicate OverUserDay(b: Book, adj: Adjustment, amount: int, day: Day) {
    adj.affectsUsed && amount < 0 && ProjectedExceeds(Lookup(b.userDays, (adj.userId, day)), -amount, adj.dailyLimit)
  }

  predicate OverKeyDay(b: Book, adj: Adjustment, amount: int, day: Day) {
    && adj.affectsUsed && amount < 0 && adj.keyId != 0
    && ProjectedExceeds(Lookup(b.keyDays, (adj.keyId, day)), -amount, adj.keyDailyLimit)
  }

  predicate Duplicates(l: seq<Entry>, adj: Adjustment) {
    adj.requestId != "" && HasEntry(l, adj.requestId, adj.entryType)
  }

  /** The first reason to refuse that is found under the user's lock. */
  function RefusalForUser(b: Book, adj: Adjustment, day: Day): Option<Error>
    requires adj.userId in b.users
  {
    var amount := Effective(b.users[adj.userId].balance, adj);
    if b.users[adj.userId].balance + amount < 0 then Some(ErrInsufficientCredits)
    else if OverUserDay(b, adj, amount, day) then Some(ErrDailyLimitExceeded)
    else if OverKeyDay(b, adj, amount, day) then Some(ErrKeyDailyLimitExceeded)
    else if Duplicates(b.ledger, adj) then Some(ErrDuplicateEntry)
    else None
  }

  /** The first reason, in the code's order, for which the transaction refuses. */
  function Refusal(b: Book, adj: Adjustment, day: Day): Option<Error> {
    if KeyRefuses(b.keys, adj) then Some(ErrKeyDepleted)
    else if adj.userId !in b.users then Some(ErrNotFound)
    else RefusalForUser(b, adj, day)
  }

  function NewEntry(b: Book, adj: Adjustment, now: Time): Entry
    requires adj.userId in b.users
  {
    var amount := Effective(b.users[adj.userId].balance, adj);
    Entry(adj.userId, adj.entryType, amount, b.users[adj.userId].balance + amount,
          adj.refType, adj.refId, adj.requestId, now)
  }

  function Booked(b: Book, adj: Adjustment, day: Day, now: Time): Book
    requires adj.userId in b.users
  {
    var u := b.users[adj.userId];
    var amount := Effective(u.balance, adj);
    Book(
      b.users[adj.userId := User(u.balance + amount, if adj.affectsUsed then u.used - amount else u.used)],
      KeyCharged(b.keys, adj, amount),
      if adj.affectsUsed then Bump(b.userDays, (adj.userId, day), -amount) else b.userDays,
      if TouchesKey(adj) then Bump(b.keyDays, (adj.keyId, day), -amount) else b.keyDays,
      b.ledger + [NewEntry(b, adj, now)])
  }

  /** One adjustment. Every refusal rolls back except a depleted key, which commits the key's status. */
  function ApplyTx(b: Book, adj: Adjustment, day: Day, now: Time): TxResult {
    match Refusal(b, adj, day)
    case Some(ErrKeyDepleted) => TxResult(b.(keys := MarkDepleted(b.keys, adj.keyId)), Refused(ErrKeyDepleted))
    case Some(err) => TxResult(b, Refused(err))
    case None => TxResult(Booked(b, adj, day, now), Accepted(NewEntry(b, adj, now)))
  }
}
