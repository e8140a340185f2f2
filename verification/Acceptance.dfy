/**
  When one adjustment is accepted and what it leaves behind, row by row and in numbers: the
  answer every caller of `Apply` relies on.
 */
module Acceptance {
  import opened Outcomes
  import opened Ledger
  import B = BillingService

  /** No entry of this type for this request; entries without a request are never the same. */
  predicate NewRequest(l: seq<Entry>, r: string, t: EntryType) {
    r == "" || forall i :: 0 <= i < |l| ==> l[i].requestId != r || l[i].entryType != t
  }

  lemma NewIsNotDuplicate(l: seq<Entry>, adj: Adjustment)
    ensures Duplicates(l, adj) <==> !NewRequest(l, adj.requestId, adj.entryType)
  {
  }

  /** The key's own budget has room for the amount, or the adjustment names no key. */
  predicate KeyHasRoom(keys: map<KeyId, ApiKey>, adj: Adjustment) {
    adj.keyId == 0 || (adj.keyId in keys && (keys[adj.keyId].limit.None? || keys[adj.keyId].used + -adj.amount <= keys[adj.keyId].limit.value))
  }

  lemma KeyHasRoomIff(keys: map<KeyId, ApiKey>, adj: Adjustment)
    requires adj.affectsUsed && adj.prechargeMode
    ensures KeyHasRoom(keys, adj) <==> !KeyRefuses(keys, adj)
  {
  }

  /** Today's spending and this debit together reach the user's limit at most, if there is one. */
  predicate UserDayHasRoom(b: Book, adj: Adjustment, day: Day) {
    adj.amount < 0 && adj.dailyLimit > 0 ==>
      (if (adj.userId, day) in b.userDays then b.userDays[(adj.userId, day)] else 0) + -adj.amount <= adj.dailyLimit
  }

  /** The same for the key. */
  predicate KeyDayHasRoom(b: Book, adj: Adjustment, day: Day) {
    adj.amount < 0 && adj.keyId != 0 && adj.keyDailyLimit > 0 ==>
      (if (adj.keyId, day) in b.keyDays then b.keyDays[(adj.keyId, day)] else 0) + -adj.amount <= adj.keyDailyLimit
  }

  lemma DaysHaveRoomIff(b: Book, adj: Adjustment, day: Day)
    requires adj.affectsUsed
    ensures UserDayHasRoom(b, adj, day) <==> !OverUserDay(b, adj, adj.amount, day)
    ensures KeyDayHasRoom(b, adj, day) <==> !OverKeyDay(b, adj, adj.amount, day)
  {
  }

  /**
    A precharge is accepted exactly when everything it draws on has room for it; reaching a
    limit is allowed.
   */
  lemma PrechargeAcceptedIff(b: Book, adj: Adjustment, day: Day, now: Time)
    requires adj.affectsUsed && adj.prechargeMode && !adj.clampToBalance && adj.amount <= 0
    ensures ApplyTx(b, adj, day, now).reply.Accepted? <==>
      && adj.userId in b.users && b.users[adj.userId].balance + adj.amount >= 0
      && (adj.keyId != 0 ==>
            adj.keyId in b.keys && (b.keys[adj.keyId].limit.Some? ==> b.keys[adj.keyId].used - adj.amount <= b.keys[adj.keyId].limit.value))
      && (adj.amount < 0 && adj.dailyLimit > 0 ==>
            (if (adj.userId, day) in b.userDays then b.userDays[(adj.userId, day)] else 0) - adj.amount <= adj.dailyLimit)
      && (adj.amount < 0 && adj.keyId != 0 && adj.keyDailyLimit > 0 ==>
            (if (adj.keyId, day) in b.keyDays then b.keyDays[(adj.keyId, day)] else 0) - adj.amount <= adj.keyDailyLimit)
      && NewRequest(b.ledger, adj.requestId, adj.entryType)
  {
    NewIsNotDuplicate(b.ledger, adj);
    KeyHasRoomIff(b.keys, adj);
    DaysHaveRoomIff(b, adj, day);
  }

  /** A refused precharge is told the first thing that stood in its way. */
  lemma RefusalNamesTheFirst(b: Book, adj: Adjustment, day: Day, now: Time)
    requires adj.affectsUsed && adj.prechargeMode && !adj.clampToBalance && adj.amount <= 0
    ensures var key, user, userDay, keyDay := KeyHasRoom(b.keys, adj), adj.userId in b.users, UserDayHasRoom(b, adj, day), KeyDayHasRoom(b, adj, day);
      var reply := ApplyTx(b, adj, day, now).reply;
      && (reply == Refused(ErrKeyDepleted) <==> !key)
      && (reply == Refused(ErrNotFound) <==> key && !user)
      && (reply == Refused(ErrInsufficientCredits) <==> key && user && b.users[adj.userId].balance + adj.amount < 0)
      && (reply == Refused(ErrDailyLimitExceeded) <==> key && user && b.users[adj.userId].balance + adj.amount >= 0 && !userDay)
      && (reply == Refused(ErrKeyDailyLimitExceeded) <==>
            key && user && b.users[adj.userId].balance + adj.amount >= 0 && userDay && !keyDay)
      && (reply == Refused(ErrDuplicateEntry) <==>
            key && user && b.users[adj.userId].balance + adj.amount >= 0 && userDay && keyDay && !NewRequest(b.ledger, adj.requestId, adj.entryType))
  {
    NewIsNotDuplicate(b.ledger, adj);
    KeyHasRoomIff(b.keys, adj);
    DaysHaveRoomIff(b, adj, day);
  }

  /** What is no precharge and carries no limits needs the user, a new request, and the balance unless it is clamped to it. */
  lemma OtherAcceptedIff(b: Book, adj: Adjustment, day: Day, now: Time)
    requires !adj.prechargeMode && (adj.affectsUsed ==> adj.dailyLimit <= 0 && adj.keyDailyLimit <= 0)
    ensures ApplyTx(b, adj, day, now).reply.Accepted? <==>
      && adj.userId in b.users && (adj.clampToBalance || b.users[adj.userId].balance + adj.amount >= 0)
      && NewRequest(b.ledger, adj.requestId, adj.entryType)
  {
    NewIsNotDuplicate(b.ledger, adj);
  }

  // ---- What an accepted adjustment writes ----

  /** The amount that is booked: a debit that is clamped takes what there is. */
  function Taken(balance: int, adj: Adjustment): int {
    if adj.clampToBalance then Max(adj.amount, -balance) else adj.amount
  }

  lemma TakenIsEffective(balance: int, adj: Adjustment)
    ensures Effective(balance, adj) == Taken(balance, adj)
  {
  }

  /** The balance moves by the amount, the used credit against it, nobody else's row at all. */
  lemma UserRowAfter(b: Book, adj: Adjustment, day: Day, now: Time)
    requires ApplyTx(b, adj, day, now).reply.Accepted?
    ensures var users, users' := b.users, ApplyTx(b, adj, day, now).book.users;
      && users'.Keys == users.Keys && adj.userId in users
      && (forall u :: u in users && u != adj.userId ==> users'[u] == users[u])
      && var amount := Taken(users[adj.userId].balance, adj);
         && users'[adj.userId].balance == users[adj.userId].balance + amount
         && users'[adj.userId].used == if adj.affectsUsed then users[adj.userId].used - amount else users[adj.userId].used
  {
  }

  /** One entry is appended, with the amount taken and the balance it leaves. */
  lemma EntryAfter(b: Book, adj: Adjustment, day: Day, now: Time)
    requires ApplyTx(b, adj, day, now).reply.Accepted?
    ensures adj.userId in b.users
    ensures var amount := Taken(b.users[adj.userId].balance, adj);
      var e := Entry(adj.userId, adj.entryType, amount, b.users[adj.userId].balance + amount, adj.refType, adj.refId, adj.requestId, now);
      ApplyTx(b, adj, day, now).book.ledger == b.ledger + [e] && ApplyTx(b, adj, day, now).reply == Accepted(e)
  {
  }

  /** Only the user's counter of the day moves, and only for spending. */
  lemma UserDaysAfter(b: Book, adj: Adjustment, day: Day, now: Time, u: UserId, d: Day)
    requires ApplyTx(b, adj, day, now).reply.Accepted?
    ensures adj.userId in b.users
    ensures var days := ApplyTx(b, adj, day, now).book.userDays;
      Lookup(days, (u, d)) == Lookup(b.userDays, (u, d))
        - if adj.affectsUsed && u == adj.userId && d == day then Taken(b.users[adj.userId].balance, adj) else 0
  {
  }

  /** And the counter of the key that pays. */
  lemma KeyDaysAfter(b: Book, adj: Adjustment, day: Day, now: Time, k: KeyId, d: Day)
    requires ApplyTx(b, adj, day, now).reply.Accepted?
    ensures adj.userId in b.users
    ensures var days := ApplyTx(b, adj, day, now).book.keyDays;
      Lookup(days, (k, d)) == Lookup(b.keyDays, (k, d))
        - if adj.affectsUsed && adj.keyId != 0 && k == adj.keyId && d == day then Taken(b.users[adj.userId].balance, adj) else 0
  {
  }

  /** The paying key's used credit moves against the amount, never below zero; nothing else of any key changes. */
  lemma KeyRowAfter(b: Book, adj: Adjustment, day: Day, now: Time)
    requires ApplyTx(b, adj, day, now).reply.Accepted? && (adj.prechargeMode ==> adj.amount <= 0 && !adj.clampToBalance)
    ensures adj.userId in b.users
    ensures var keys, keys' := b.keys, ApplyTx(b, adj, day, now).book.keys;
      && keys'.Keys == keys.Keys
      && (forall k :: k in keys && (k != adj.keyId || k == 0 || !adj.affectsUsed) ==> keys'[k] == keys[k])
      && (adj.keyId in keys && adj.keyId != 0 && adj.affectsUsed ==>
            var amount := Taken(b.users[adj.userId].balance, adj);
            keys'[adj.keyId] == keys[adj.keyId].(used :=
              if amount == 0 || adj.prechargeMode then keys[adj.keyId].used - amount else Max(keys[adj.keyId].used - amount, 0)))
  {
  }

  /** A refusal writes nothing, except that a key found without room is marked as depleted if it was in use. */
  lemma RefusedLeaves(b: Book, adj: Adjustment, day: Day, now: Time)
    requires ApplyTx(b, adj, day, now).reply.Refused?
    ensures var tx, k := ApplyTx(b, adj, day, now), adj.keyId;
      if tx.reply.error.ErrKeyDepleted? && k in b.keys && b.keys[k].limit.Some? && b.keys[k].status.KeyEnabled?
      then tx.book == b.(keys := b.keys[k := b.keys[k].(status := KeyDepleted)]) else tx.book == b
  {
  }

  // ---- Grants and codes ----

  /** A grant moves the balance by exactly its amount, or is refused; it counts as no spending. */
  lemma GrantMoves(b: Book, user: UserId, amount: int, actor: int, key: string, day: Day, now: Time)
    ensures var adj := B.GrantAdjustment(user, amount, actor, key);
      var tx, r := ApplyTx(b, adj, day, now), if key == "" then "" else "admin:" + key;
      && (tx.reply.Accepted? <==>
            && user in b.users && b.users[user].balance + amount >= 0
            && NewRequest(b.ledger, r, if amount < 0 then Revoke else EntryType.Grant))
      && (tx.reply.Accepted? ==>
            && tx.book == b.(users := b.users[user := b.users[user].(balance := b.users[user].balance + amount)], ledger := tx.book.ledger)
            && tx.book.ledger == b.ledger + [Entry(user, if amount < 0 then Revoke else EntryType.Grant, amount, b.users[user].balance + amount, AdminRef, actor, r, now)])
  {
    OtherAcceptedIff(b, B.GrantAdjustment(user, amount, actor, key), day, now);
  }

  /** A code adds exactly its credits, as often as it is booked. */
  lemma RedemptionMoves(b: Book, user: UserId, code: B.Redemption, day: Day, now: Time)
    ensures var tx := ApplyTx(b, B.RedeemAdjustment(user, code), day, now);
      && (tx.reply.Accepted? <==> user in b.users && b.users[user].balance + code.credits >= 0)
      && (tx.reply.Accepted? ==>
            && tx.book == b.(users := b.users[user := b.users[user].(balance := b.users[user].balance + code.credits)], ledger := tx.book.ledger)
            && tx.book.ledger == b.ledger + [Entry(user, Redeem, code.credits, b.users[user].balance + code.credits, RedemptionRef, code.id, "", now)])
  {
    OtherAcceptedIff(b, B.RedeemAdjustment(user, code), day, now);
  }
}
