/**
  The billing service: the only writer of balances, counters and the ledger.
  The fields are the tables; `Apply` is one database transaction.
 */
module BillingService {
  import opened Outcomes
  import opened Ledger

  datatype RedemptionStatus = Unused | Used | Disabled
  datatype Redemption = Redemption(id: int, status: RedemptionStatus, credits: int, expiresAt: Option<Time>)
  datatype RedeemReply = Redeemed(entry: Entry) | CodeNotFound | CodeUsed | CodeDisabled | CodeExpired | LedgerRefused(error: Error)

  const ADMIN_PREFIX := "admin:"

  /** An empty idempotency key takes no part in deduplication. */
  function AdminRequestId(key: string): string {
    if key == "" then "" else ADMIN_PREFIX + key
  }

  function GrantAdjustment(user: UserId, amount: int, actor: int, key: string): Adjustment {
    Adjustment(user, amount, if amount < 0 then Revoke else Grant, AdminRef, actor,
               AdminRequestId(key), false, false, 0, 0, 0, false)
  }

  function RedeemAdjustment(user: UserId, r: Redemption): Adjustment {
    Adjustment(user, r.credits, Redeem, RedemptionRef, r.id, "", false, false, 0, 0, 0, false)
  }

  predicate Redeemable(r: Redemption, now: Time) {
    r.status.Unused? && (r.expiresAt.None? || r.expiresAt.value > now)
  }

  class Service {
    var users: map<UserId, User>
    var keys: map<KeyId, ApiKey>
    var userDays: map<(UserId, Day), int>
    var keyDays: map<(KeyId, Day), int>
    var ledger: seq<Entry>
    var redemptions: map<string, Redemption>

    ghost function Books(): Book
      reads this
    {
      Book(users, keys, userDays, keyDays, ledger)
    }

    constructor (b: Book, codes: map<string, Redemption>)
      ensures Books() == b && redemptions == codes
    {
      users, keys, userDays, keyDays, ledger := b.users, b.keys, b.userDays, b.keyDays, b.ledger;
      redemptions := codes;
    }

    /** Keeps the key's used credit; `amount` is the effective, possibly clamped, amount. */
    method ApplyKeyCredit(adj: Adjustment, amount: int) returns (depleted: bool)
      modifies this`keys
      ensures depleted == KeyRefuses(old(keys), adj)
      ensures keys == if depleted then MarkDepleted(old(keys), adj.keyId) else KeyCharged(old(keys), adj, amount)
    {
      if adj.keyId == 0 || !adj.affectsUsed {
        return false;
      }
      if adj.prechargeMode {
        if adj.keyId in keys && (keys[adj.keyId].limit.None? || keys[adj.keyId].used - adj.amount <= keys[adj.keyId].limit.value) {
          keys := keys[adj.keyId := keys[adj.keyId].(used := keys[adj.keyId].used - adj.amount)];
          return false;
        }
        if adj.keyId in keys && keys[adj.keyId].limit.Some? && keys[adj.keyId].status == KeyEnabled {
          keys := keys[adj.keyId := keys[adj.keyId].(status := KeyDepleted)];
        }
        return true;
      }
      if amount != 0 && adj.keyId in keys {
        keys := keys[adj.keyId := keys[adj.keyId].(used := Max(keys[adj.keyId].used - amount, 0))];
      }
      return false;
    }

    method ValidateDailyLimits(adj: Adjustment, amount: int, day: Day) returns (error: Option<Error>)
      ensures error == if OverUserDay(Books(), adj, amount, day) then Some(ErrDailyLimitExceeded)
                       else if OverKeyDay(Books(), adj, amount, day) then Some(ErrKeyDailyLimitExceeded) else None
    {
      if !adj.affectsUsed || amount >= 0 {
        return None;
      }
      if adj.dailyLimit > 0 && Lookup(userDays, (adj.userId, day)) - amount > adj.dailyLimit {
        return Some(ErrDailyLimitExceeded);
      }
      if adj.keyId != 0 && adj.keyDailyLimit > 0 && Lookup(keyDays, (adj.keyId, day)) - amount > adj.keyDailyLimit {
        return Some(ErrKeyDailyLimitExceeded);
      }
      return None;
    }

    method WriteBalanceAndCounters(adj: Adjustment, amount: int, day: Day)
      requires adj.userId in users
      modifies this`users, this`userDays, this`keyDays
      ensures users == old(users)[adj.userId := User(old(users)[adj.userId].balance + amount,
                                                     if adj.affectsUsed then old(users)[adj.userId].used - amount else old(users)[adj.userId].used)]
      ensures userDays == if adj.affectsUsed then Bump(old(userDays), (adj.userId, day), -amount) else old(userDays)
      ensures keyDays == if TouchesKey(adj) then Bump(old(keyDays), (adj.keyId, day), -amount) else old(keyDays)
    {
      var row := users[adj.userId];
      users := users[adj.userId := User(row.balance + amount, if adj.affectsUsed then row.used - amount else row.used)];
      if adj.affectsUsed {
        userDays := Bump(userDays, (adj.userId, day), -amount);
        if adj.keyId != 0 {
          keyDays := Bump(keyDays, (adj.keyId, day), -amount);
        }
      }
    }

    /** The unique index on (request id, entry type) covers non-empty request ids only. */
    method WriteLedgerEntry(entry: Entry) returns (duplicate: bool)
      modifies this`ledger
      ensures duplicate == (entry.requestId != "" && HasEntry(old(ledger), entry.requestId, entry.entryType))
      ensures ledger == if duplicate then old(ledger) else old(ledger) + [entry]
    {
      if entry.requestId != "" {
        for i := 0 to |ledger|
          invariant forall j :: 0 <= j < i ==> !(ledger[j].requestId == entry.requestId && ledger[j].entryType == entry.entryType)
        {
          if ledger[i].requestId == entry.requestId && ledger[i].entryType == entry.entryType {
            return true;
          }
        }
      }
      ledger := ledger + [entry];
      return false;
    }

    /** The writes of a transaction that passed its checks; a precharge has taken the key's credit before. */
    method WriteRows(adj: Adjustment, entry: Entry, day: Day) returns (duplicate: bool)
      requires adj.userId in users
      modifies this`users, this`keys, this`userDays, this`keyDays, this`ledger
      ensures users == old(users)[adj.userId := User(old(users)[adj.userId].balance + entry.amount,
                                                     if adj.affectsUsed then old(users)[adj.userId].used - entry.amount else old(users)[adj.userId].used)]
      ensures keys == if adj.prechargeMode then old(keys) else KeyCharged(old(keys), adj, entry.amount)
      ensures userDays == if adj.affectsUsed then Bump(old(userDays), (adj.userId, day), -entry.amount) else old(userDays)
      ensures keyDays == if TouchesKey(adj) then Bump(old(keyDays), (adj.keyId, day), -entry.amount) else old(keyDays)
      ensures duplicate == (entry.requestId != "" && HasEntry(old(ledger), entry.requestId, entry.entryType))
      ensures ledger == if duplicate then old(ledger) else old(ledger) + [entry]
    {
      WriteBalanceAndCounters(adj, entry.amount, day);
      if !adj.prechargeMode {
        var depleted := ApplyKeyCredit(adj, entry.amount);
      }
      duplicate := WriteLedgerEntry(entry);
    }

    /** The transaction from the user's lock on. */
    method ApplyToUser(adj: Adjustment, day: Day, now: Time) returns (reply: Reply)
      requires adj.userId in users
      modifies this`users, this`keys, this`userDays, this`keyDays, this`ledger
      ensures var b := old(Books()); reply == match RefusalForUser(b, adj, day) case Some(e) => Refused(e) case None => Accepted(NewEntry(b, adj, now))
      ensures reply.Accepted? ==>
        var booked := Ledger.Booked(old(Books()), adj, day, now);
        Books() == if adj.prechargeMode then booked.(keys := old(keys)) else booked
    {
      var amount := adj.amount;
      var newBalance := users[adj.userId].balance + amount;
      if newBalance < 0 {
        if !adj.clampToBalance {
          return Refused(ErrInsufficientCredits);
        }
        amount := -users[adj.userId].balance;
        newBalance := 0;
      }
      var over := ValidateDailyLimits(adj, amount, day);
      if over.Some? {
        return Refused(over.value);
      }
      var entry := Entry(adj.userId, adj.entryType, amount, newBalance, adj.refType, adj.refId, adj.requestId, now);
      assert amount == Effective(users[adj.userId].balance, adj) && entry == NewEntry(Books(), adj, now);
      var duplicate := WriteRows(adj, entry, day);
      return if duplicate then Refused(ErrDuplicateEntry) else Accepted(entry);
    }

    /** The body of the transaction: on a refusal it may leave staged writes, which the caller rolls back. */
    method ApplyStaged(adj: Adjustment, day: Day, now: Time) returns (reply: Reply)
      modifies this`users, this`keys, this`userDays, this`keyDays, this`ledger
      ensures reply == ApplyTx(old(Books()), adj, day, now).reply
      ensures reply.Accepted? || reply.error.ErrKeyDepleted? ==> Books() == ApplyTx(old(Books()), adj, day, now).book
    {
      if adj.prechargeMode {
        var depleted := ApplyKeyCredit(adj, adj.amount);
        if depleted {
          return Refused(ErrKeyDepleted);
        }
      }
      if adj.userId !in users {
        return Refused(ErrNotFound);
      }
      reply := ApplyToUser(adj, day, now);
    }

    /** One transaction: commit on success and on a depleted key, roll back otherwise. */
    method Apply(adj: Adjustment, day: Day, now: Time) returns (reply: Reply)
      modifies this
      ensures TxResult(Books(), reply) == ApplyTx(old(Books()), adj, day, now)
      ensures redemptions == old(redemptions)
    {
      var savedUsers, savedKeys, savedUserDays, savedKeyDays, savedLedger := users, keys, userDays, keyDays, ledger;
      reply := ApplyStaged(adj, day, now);
      if reply.Refused? && !reply.error.ErrKeyDepleted? {
        users, keys, userDays, keyDays, ledger := savedUsers, savedKeys, savedUserDays, savedKeyDays, savedLedger;
      }
    }

    /** An administrator's grant (positive) or revocation (negative); a zero amount is rejected unbooked. */
    method Grant(user: UserId, amount: int, actor: int, key: string, day: Day, now: Time) returns (reply: Option<Reply>)
      modifies this
      ensures amount == 0 ==> reply.None? && Books() == old(Books())
      ensures amount != 0 ==> reply.Some? && TxResult(Books(), reply.value) == ApplyTx(old(Books()), GrantAdjustment(user, amount, actor, key), day, now)
    {
      if amount == 0 {
        return None;
      }
      var r := Apply(GrantAdjustment(user, amount, actor, key), day, now);
      return Some(r);
    }

    /**
      Redeems a code: the status flips and the credits are booked in one transaction, so a code
      that was not booked stays unused, and a booked code cannot be booked again.
     */
    method RedeemCode(user: UserId, code: string, day: Day, now: Time) returns (reply: RedeemReply)
      requires forall c :: c in redemptions ==> redemptions[c].credits > 0
      modifies this
      ensures reply.Redeemed? <==> code in old(redemptions) && Redeemable(old(redemptions)[code], now) && user in old(users) && old(users)[user].balance + old(redemptions)[code].credits >= 0
      ensures reply.Redeemed? ==>
        && redemptions == old(redemptions)[code := old(redemptions)[code].(status := Used)]
        && !Redeemable(redemptions[code], now)
        && TxResult(Books(), Accepted(reply.entry)) == ApplyTx(old(Books()), RedeemAdjustment(user, old(redemptions)[code]), day, now)
      ensures !reply.Redeemed? ==> redemptions == old(redemptions) && Books() == old(Books())
      ensures reply.CodeNotFound? <==> code !in old(redemptions)
      ensures reply.CodeUsed? <==> code in old(redemptions) && old(redemptions)[code].status.Used?
      ensures reply.CodeDisabled? <==> code in old(redemptions) && old(redemptions)[code].status.Disabled?
      ensures reply.CodeExpired? <==>
        && code in old(redemptions) && old(redemptions)[code].status.Unused?
        && old(redemptions)[code].expiresAt.Some? && old(redemptions)[code].expiresAt.value <= now
    {
      if code !in redemptions {
        return CodeNotFound;
      }
      var r := redemptions[code];
      if !Redeemable(r, now) {
        return match r.status case Used => CodeUsed case Disabled => CodeDisabled case Unused => CodeExpired;
      }
      var saved := redemptions;
      redemptions := redemptions[code := r.(status := Used)];
      var booked := Apply(RedeemAdjustment(user, r), day, now);
      if booked.Refused? {
        redemptions := saved;
        return LedgerRefused(booked.error);
      }
      return Redeemed(booked.entry);
    }
  }
}
