/** What one round of the monthly grant does to each account and counts it as. */
module GrantTally {
  import opened Outcomes
  import opened Ledger
  import opened Acceptance
  import opened BillingService
  import opened MonthlyGrant

  datatype Terms = Terms(mode: Mode, amount: int, month: string)

  /** Topping up passes over an account that has the amount. */
  predicate Covered(b: Book, t: Terms, u: nat)
    requires u in b.users
  {
    t.mode == TopUp && b.users[u].balance >= t.amount
  }

  /** The account has its entry of the month. */
  predicate HasIts(b: Book, t: Terms, u: nat) {
    exists i :: 0 <= i < |b.ledger| && b.ledger[i].entryType == EntryType.Grant && b.ledger[i].requestId == "admin:" + GrantKey(t.month, u)
  }

  lemma HasItsIff(b: Book, t: Terms, u: nat)
    ensures HasIts(b, t, u) <==> GrantedIn(b, t.month, u)
    ensures NewRequest(b.ledger, "admin:" + GrantKey(t.month, u), EntryType.Grant) <==> !HasIts(b, t, u)
  {
  }

  /** What the account has afterwards. */
  function Due(b: Book, t: Terms, u: nat): int
    requires u in b.users
  {
    if Covered(b, t, u) || HasIts(b, t, u) then b.users[u].balance
    else if t.mode == TopUp then t.amount
    else b.users[u].balance + t.amount
  }

  /** One account is passed over, found done or given its due, and counted as that. */
  lemma OneIsCounted(r: Round, user: nat, t: Terms, day: Day, now: Time)
    requires user in r.book.users && t.amount > 0 && r.book.users[user].balance >= 0
    ensures var n := GrantOne(r, user, t.mode, t.amount, t.month, day, now);
      && n.book.users.Keys == r.book.users.Keys && n.book.users[user].balance == Due(r.book, t, user)
      && if Covered(r.book, t, user) then n == r.(tally := n.tally) && n.tally == r.tally.(skipped := r.tally.skipped + 1)
         else if HasIts(r.book, t, user) then n == r.(tally := n.tally) && n.tally == r.tally.(replayed := r.tally.replayed + 1)
         else n.tally == r.tally.(granted := r.tally.granted + 1) && |n.book.ledger| == |r.book.ledger| + 1
  {
    HasItsIff(r.book, t, user);
    if !Covered(r.book, t, user) {
      var delta := Delta(t.mode, t.amount, r.book.users[user].balance).value;
      GrantMoves(r.book, user, delta, 0, GrantKey(t.month, user), day, now);
      if HasIts(r.book, t, user) {
        OnlyDuplicate(r.book, user, delta, GrantKey(t.month, user), day, now);
      }
    }
  }

  lemma OnlyDuplicate(b: Book, user: nat, delta: int, key: string, day: Day, now: Time)
    requires user in b.users && b.users[user].balance + delta >= 0 && delta > 0 && key != ""
    requires !NewRequest(b.ledger, "admin:" + key, EntryType.Grant)
    ensures ApplyTx(b, GrantAdjustment(user, delta, 0, key), day, now) == TxResult(b, Refused(ErrDuplicateEntry))
  {
    NewIsNotDuplicate(b.ledger, GrantAdjustment(user, delta, 0, key));
  }

  /** The other accounts keep their balance and have their entry or not, as before. */
  lemma OthersAreLeft(r: Round, user: nat, other: nat, t: Terms, day: Day, now: Time)
    requires user in r.book.users && other in r.book.users && user != other
    ensures var n := GrantOne(r, user, t.mode, t.amount, t.month, day, now);
      n.book.users.Keys == r.book.users.Keys && n.book.users[other] == r.book.users[other] && HasIts(n.book, t, other) == HasIts(r.book, t, other)
  {
    OthersKept(r, user, other, t.mode, t.amount, t.month, day, now);
    HasItsIff(r.book, t, other);
    HasItsIff(GrantOne(r, user, t.mode, t.amount, t.month, day, now).book, t, other);
    var delta := Delta(t.mode, t.amount, r.book.users[user].balance);
    if delta.Some? {
      var adj := GrantAdjustment(user, delta.value, 0, GrantKey(t.month, user));
      KeysAreSeparate(t.month, user, t.month, other);
      SamePrefix("admin:", GrantKey(t.month, user), GrantKey(t.month, other));
      HasEntryAppend(r.book.ledger, NewEntry(r.book, adj, now), AdminRequestId(GrantKey(t.month, other)), EntryType.Grant);
    }
  }

  lemma SamePrefix(p: string, s: string, t: string)
    ensures p + s == p + t <==> s == t
  {
    assert (p + s)[|p|..] == s && (p + t)[|p|..] == t;
  }

  predicate Untouched(b: Book, b': Book, t: Terms, u: nat) {
    u in b.users && u in b'.users && b'.users[u] == b.users[u] && HasIts(b', t, u) == HasIts(b, t, u)
  }

  /** Accounts not in the list are left alone. */
  lemma {:induction false} RoundLeaves(b: Book, ids: seq<nat>, t: Terms, day: Day, now: Time, other: nat)
    requires Accounts(b, ids) && other in b.users && other !in ids
    ensures Untouched(b, GrantAll(b, ids, t.mode, t.amount, t.month, day, now).book, t, other)
  {
    if ids != [] {
      var front, user := ids[..|ids| - 1], ids[|ids| - 1];
      FrontAccounts(b, ids);
      RoundLeaves(b, front, t, day, now, other);
      OthersAreLeft(GrantAll(b, front, t.mode, t.amount, t.month, day, now), user, other, t, day, now);
    }
  }

  /** Every listed account has its due, whichever comes first. */
  lemma {:induction false} RoundGives(b: Book, ids: seq<nat>, t: Terms, day: Day, now: Time, u: nat)
    requires Accounts(b, ids) && Ascending(ids) && t.amount > 0 && NoDebt(b) && u in ids
    ensures var b' := GrantAll(b, ids, t.mode, t.amount, t.month, day, now).book;
      u in b.users && u in b'.users && b'.users[u].balance == Due(b, t, u)
  {
    var front, user := ids[..|ids| - 1], ids[|ids| - 1];
    FrontAccounts(b, ids);
    var r := GrantAll(b, front, t.mode, t.amount, t.month, day, now);
    if u == user {
      RoundLeaves(b, front, t, day, now, u);
      OneIsCounted(r, u, t, day, now);
    } else {
      RoundGives(b, front, t, day, now, u);
      OthersAreLeft(r, user, u, t, day, now);
    }
  }

  function Passed(b: Book, ids: seq<nat>, t: Terms): set<nat>
    requires Accounts(b, ids)
  {
    set i: nat | i < |ids| && Covered(b, t, ids[i])
  }

  function Found(b: Book, ids: seq<nat>, t: Terms): set<nat>
    requires Accounts(b, ids)
  {
    set i: nat | i < |ids| && !Covered(b, t, ids[i]) && HasIts(b, t, ids[i])
  }

  lemma SetsAppend(b: Book, ids: seq<nat>, t: Terms, user: nat)
    requires Accounts(b, ids) && user in b.users && Accounts(b, ids + [user])
    ensures Passed(b, ids + [user], t) == Passed(b, ids, t) + if Covered(b, t, user) then {|ids|} else {}
    ensures Found(b, ids + [user], t) == Found(b, ids, t) + if !Covered(b, t, user) && HasIts(b, t, user) then {|ids|} else {}
  {
  }

  /** One account more on the count, according to how the round found it. */
  predicate Counts(b: Book, t: Terms, user: nat, tally: Tally, size: nat, tally': Tally, size': nat)
    requires user in b.users
  {
    if Covered(b, t, user) then tally' == tally.(skipped := tally.skipped + 1) && size' == size
    else if HasIts(b, t, user) then tally' == tally.(replayed := tally.replayed + 1) && size' == size
    else tally' == tally.(granted := tally.granted + 1) && size' == size + 1
  }

  lemma NextCounts(b: Book, r: Round, user: nat, t: Terms, day: Day, now: Time)
    requires Untouched(b, r.book, t, user) && t.amount > 0 && b.users[user].balance >= 0
    ensures var n := GrantOne(r, user, t.mode, t.amount, t.month, day, now);
      Counts(b, t, user, r.tally, |r.book.ledger|, n.tally, |n.book.ledger|)
  {
    OneIsCounted(r, user, t, day, now);
  }

  predicate Tallied(b: Book, ids: seq<nat>, t: Terms, tally: Tally, size: nat)
    requires Accounts(b, ids)
  {
    && tally.skipped == |Passed(b, ids, t)| && tally.replayed == |Found(b, ids, t)| && tally.failed == 0
    && tally.granted == |ids| - |Passed(b, ids, t)| - |Found(b, ids, t)| && size == |b.ledger| + tally.granted
  }

  lemma NextTallied(b: Book, ids: seq<nat>, t: Terms, user: nat, tally: Tally, size: nat, tally': Tally, size': nat)
    requires Accounts(b, ids) && user in b.users && Accounts(b, ids + [user])
    requires Tallied(b, ids, t, tally, size) && Counts(b, t, user, tally, size, tally', size')
    ensures Tallied(b, ids + [user], t, tally', size')
  {
    SetsAppend(b, ids, t, user);
  }

  /** A round counts every account once: passed over, found done, or granted, with one new entry for each grant. */
  lemma {:induction false} RoundIsCounted(b: Book, ids: seq<nat>, t: Terms, day: Day, now: Time)
    requires Accounts(b, ids) && Ascending(ids) && t.amount > 0 && NoDebt(b)
    ensures var r := GrantAll(b, ids, t.mode, t.amount, t.month, day, now); Tallied(b, ids, t, r.tally, |r.book.ledger|)
  {
    if ids != [] {
      var front, user := ids[..|ids| - 1], ids[|ids| - 1];
      FrontAccounts(b, ids);
      RoundIsCounted(b, front, t, day, now);
      RoundLeaves(b, front, t, day, now, user);
      var r := GrantAll(b, front, t.mode, t.amount, t.month, day, now);
      NextCounts(b, r, user, t, day, now);
      var n := GrantOne(r, user, t.mode, t.amount, t.month, day, now);
      NextTallied(b, front, t, user, r.tally, |r.book.ledger|, n.tally, |n.book.ledger|);
    }
  }
}
