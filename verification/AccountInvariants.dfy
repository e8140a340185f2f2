/**
  What every adjustment keeps, over every sequence of adjustments whatever their
  shape: each balance is the sum of its ledger, is never negative, every entry
  records the running sum, and no request has two entries of one type.
 */
module AccountInvariants {
  import opened Outcomes
  import opened Ledger

  ghost predicate BalancesMatch(b: Book) {
    forall u :: u in b.users ==> b.users[u].balance == Total(b.ledger, ByUser(u)) && b.users[u].balance >= 0
  }

  ghost predicate RunningSums(b: Book) {
    forall i :: 0 <= i < |b.ledger| ==>
      b.ledger[i].userId in b.users && b.ledger[i].balanceAfter == Total(b.ledger[..i + 1], ByUser(b.ledger[i].userId))
  }

  ghost predicate UniqueEntries(l: seq<Entry>) {
    forall i, j :: 0 <= i < j < |l| && l[i].requestId != "" && l[i].requestId == l[j].requestId ==> l[i].entryType != l[j].entryType
  }

  ghost predicate Sound(b: Book) {
    BalancesMatch(b) && RunningSums(b) && UniqueEntries(b.ledger)
  }

  lemma BookedKeepsBalances(b: Book, adj: Adjustment, day: Day, now: Time)
    requires BalancesMatch(b) && Refusal(b, adj, day).None?
    ensures BalancesMatch(Booked(b, adj, day, now))
  {
    var b' := Booked(b, adj, day, now);
    forall u | u in b'.users
      ensures b'.users[u].balance == Total(b'.ledger, ByUser(u)) && b'.users[u].balance >= 0
    {
      TotalAppend(b.ledger, NewEntry(b, adj, now), ByUser(u));
    }
  }

  /** The new entry records its user's new sum; those before it keep theirs. */
  lemma AppendKeepsRunningSums(b: Book, b': Book, e: Entry)
    requires RunningSums(b) && b'.ledger == b.ledger + [e] && b'.users.Keys == b.users.Keys
    requires e.userId in b.users && e.balanceAfter == Total(b'.ledger, ByUser(e.userId))
    ensures RunningSums(b')
  {
    forall i | 0 <= i < |b'.ledger|
      ensures b'.ledger[i].userId in b'.users
      ensures b'.ledger[i].balanceAfter == Total(b'.ledger[..i + 1], ByUser(b'.ledger[i].userId))
    {
      if i < |b.ledger| {
        assert b'.ledger[..i + 1] == b.ledger[..i + 1];
      } else {
        assert b'.ledger[..i + 1] == b'.ledger;
      }
    }
  }

  lemma AppendKeepsUnique(l: seq<Entry>, e: Entry)
    requires UniqueEntries(l) && (e.requestId == "" || !HasEntry(l, e.requestId, e.entryType))
    ensures UniqueEntries(l + [e])
  {
    assert forall i :: 0 <= i < |l| && e.requestId != "" ==> !(l[i].requestId == e.requestId && l[i].entryType == e.entryType);
  }

  lemma ApplyTxKeepsSound(b: Book, adj: Adjustment, day: Day, now: Time)
    requires Sound(b)
    ensures Sound(ApplyTx(b, adj, day, now).book)
  {
    if Refusal(b, adj, day).None? {
      var b', e := Booked(b, adj, day, now), NewEntry(b, adj, now);
      BookedKeepsBalances(b, adj, day, now);
      assert b'.users.Keys == b.users.Keys && e.balanceAfter == b'.users[e.userId].balance;
      AppendKeepsRunningSums(b, b', e);
      AppendKeepsUnique(b.ledger, e);
    }
  }

  /** One adjustment of a run, with the day and time at which its transaction commits. */
  datatype Op = Op(adj: Adjustment, day: Day, now: Time)

  function Replay(b: Book, ops: seq<Op>): Book {
    if ops == [] then b
    else
      var prev := Replay(b, ops[..|ops| - 1]);
      ApplyTx(prev, ops[|ops| - 1].adj, ops[|ops| - 1].day, ops[|ops| - 1].now).book
  }

  /** A book with accounts but no movements yet. */
  ghost predicate Fresh(b: Book) {
    && b.ledger == [] && b.userDays == map[] && b.keyDays == map[]
    && (forall u :: u in b.users ==> b.users[u] == User(0, 0))
    && (forall k :: k in b.keys ==> b.keys[k].used == 0 && b.keys[k].owner in b.users)
  }

  /** The reconciliation query: the users whose balance differs from their ledger. */
  function Reconcile(b: Book): set<UserId> {
    set u | u in b.users && b.users[u].balance != Total(b.ledger, ByUser(u))
  }

  lemma {:induction false} EveryRunIsSound(b: Book, ops: seq<Op>)
    requires Fresh(b)
    ensures Sound(Replay(b, ops))
    ensures Reconcile(Replay(b, ops)) == {}
  {
    if ops != [] {
      EveryRunIsSound(b, ops[..|ops| - 1]);
      var last := ops[|ops| - 1];
      ApplyTxKeepsSound(Replay(b, ops[..|ops| - 1]), last.adj, last.day, last.now);
    }
  }

  /** Booking the same request and type twice has the effect of booking it once. */
  lemma RepeatIsIdempotent(b: Book, adj: Adjustment, day: Day, now: Time, day2: Day, now2: Time)
    requires adj.requestId != "" && ApplyTx(b, adj, day, now).reply.Accepted?
    ensures var b' := ApplyTx(b, adj, day, now).book;
      var again := ApplyTx(b', adj, day2, now2);
      again.reply.Refused? && b'.ledger == again.book.ledger && b'.users == again.book.users
      && b'.userDays == again.book.userDays && b'.keyDays == again.book.keyDays
      && (!adj.prechargeMode ==> again.book == b')
  {
    var b' := ApplyTx(b, adj, day, now).book;
    assert b'.ledger[|b.ledger|].requestId == adj.requestId;
  }
}
