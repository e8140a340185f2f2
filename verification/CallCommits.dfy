/**
  How each kind of transaction that the service issues keeps the books in order:
  consume, settle or refund of a call, and the grants and redemptions beside them.
 */
module CallCommits {
  import opened Outcomes
  import opened Ledger
  import opened AccountInvariants
  import opened CallCharges

  ghost predicate InOrder(b: Book) { Sound(b) && CallsWellFormed(b) && UsedMatches(b) }

  /** The floor at zero of the key update would change the result. */
  predicate FloorTakesEffect(b: Book, adj: Adjustment, day: Day) {
    && Refusal(b, adj, day).None? && TouchesKey(adj) && !adj.prechargeMode && adj.keyId in b.keys && adj.userId in b.users
    && b.keys[adj.keyId].used - Effective(b.users[adj.userId].balance, adj) < 0
  }

  lemma KeyUsedCovers(b: Book, r: string)
    requires InOrder(b) && r != "" && Find(b.ledger, r, Consume).Some?
    ensures var c := Find(b.ledger, r, Consume).value; c.refId in b.keys && b.keys[c.refId].used >= Charge(b.ledger, r) >= 0
  {
    var l := b.ledger;
    FindIsHasEntry(l, r, Consume);
    var c := Find(l, r, Consume).value;
    var i :| 0 <= i < |l| && l[i] == c;
    KeyTotalIsCharges(l, c.refId);
    forall j | 0 <= j < |l| && ConsumeOf(l[j], c.refId)
      ensures Charge(l, l[j].requestId) >= 0
    {
      ChargeIsNonNegative(b, l[j].requestId);
    }
    ChargesCover(l, l, c.refId, i);
  }

  /** An outstanding call has been charged its whole precharge. */
  lemma OutstandingCharge(b: Book, r: string)
    requires Sound(b) && r != "" && Find(b.ledger, r, Consume).Some?
    requires Find(b.ledger, r, SettleAdjust).None? && Find(b.ledger, r, Refund).None?
    ensures Charge(b.ledger, r) == -Find(b.ledger, r, Consume).value.amount
  {
    CallTotal(b.ledger, r);
  }

  lemma AppendKeepsShapes(b: Book, b': Book, e: Entry)
    requires forall i :: 0 <= i < |b.ledger| ==> EntryShape(b, b.ledger[i])
    requires b'.ledger == b.ledger + [e] && EntryShape(b', e)
    requires b'.keys.Keys == b.keys.Keys && forall k :: k in b.keys ==> b'.keys[k].owner == b.keys[k].owner
    ensures forall i :: 0 <= i < |b'.ledger| ==> EntryShape(b', b'.ledger[i])
  {
    forall i | 0 <= i < |b'.ledger|
      ensures EntryShape(b', b'.ledger[i])
    {
      if i < |b.ledger| {
        assert EntryShape(b, b.ledger[i]);
        FindAppend(b.ledger, e, b.ledger[i].requestId, Consume);
      }
    }
  }

  lemma AppendKeepsOrder(l: seq<Entry>, e: Entry)
    requires CallsInOrder(l) && UniqueEntries(l + [e])
    requires if IsCall(e.entryType) then e.requestId != "" && e.refType.ApiKeyRef? else !e.refType.ApiKeyRef?
    requires IsTerminal(e.entryType) ==>
      var c := Find(l, e.requestId, Consume); c.Some? && c.value.refType.ApiKeyRef? && c.value.refId == e.refId
    ensures CallsInOrder(l + [e])
  {
    var l' := l + [e];
    assert l'[..|l|] == l;
    assert forall i :: 0 <= i < |l| ==> l'[..i] == l[..i] && l'[i] == l[i];
  }

  lemma AppendKeepsOneTerminal(l: seq<Entry>, e: Entry)
    requires OneTerminal(l)
    requires e.entryType.Refund? ==> Find(l, e.requestId, SettleAdjust).None?
    requires e.entryType.SettleAdjust? ==> Find(l, e.requestId, Refund).None?
    ensures OneTerminal(l + [e])
  {
    forall r: string
      ensures !(Find(l + [e], r, SettleAdjust).Some? && Find(l + [e], r, Refund).Some?)
    {
      FindAppend(l, e, r, SettleAdjust);
      FindAppend(l, e, r, Refund);
    }
  }

  /** The consume that a terminal entry refers to was booked for a key. */
  lemma ConsumeHasKey(l: seq<Entry>, r: string)
    requires CallsInOrder(l) && Find(l, r, Consume).Some?
    ensures Find(l, r, Consume).value.refType.ApiKeyRef?
  {
    FindIsHasEntry(l, r, Consume);
  }

  lemma AppendKeepsCalls(b: Book, b': Book, e: Entry)
    requires CallsWellFormed(b) && UniqueEntries(b'.ledger) && b'.ledger == b.ledger + [e]
    requires b'.users.Keys == b.users.Keys && b'.keys.Keys == b.keys.Keys && forall k :: k in b.keys ==> b'.keys[k].owner == b.keys[k].owner
    requires if IsCall(e.entryType) then e.requestId != "" && e.refType.ApiKeyRef? else !e.refType.ApiKeyRef?
    requires IsTerminal(e.entryType) ==> Find(b.ledger, e.requestId, Consume).Some?
    requires EntryShape(b', e)
    requires e.entryType.Refund? ==> Find(b.ledger, e.requestId, SettleAdjust).None?
    requires e.entryType.SettleAdjust? ==> Find(b.ledger, e.requestId, Refund).None?
    ensures CallsWellFormed(b')
  {
    AppendKeepsShapes(b, b', e);
    AppendKeepsOneTerminal(b.ledger, e);
    if IsTerminal(e.entryType) {
      FindAppend(b.ledger, e, e.requestId, Consume);
      ConsumeHasKey(b.ledger, e.requestId);
    }
    AppendKeepsOrder(b.ledger, e);
  }

  /** The key's used credit moves by the booked amount, with the floor out of play. */
  lemma KeyUsedFollows(b: Book, adj: Adjustment, amount: int, k: KeyId)
    requires k in b.keys && (adj.affectsUsed ==> adj.keyId in b.keys && adj.keyId != 0)
    requires adj.affectsUsed && !adj.prechargeMode ==> b.keys[adj.keyId].used >= amount
    requires adj.prechargeMode ==> amount == adj.amount
    ensures var keys' := KeyCharged(b.keys, adj, amount);
      k in keys' && keys'[k].used == b.keys[k].used - if adj.affectsUsed && adj.keyId == k then amount else 0
  {
  }

  lemma AppendKeepsKeyUsed(b: Book, adj: Adjustment, day: Day, now: Time, k: KeyId)
    requires k in b.keys && b.keys[k].used == -Total(b.ledger, ByKey(k)) && Refusal(b, adj, day).None?
    requires adj.affectsUsed == adj.refType.ApiKeyRef?
    requires adj.affectsUsed ==> adj.keyId == adj.refId && adj.keyId in b.keys && adj.keyId != 0
    requires adj.affectsUsed && !adj.prechargeMode ==> b.keys[adj.keyId].used >= Effective(b.users[adj.userId].balance, adj)
    requires adj.prechargeMode ==> !adj.clampToBalance
    ensures var b' := Ledger.Booked(b, adj, day, now); k in b'.keys && b'.keys[k].used == -Total(b'.ledger, ByKey(k))
  {
    KeyUsedFollows(b, adj, Effective(b.users[adj.userId].balance, adj), k);
    TotalAppend(b.ledger, NewEntry(b, adj, now), ByKey(k));
  }

  lemma AppendKeepsUserUsed(b: Book, adj: Adjustment, day: Day, now: Time, u: UserId)
    requires u in b.users && b.users[u].used == -Total(b.ledger, CallsOfUser(u)) && adj.userId in b.users
    requires adj.affectsUsed == IsCall(adj.entryType)
    ensures var b' := Ledger.Booked(b, adj, day, now); u in b'.users && b'.users[u].used == -Total(b'.ledger, CallsOfUser(u))
  {
    TotalAppend(b.ledger, NewEntry(b, adj, now), CallsOfUser(u));
  }

  lemma AppendKeepsUsed(b: Book, adj: Adjustment, day: Day, now: Time)
    requires UsedMatches(b) && Refusal(b, adj, day).None?
    requires adj.affectsUsed == IsCall(adj.entryType) == adj.refType.ApiKeyRef?
    requires adj.affectsUsed ==> adj.keyId == adj.refId && adj.keyId in b.keys && adj.keyId != 0
    requires adj.affectsUsed && !adj.prechargeMode ==> b.keys[adj.keyId].used >= Effective(b.users[adj.userId].balance, adj)
    requires adj.prechargeMode ==> !adj.clampToBalance
    ensures UsedMatches(Ledger.Booked(b, adj, day, now))
  {
    var b' := Ledger.Booked(b, adj, day, now);
    forall k | k in b'.keys
      ensures b'.keys[k].used == -Total(b'.ledger, ByKey(k))
    {
      AppendKeepsKeyUsed(b, adj, day, now, k);
    }
    forall u | u in b'.users
      ensures b'.users[u].used == -Total(b'.ledger, CallsOfUser(u))
    {
      AppendKeepsUserUsed(b, adj, day, now, u);
    }
  }

  predicate ConsumeShape(b: Book, adj: Adjustment) {
    && adj.entryType.Consume? && adj.refType.ApiKeyRef? && adj.refId == adj.keyId && adj.requestId != ""
    && adj.affectsUsed && adj.prechargeMode && !adj.clampToBalance && adj.amount <= 0
    && adj.keyId in b.keys && b.keys[adj.keyId].owner == adj.userId
  }

  /** A write that ends a call which has a consume: a refund of all of it, or a settle that gives back at most all of it. */
  predicate TerminalShape(b: Book, adj: Adjustment) {
    && IsTerminal(adj.entryType) && adj.refType.ApiKeyRef? && adj.refId == adj.keyId && adj.requestId != ""
    && adj.affectsUsed && !adj.prechargeMode
    && var c := Find(b.ledger, adj.requestId, Consume);
      && c.Some? && c.value.userId == adj.userId && c.value.refId == adj.keyId
      && (if adj.entryType.Refund? then adj.amount == -c.value.amount && Find(b.ledger, adj.requestId, SettleAdjust).None?
          else adj.amount <= -c.value.amount && Find(b.ledger, adj.requestId, Refund).None?)
  }

  predicate PlainShape(adj: Adjustment) {
    !IsCall(adj.entryType) && !adj.refType.ApiKeyRef? && !adj.affectsUsed && !adj.prechargeMode
  }

  /** Changes of a key's limit or status leave the books in order. */
  lemma SameLedgerInOrder(b: Book, b': Book)
    requires InOrder(b) && b'.ledger == b.ledger && b'.users == b.users && b'.keys.Keys == b.keys.Keys
    requires forall k :: k in b.keys ==> b'.keys[k].owner == b.keys[k].owner && b'.keys[k].used == b.keys[k].used
    ensures InOrder(b')
  {
    forall i | 0 <= i < |b'.ledger|
      ensures EntryShape(b', b'.ledger[i])
    {
      assert EntryShape(b, b.ledger[i]);
    }
  }

  /** A terminal write of an unfinished call returns at most what its key has used. */
  lemma TerminalFitsKey(b: Book, adj: Adjustment)
    requires InOrder(b) && TerminalShape(b, adj) && Find(b.ledger, adj.requestId, adj.entryType).None?
    ensures adj.keyId in b.keys && b.keys[adj.keyId].owner == adj.userId && adj.userId in b.users
    ensures b.keys[adj.keyId].used >= Effective(b.users[adj.userId].balance, adj)
    ensures Effective(b.users[adj.userId].balance, adj) <= -Find(b.ledger, adj.requestId, Consume).value.amount
  {
    FindIsHasEntry(b.ledger, adj.requestId, Consume);
    assert EntryShape(b, Find(b.ledger, adj.requestId, Consume).value);
    KeyUsedCovers(b, adj.requestId);
    OutstandingCharge(b, adj.requestId);
  }

  lemma CommitCalls(b: Book, adj: Adjustment, day: Day, now: Time)
    requires InOrder(b) && Refusal(b, adj, day).None?
    requires ConsumeShape(b, adj) || PlainShape(adj) || (TerminalShape(b, adj) && Find(b.ledger, adj.requestId, adj.entryType).None?)
    ensures CallsWellFormed(Ledger.Booked(b, adj, day, now))
  {
    var b', e := Ledger.Booked(b, adj, day, now), NewEntry(b, adj, now);
    assert UniqueEntries(b'.ledger) by {
      ApplyTxKeepsSound(b, adj, day, now);
    }
    if IsTerminal(adj.entryType) {
      TerminalFitsKey(b, adj);
      FindAppend(b.ledger, e, adj.requestId, Consume);
    }
    AppendKeepsCalls(b, b', e);
  }

  lemma CommitAccepted(b: Book, adj: Adjustment, day: Day, now: Time)
    requires InOrder(b) && Refusal(b, adj, day).None?
    requires ConsumeShape(b, adj) || PlainShape(adj) || (TerminalShape(b, adj) && Find(b.ledger, adj.requestId, adj.entryType).None?)
    ensures InOrder(Ledger.Booked(b, adj, day, now))
  {
    CommitCalls(b, adj, day, now);
    ApplyTxKeepsSound(b, adj, day, now);
    if IsTerminal(adj.entryType) {
      TerminalFitsKey(b, adj);
    }
    AppendKeepsUsed(b, adj, day, now);
  }

  lemma RefusedInOrder(b: Book, adj: Adjustment, day: Day, now: Time)
    requires InOrder(b) && Refusal(b, adj, day).Some?
    ensures InOrder(ApplyTx(b, adj, day, now).book)
  {
    SameLedgerInOrder(b, ApplyTx(b, adj, day, now).book);
  }

  lemma AcceptedIsFirst(b: Book, adj: Adjustment, day: Day, now: Time)
    requires adj.requestId != "" && ApplyTx(b, adj, day, now).reply.Accepted?
    ensures Find(b.ledger, adj.requestId, adj.entryType).None?
  {
    FindIsHasEntry(b.ledger, adj.requestId, adj.entryType);
  }

  lemma CommitConsume(b: Book, adj: Adjustment, day: Day, now: Time)
    requires InOrder(b) && ConsumeShape(b, adj)
    ensures InOrder(ApplyTx(b, adj, day, now).book)
    ensures ApplyTx(b, adj, day, now).reply.Accepted? ==> Find(b.ledger, adj.requestId, Consume).None?
  {
    if Refusal(b, adj, day).None? {
      AcceptedIsFirst(b, adj, day, now);
      CommitAccepted(b, adj, day, now);
    } else {
      RefusedInOrder(b, adj, day, now);
    }
  }

  lemma RefusedChangesNothing(b: Book, adj: Adjustment, day: Day, now: Time)
    requires !adj.prechargeMode && Refusal(b, adj, day).Some?
    ensures ApplyTx(b, adj, day, now).book == b && !FloorTakesEffect(b, adj, day)
  {
  }

  /** Ending a call keeps the books in order, and the floor at zero never comes into play. */
  lemma CommitTerminal(b: Book, adj: Adjustment, day: Day, now: Time)
    requires InOrder(b) && TerminalShape(b, adj)
    ensures InOrder(ApplyTx(b, adj, day, now).book)
    ensures !FloorTakesEffect(b, adj, day)
  {
    if Refusal(b, adj, day).Some? {
      RefusedChangesNothing(b, adj, day, now);
    } else {
      FindIsHasEntry(b.ledger, adj.requestId, adj.entryType);
      TerminalFitsKey(b, adj);
      CommitAccepted(b, adj, day, now);
    }
  }

  lemma WithoutFloor(b: Book, adj: Adjustment, day: Day, now: Time)
    requires !FloorTakesEffect(b, adj, day) && TouchesKey(adj) && !adj.prechargeMode && adj.keyId in b.keys
    requires ApplyTx(b, adj, day, now).reply.Accepted?
    ensures var tx := ApplyTx(b, adj, day, now);
      adj.keyId in tx.book.keys && tx.book.keys[adj.keyId].used == b.keys[adj.keyId].used - tx.reply.entry.amount
  {
  }

  /** A call that ends moves its key's used credit by exactly the entry's amount. */
  lemma TerminalMovesKey(b: Book, adj: Adjustment, day: Day, now: Time)
    requires InOrder(b) && TerminalShape(b, adj) && ApplyTx(b, adj, day, now).reply.Accepted?
    ensures var tx := ApplyTx(b, adj, day, now);
      && adj.keyId in b.keys && adj.keyId in tx.book.keys
      && tx.book.keys[adj.keyId].used == b.keys[adj.keyId].used - tx.reply.entry.amount
  {
    CommitTerminal(b, adj, day, now);
    FindIsHasEntry(b.ledger, adj.requestId, adj.entryType);
    TerminalFitsKey(b, adj);
    WithoutFloor(b, adj, day, now);
  }

  lemma CommitPlain(b: Book, adj: Adjustment, day: Day, now: Time)
    requires InOrder(b) && PlainShape(adj)
    ensures InOrder(ApplyTx(b, adj, day, now).book)
  {
    if Refusal(b, adj, day).None? {
      CommitAccepted(b, adj, day, now);
    }
  }
}
