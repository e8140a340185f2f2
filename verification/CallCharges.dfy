/**
  The entries of one call: a consume, then at most one of settle_adjust and refund.
  What a call has been charged so far, and why a key's used credit is the sum of
  the charges of its calls, so that the floor at zero never takes effect.
 */
module CallCharges {
  import opened Outcomes
  import opened Ledger
  import opened AccountInvariants

  function Find(l: seq<Entry>, r: string, t: EntryType): Option<Entry> {
    if l == [] then None
    else
      var before := Find(l[..|l| - 1], r, t);
      if before.Some? then before
      else if l[|l| - 1].requestId == r && l[|l| - 1].entryType == t then Some(l[|l| - 1])
      else None
  }

  lemma FindAppend(l: seq<Entry>, e: Entry, r: string, t: EntryType)
    ensures Find(l + [e], r, t) ==
            if Find(l, r, t).Some? then Find(l, r, t) else if e.requestId == r && e.entryType == t then Some(e) else None
  {
    assert (l + [e])[..|l|] == l;
  }

  lemma {:induction false} FindIsHasEntry(l: seq<Entry>, r: string, t: EntryType)
    ensures Find(l, r, t).Some? <==> HasEntry(l, r, t)
    ensures Find(l, r, t).Some? ==> Find(l, r, t).value in l && Find(l, r, t).value.requestId == r && Find(l, r, t).value.entryType == t
  {
    if l != [] {
      var n := |l| - 1;
      FindIsHasEntry(l[..n], r, t);
      HasEntryAppend(l[..n], l[n], r, t);
      assert l == l[..n] + [l[n]];
    }
  }

  function AmountOf(e: Option<Entry>): int { if e.Some? then e.value.amount else 0 }

  /** A call's net effect on its user's balance is the sum of its three possible entries. */
  lemma {:induction false} CallTotal(l: seq<Entry>, r: string)
    requires UniqueEntries(l) && r != ""
    ensures Total(l, ByRequest(r)) == AmountOf(Find(l, r, Consume)) + AmountOf(Find(l, r, SettleAdjust)) + AmountOf(Find(l, r, Refund))
  {
    if l != [] {
      var n := |l| - 1;
      CallTotal(l[..n], r);
      FindIsHasEntry(l[..n], r, l[n].entryType);
    }
  }

  /** What a call has been charged, given the ledger. */
  function Charge(l: seq<Entry>, r: string): int { -Total(l, ByRequest(r)) }

  /** The order of a call's entries: a terminal entry comes after the consume of its call, by the same key. */
  ghost predicate CallsInOrder(l: seq<Entry>) {
    && UniqueEntries(l)
    && forall i :: 0 <= i < |l| ==>
      if IsCall(l[i].entryType) then
        && l[i].requestId != "" && l[i].refType.ApiKeyRef?
        && (IsTerminal(l[i].entryType) ==> var c := Find(l[..i], l[i].requestId, Consume); c.Some? && c.value.refType.ApiKeyRef? && c.value.refId == l[i].refId)
      else !l[i].refType.ApiKeyRef?
  }

  /** A call is booked for its key's owner; its terminal entry gives back at most what was consumed. */
  ghost predicate EntryShape(b: Book, e: Entry) {
    IsCall(e.entryType) ==>
      && e.refId in b.keys && b.keys[e.refId].owner == e.userId
      && (e.entryType.Consume? ==> e.amount <= 0)
      && (IsTerminal(e.entryType) ==>
            var c := Find(b.ledger, e.requestId, Consume);
            && c.Some? && c.value.userId == e.userId && c.value.refId == e.refId
            && (if e.entryType.Refund? then e.amount == -c.value.amount else e.amount <= -c.value.amount))
  }

  /** No call is both settled and refunded. */
  ghost predicate OneTerminal(l: seq<Entry>) {
    forall r: string :: !(Find(l, r, SettleAdjust).Some? && Find(l, r, Refund).Some?)
  }

  ghost predicate CallsWellFormed(b: Book) {
    && (forall k :: k in b.keys ==> k != 0 && b.keys[k].owner in b.users)
    && (forall i :: 0 <= i < |b.ledger| ==> EntryShape(b, b.ledger[i]))
    && CallsInOrder(b.ledger) && OneTerminal(b.ledger)
  }

  /** `api_keys.credit_used` and `users.credit_used` agree with the ledger. */
  ghost predicate UsedMatches(b: Book) {
    && (forall k :: k in b.keys ==> b.keys[k].used == -Total(b.ledger, ByKey(k)))
    && (forall u :: u in b.users ==> b.users[u].used == -Total(b.ledger, CallsOfUser(u)))
  }

  lemma ChargeIsNonNegative(b: Book, r: string)
    requires Sound(b) && CallsWellFormed(b) && r != ""
    ensures Charge(b.ledger, r) >= 0
  {
    CallTotal(b.ledger, r);
    FindIsHasEntry(b.ledger, r, Consume);
    FindIsHasEntry(b.ledger, r, SettleAdjust);
    FindIsHasEntry(b.ledger, r, Refund);
  }

  // ---- A key's used credit is the sum of the charges of its calls ----

  predicate ConsumeOf(e: Entry, k: KeyId) { e.entryType.Consume? && e.refType.ApiKeyRef? && e.refId == k }

  /** The charges, by the ledger `full`, of the calls whose consume by key `k` lies in `l`. */
  function ChargesOf(l: seq<Entry>, full: seq<Entry>, k: KeyId): int {
    if l == [] then 0
    else ChargesOf(l[..|l| - 1], full, k) + if ConsumeOf(l[|l| - 1], k) then Charge(full, l[|l| - 1].requestId) else 0
  }

  /** Appending an entry moves the charge of its own call, which is counted once where its consume lies. */
  lemma {:induction false} ChargesAppend(l: seq<Entry>, full: seq<Entry>, e: Entry, k: KeyId)
    requires UniqueEntries(l) && IsCall(e.entryType) && e.requestId != ""
    ensures ChargesOf(l, full + [e], k) ==
            ChargesOf(l, full, k) - if Find(l, e.requestId, Consume).Some? && ConsumeOf(Find(l, e.requestId, Consume).value, k) then e.amount else 0
  {
    if l != [] {
      var n := |l| - 1;
      ChargesAppend(l[..n], full, e, k);
      TotalAppend(full, e, ByRequest(l[n].requestId));
      FindIsHasEntry(l[..n], e.requestId, Consume);
    }
  }

  /** An entry that belongs to no call of `l` leaves the charges of `l` alone. */
  lemma {:induction false} ChargesAppendOther(l: seq<Entry>, full: seq<Entry>, e: Entry, k: KeyId)
    requires !IsCall(e.entryType)
    ensures ChargesOf(l, full + [e], k) == ChargesOf(l, full, k)
  {
    if l != [] {
      ChargesAppendOther(l[..|l| - 1], full, e, k);
      TotalAppend(full, e, ByRequest(l[|l| - 1].requestId));
    }
  }

  lemma {:induction false} KeyTotalIsCharges(l: seq<Entry>, k: KeyId)
    requires CallsInOrder(l)
    ensures -Total(l, ByKey(k)) == ChargesOf(l, l, k)
  {
    if l != [] {
      var n := |l| - 1;
      var p, e := l[..n], l[n];
      assert l == p + [e];
      assert forall i :: 0 <= i < n ==> p[..i] == l[..i];
      KeyTotalIsCharges(p, k);
      TotalAppend(p, e, ByKey(k));
      if IsCall(e.entryType) {
        ChargesAppend(p, p, e, k);
        FindIsHasEntry(p, e.requestId, Consume);
        if e.entryType.Consume? {
          NewConsumeHasNoCall(l);
          TotalAppend(p, e, ByRequest(e.requestId));
        }
      } else {
        ChargesAppendOther(p, p, e, k);
      }
    }
  }

  /** The call of the last entry, a consume, has no earlier entry. */
  lemma NewConsumeHasNoCall(l: seq<Entry>)
    requires l != [] && CallsInOrder(l) && l[|l| - 1].entryType.Consume?
    ensures var n := |l| - 1; Find(l[..n], l[n].requestId, Consume).None? && Total(l[..n], ByRequest(l[n].requestId)) == 0
  {
    var n := |l| - 1;
    var r := l[n].requestId;
    forall t | IsCall(t)
      ensures Find(l[..n], r, t).None?
    {
      FindIsHasEntry(l[..n], r, t);
      if HasEntry(l[..n], r, t) {
        var i :| 0 <= i < n && l[..n][i].requestId == r && l[..n][i].entryType == t;
        assert l[i] == l[..n][i];
        FindIsHasEntry(l[..i], r, Consume);
      }
    }
    CallTotal(l[..n], r);
  }

  lemma {:induction false} ChargesCover(l: seq<Entry>, full: seq<Entry>, k: KeyId, i: nat)
    requires i < |l| && ConsumeOf(l[i], k)
    requires forall j :: 0 <= j < |l| && ConsumeOf(l[j], k) ==> Charge(full, l[j].requestId) >= 0
    ensures ChargesOf(l, full, k) >= Charge(full, l[i].requestId)
  {
    var n := |l| - 1;
    if i == n {
      ChargesNonNegative(l[..n], full, k);
    } else {
      ChargesCover(l[..n], full, k, i);
    }
  }

  lemma {:induction false} ChargesNonNegative(l: seq<Entry>, full: seq<Entry>, k: KeyId)
    requires forall j :: 0 <= j < |l| && ConsumeOf(l[j], k) ==> Charge(full, l[j].requestId) >= 0
    ensures ChargesOf(l, full, k) >= 0
  {
    if l != [] {
      ChargesNonNegative(l[..|l| - 1], full, k);
    }
  }
}
