/**
  What a cleanup finds and what it counts: the scan's list written out, one refund at a time,
  and the tally of the whole loop against the ledger it leaves.
 */
module CleanupTally {
  import opened Outcomes
  import opened Ledger
  import opened Acceptance
  import opened Session

  // ---- The scan ----

  /** A named consume before the cutoff; no entry of its request settles or refunds it. */
  ghost predicate Unresolved(l: seq<Entry>, cutoff: Time, i: nat)
    requires i < |l|
  {
    && l[i].entryType == Consume && l[i].requestId != "" && l[i].createdAt < cutoff
    && forall j :: 0 <= j < |l| && l[j].requestId == l[i].requestId ==> l[j].entryType != EntryType.Refund && l[j].entryType != SettleAdjust
  }

  lemma UnresolvedIff(l: seq<Entry>, cutoff: Time, i: nat)
    requires i < |l|
    ensures Unresolved(l, cutoff, i) <==> IsOrphan(l[i], l, cutoff)
  {
    if IsOrphan(l[i], l, cutoff) {
      forall j | 0 <= j < |l| && l[j].requestId == l[i].requestId
        ensures l[j].entryType != EntryType.Refund && l[j].entryType != SettleAdjust
      {
        assert !HasEntry(l, l[i].requestId, EntryType.Refund) && !HasEntry(l, l[i].requestId, SettleAdjust);
      }
    }
  }

  /** The places, in order, of the unresolved consumes among the first `n` entries. */
  ghost predicate PlacesOf(at: seq<nat>, l: seq<Entry>, cutoff: Time, n: nat)
    requires n <= |l|
  {
    Rising(at) && forall i: nat :: i in at <==> i < n && Unresolved(l, cutoff, i)
  }

  lemma NextPlace(at: seq<nat>, l: seq<Entry>, cutoff: Time, n: nat)
    requires n < |l| && PlacesOf(at, l, cutoff, n)
    ensures PlacesOf(at + if Unresolved(l, cutoff, n) then [n] else [], l, cutoff, n + 1)
  {
    RisingAppend(at, n);
  }

  /** Each orphan is the consume at its place. */
  ghost predicate TakenFrom(os: seq<Orphan>, l: seq<Entry>, at: seq<nat>) {
    && |os| == |at|
    && forall a :: 0 <= a < |at| ==>
         at[a] < |l| && os[a] == Orphan(l[at[a]].userId, l[at[a]].requestId, 0 - l[at[a]].amount, l[at[a]].refId, l[at[a]].createdAt)
  }

  lemma {:induction false} Places(l: seq<Entry>, cutoff: Time, n: nat) returns (at: seq<nat>)
    requires n <= |l|
    ensures PlacesOf(at, l, cutoff, n) && TakenFrom(OrphansAmong(l[..n], l, cutoff), l, at)
  {
    at := [];
    if n > 0 {
      var front := Places(l, cutoff, n - 1);
      assert l[..n][..n - 1] == l[..n - 1];
      UnresolvedIff(l, cutoff, n - 1);
      NextPlace(front, l, cutoff, n - 1);
      at := front + if Unresolved(l, cutoff, n - 1) then [n - 1] else [];
    }
  }

  /** The scan lists every unresolved consume once, in ledger order, with its user, request, amount, key and time. */
  lemma ScanListsIff(l: seq<Entry>, cutoff: Time) returns (at: seq<nat>)
    ensures Rising(at) && forall i: nat :: i in at <==> i < |l| && Unresolved(l, cutoff, i)
    ensures TakenFrom(OrphansAmong(l, l, cutoff), l, at)
  {
    at := Places(l, cutoff, |l|);
    assert l[..|l|] == l;
  }

  // ---- One refund ----

  /** What the cleanup may write for an orphan. */
  ghost predicate RefundsOne(e: Entry, o: Orphan, now: Time) {
    && e.userId == o.userId && e.entryType == EntryType.Refund && e.amount == o.amount
    && e.refType == ApiKeyRef && e.refId == o.keyId && e.requestId == o.requestId && e.createdAt == now
  }

  /** A refund that arrives is counted as made when it is new, and as handled when the request has one already. */
  lemma OneIsCounted(c: CleanupState, o: Orphan, w: Wire, day: Day, now: Time)
    requires o.requestId != ""
    ensures var c', l := CleanupOne(c, o, w, day, now), c.book.ledger;
      var arrives := w.Delivered? && o.amount >= 0 && o.userId in c.book.users && c.book.users[o.userId].balance + o.amount >= 0;
      if !arrives then c'.failed && c'.tally == c.tally && |l| <= |c'.book.ledger| <= |l| + 1 && l <= c'.book.ledger
      else
        && !c'.failed
        && if NewRequest(l, o.requestId, EntryType.Refund)
           then c'.tally == Tally(c.tally.refunded + 1, c.tally.alreadyHandled, c.tally.refundedCredits + o.amount) && |c'.book.ledger| == |l| + 1 && l <= c'.book.ledger
           else c'.tally == Tally(c.tally.refunded, c.tally.alreadyHandled + 1, c.tally.refundedCredits) && c'.book == c.book
  {
    OtherAcceptedIff(c.book, OrphanRefund(o), day, now);
  }

  lemma OneAppends(c: CleanupState, o: Orphan, w: Wire, day: Day, now: Time)
    ensures var l, l' := c.book.ledger, CleanupOne(c, o, w, day, now).book.ledger;
      l' == l || (|l'| == |l| + 1 && l'[..|l|] == l && RefundsOne(l'[|l|], o, now))
  {
  }

  lemma OneKeepsUsers(c: CleanupState, o: Orphan, w: Wire, day: Day, now: Time)
    ensures var users, users' := c.book.users, CleanupOne(c, o, w, day, now).book.users;
      users'.Keys == users.Keys && forall u :: u in users ==> users[u].balance <= users'[u].balance
  {
    if o.amount >= 0 && Executes(w) {
      if ApplyTx(c.book, OrphanRefund(o), day, now).reply.Accepted? {
        UserRowAfter(c.book, OrphanRefund(o), day, now);
      } else {
        RefusedLeaves(c.book, OrphanRefund(o), day, now);
      }
    }
  }

  // ---- The whole loop ----

  function Amounts(l: seq<Entry>): int {
    if l == [] then 0 else Amounts(l[..|l| - 1]) + l[|l| - 1].amount
  }

  /** The tally against the entries that were appended; a failure may leave one that nobody counted. */
  ghost predicate Counted(l: seq<Entry>, l': seq<Entry>, t: Tally, failed: bool, visited: nat) {
    var n := |l| + t.refunded;
    && n <= |l'| <= n + (if failed then 1 else 0)
    && l <= l'
    && t.refundedCredits == Amounts(l'[|l|..n])
    && t.refunded + t.alreadyHandled <= visited
    && (t.refunded + t.alreadyHandled == visited <==> !failed)
  }

  /** With no failure the appended entries are exactly the counted ones. */
  lemma AllCounted(l: seq<Entry>, l': seq<Entry>, t: Tally, visited: nat)
    requires Counted(l, l', t, false, visited)
    ensures |l'| == |l| + t.refunded && t.refundedCredits == Amounts(l'[|l|..])
  {
    assert l'[|l|..|l| + t.refunded] == l'[|l|..];
  }

  lemma CountStop(l: seq<Entry>, l': seq<Entry>, t: Tally, visited: nat, more: seq<Entry>)
    requires Counted(l, l', t, false, visited) && |more| <= 1
    ensures Counted(l, l' + more, t, true, visited + 1)
  {
    assert (l' + more)[|l|..|l| + t.refunded] == l'[|l|..|l| + t.refunded];
  }

  lemma CountRefund(l: seq<Entry>, l': seq<Entry>, t: Tally, visited: nat, e: Entry)
    requires Counted(l, l', t, false, visited)
    ensures Counted(l, l' + [e], Tally(t.refunded + 1, t.alreadyHandled, t.refundedCredits + e.amount), false, visited + 1)
  {
    assert (l' + [e])[|l|..|l| + t.refunded + 1][..t.refunded] == l'[|l|..|l| + t.refunded];
  }

  lemma CountOne(l: seq<Entry>, c: CleanupState, visited: nat, o: Orphan, w: Wire, day: Day, now: Time)
    requires o.requestId != "" && Counted(l, c.book.ledger, c.tally, false, visited)
    ensures var c' := CleanupOne(c, o, w, day, now); Counted(l, c'.book.ledger, c'.tally, c'.failed, visited + 1)
  {
    var c' := CleanupOne(c, o, w, day, now);
    OneIsCounted(c, o, w, day, now);
    OneAppends(c, o, w, day, now);
    var more := c'.book.ledger[|c.book.ledger|..];
    assert c'.book.ledger == c.book.ledger + more;
    if c'.failed {
      CountStop(l, c.book.ledger, c.tally, visited, more);
    } else if |more| == 1 {
      assert more == [more[0]];
      CountRefund(l, c.book.ledger, c.tally, visited, more[0]);
    }
  }

  /** The tally is right after any number of orphans. */
  lemma {:induction false} TallyCounts(b: Book, os: seq<Orphan>, wires: nat -> Wire, day: Day, now: Time)
    requires forall o :: o in os ==> o.requestId != ""
    ensures var c := CleanupFold(b, os, wires, day, now); Counted(b.ledger, c.book.ledger, c.tally, c.failed, |os|)
  {
    if os != [] {
      var n := |os| - 1;
      TallyCounts(b, os[..n], wires, day, now);
      var c := CleanupFold(b, os[..n], wires, day, now);
      if !c.failed {
        CountOne(b.ledger, c, n, os[n], wires(n), day, now);
      }
    }
  }

  /** Everything that was appended is the refund of one of the orphans. */
  ghost predicate Refunds(l: seq<Entry>, l': seq<Entry>, os: seq<Orphan>, now: Time) {
    l <= l' && forall i :: |l| <= i < |l'| ==> exists j :: 0 <= j < |os| && RefundsOne(l'[i], os[j], now)
  }

  lemma RefundsMore(l: seq<Entry>, l': seq<Entry>, os: seq<Orphan>, now: Time, o: Orphan)
    requires Refunds(l, l', os, now)
    ensures Refunds(l, l', os + [o], now)
    ensures forall e :: RefundsOne(e, o, now) ==> Refunds(l, l' + [e], os + [o], now)
  {
    var os' := os + [o];
    forall i | |l| <= i < |l'|
      ensures exists j :: 0 <= j < |os'| && RefundsOne(l'[i], os'[j], now)
    {
      var j :| 0 <= j < |os| && RefundsOne(l'[i], os[j], now);
      assert os'[j] == os[j];
    }
    assert os'[|os|] == o;
  }

  lemma {:induction false} AppendsRefundsOf(b: Book, os: seq<Orphan>, wires: nat -> Wire, day: Day, now: Time)
    ensures Refunds(b.ledger, CleanupFold(b, os, wires, day, now).book.ledger, os, now)
  {
    if os != [] {
      var n := |os| - 1;
      AppendsRefundsOf(b, os[..n], wires, day, now);
      var c := CleanupFold(b, os[..n], wires, day, now);
      var l' := CleanupFold(b, os, wires, day, now).book.ledger;
      RefundsMore(b.ledger, c.book.ledger, os[..n], now, os[n]);
      assert os == os[..n] + [os[n]];
      if !c.failed && l' != c.book.ledger {
        OneAppends(c, os[n], wires(n), day, now);
        assert l' == c.book.ledger + [l'[|c.book.ledger|]];
      }
    }
  }

  /** A loop over accounts that exist and owe nothing stops exactly at a refund whose reply is lost. */
  lemma {:induction false} StopsIff(b: Book, os: seq<Orphan>, wires: nat -> Wire, day: Day, now: Time)
    requires forall o :: o in os ==> o.requestId != "" && o.amount >= 0 && o.userId in b.users && b.users[o.userId].balance >= 0
    ensures CleanupFold(b, os, wires, day, now).failed <==> exists i :: 0 <= i < |os| && !wires(i).Delivered?
    ensures var users := CleanupFold(b, os, wires, day, now).book.users;
      users.Keys == b.users.Keys && forall u :: u in b.users ==> b.users[u].balance <= users[u].balance
  {
    if os != [] {
      var n := |os| - 1;
      StopsIff(b, os[..n], wires, day, now);
      var c := CleanupFold(b, os[..n], wires, day, now);
      if !c.failed {
        OneIsCounted(c, os[n], wires(n), day, now);
        OneKeepsUsers(c, os[n], wires(n), day, now);
        assert os[n] in os;
      }
    }
  }

  /** A cleanup that does not fail refunded or found handled every orphan of its scan, and its total is what the ledger gained. */
  lemma CleanupIsCounted(b: Book, olderThan: int, wires: nat -> Wire, day: Day, now: Time)
    ensures var os := OrphansAmong(b.ledger, b.ledger, now - olderThan);
      var c := CleanupFold(b, os, wires, day, now);
      && Counted(b.ledger, c.book.ledger, c.tally, c.failed, |os|)
      && (!c.failed ==> |c.book.ledger| == |b.ledger| + c.tally.refunded && c.tally.refundedCredits == Amounts(c.book.ledger[|b.ledger|..]))
  {
    OrphansAreNamed(b.ledger, now - olderThan);
    var os := OrphansAmong(b.ledger, b.ledger, now - olderThan);
    TallyCounts(b, os, wires, day, now);
    var c := CleanupFold(b, os, wires, day, now);
    if !c.failed {
      AllCounted(b.ledger, c.book.ledger, c.tally, |os|);
    }
  }
}
