/**
  The billing session of one request: precharge, then settle or refund, and the
  cleanup that refunds precharges left without an outcome.

  A write crosses a wire that may lose it, lose its reply, or deliver it after the
  caller has given up; `Wire` is the choice made by the environment.
 */
module Session {
  import opened Outcomes
  import opened Ledger
  import opened BillingService
  import opened AccountInvariants
  import opened CallCharges

  datatype Phase = Init | Precharged | Settled | Refunded | SettleFailed

  datatype State = State(
    phase: Phase, requestId: string, userId: UserId, keyId: KeyId, precharged: int,
    dailyLimit: int, keyDailyLimit: int)

  /** Delayed: reported as failed now, free to commit later. */
  datatype Wire = Delivered | ReplyLost | Dropped | Delayed

  /** What the session sees of a write. */
  datatype Seen = Answer(reply: Reply) | Failure

  predicate Executes(w: Wire) { w.Delivered? || w.ReplyLost? }

  function Through(w: Wire, b: Book, adj: Adjustment, day: Day, now: Time): Book {
    if Executes(w) then ApplyTx(b, adj, day, now).book else b
  }

  function Report(w: Wire, b: Book, adj: Adjustment, day: Day, now: Time): Seen {
    if w.Delivered? then Answer(ApplyTx(b, adj, day, now).reply) else Failure
  }

  function PrechargeAdj(s: State, amount: int): Adjustment {
    Adjustment(s.userId, -amount, Consume, ApiKeyRef, s.keyId, s.requestId, true, false,
               s.dailyLimit, s.keyId, s.keyDailyLimit, true)
  }

  function SettleAdj(s: State, final: int): Adjustment {
    Adjustment(s.userId, s.precharged - final, SettleAdjust, ApiKeyRef, s.keyId, s.requestId, true, true, 0, s.keyId, 0, false)
  }

  function RefundAdj(user: UserId, key: KeyId, requestId: string, amount: int): Adjustment {
    Adjustment(user, amount, Refund, ApiKeyRef, key, requestId, true, false, 0, key, 0, false)
  }

  /** A duplicate answer to a terminal write means that an earlier copy of it was booked. */
  predicate Booked(seen: Seen) {
    seen.Answer? && (seen.reply.Accepted? || seen.reply.error.ErrDuplicateEntry?)
  }

  function AfterPrecharge(s: State, amount: int, seen: Seen): State {
    if seen.Answer? && seen.reply.Accepted? then s.(phase := Precharged, precharged := amount) else s
  }

  /** A settle that may or may not have been booked blocks any later refund by the session. */
  function AfterSettle(s: State, seen: Seen): State {
    s.(phase := if Booked(seen) then Settled else SettleFailed)
  }

  function AfterRefund(s: State, seen: Seen): State {
    if Booked(seen) then s.(phase := Refunded) else s
  }

  class BillingSession {
    const service: Service
    const requestId: string
    const userId: UserId
    const keyId: KeyId
    const dailyLimit: int
    const keyDailyLimit: int
    var phase: Phase
    var precharged: int

    ghost function View(): State
      reads this
    {
      State(phase, requestId, userId, keyId, precharged, dailyLimit, keyDailyLimit)
    }

    constructor (service: Service, requestId: string, userId: UserId, keyId: KeyId, dailyLimit: int, keyDailyLimit: int)
      ensures View() == State(Init, requestId, userId, keyId, 0, dailyLimit, keyDailyLimit) && this.service == service
    {
      this.service, this.requestId, this.userId, this.keyId := service, requestId, userId, keyId;
      this.dailyLimit, this.keyDailyLimit := dailyLimit, keyDailyLimit;
      phase, precharged := Init, 0;
    }

    method Send(adj: Adjustment, wire: Wire, day: Day, now: Time) returns (seen: Seen)
      modifies service
      ensures service.Books() == Through(wire, old(service.Books()), adj, day, now)
      ensures seen == Report(wire, old(service.Books()), adj, day, now)
    {
      seen := Failure;
      if wire == Delivered || wire == ReplyLost {
        var reply := service.Apply(adj, day, now);
        if wire == Delivered {
          seen := Answer(reply);
        }
      }
    }

    /** Rejected outright when a precharge was already taken or the amount is negative. */
    method Precharge(amount: int, wire: Wire, day: Day, now: Time) returns (ok: bool)
      modifies this, service
      ensures old(phase) != Init || amount < 0 ==> !ok && View() == old(View()) && service.Books() == old(service.Books())
      ensures old(phase) == Init && amount >= 0 ==>
        var adj := PrechargeAdj(old(View()), amount);
        && View() == AfterPrecharge(old(View()), amount, Report(wire, old(service.Books()), adj, day, now))
        && service.Books() == Through(wire, old(service.Books()), adj, day, now)
        && ok == (View().phase == Precharged)
    {
      if phase != Init || amount < 0 {
        return false;
      }
      var seen := Send(PrechargeAdj(State(phase, requestId, userId, keyId, precharged, dailyLimit, keyDailyLimit), amount), wire, day, now);
      if !(seen.Answer? && seen.reply.Accepted?) {
        return false;
      }
      precharged := amount;
      phase := Precharged;
      return true;
    }

    /** Silent unless a precharge is outstanding. */
    method Settle(final: int, wire: Wire, day: Day, now: Time) returns (ok: bool)
      modifies this, service
      ensures old(phase) != Precharged ==> ok && View() == old(View()) && service.Books() == old(service.Books())
      ensures old(phase) == Precharged ==>
        var adj := SettleAdj(old(View()), final);
        && View() == AfterSettle(old(View()), Report(wire, old(service.Books()), adj, day, now))
        && service.Books() == Through(wire, old(service.Books()), adj, day, now)
        && ok == (phase == Settled)
    {
      if phase != Precharged {
        return true;
      }
      var diff := final - precharged;
      var adj := Adjustment(userId, -diff, SettleAdjust, ApiKeyRef, keyId, requestId, true, true, 0, keyId, 0, false);
      var seen := Send(adj, wire, day, now);
      if !(seen.Answer? && (seen.reply.Accepted? || seen.reply.error == ErrDuplicateEntry)) {
        phase := SettleFailed;
        return false;
      }
      phase := Settled;
      return true;
    }

    /** Gives the whole precharge back; a zero precharge is refunded without a write. */
    method Refund(wire: Wire, day: Day, now: Time) returns (ok: bool)
      modifies this, service
      ensures old(phase) != Precharged ==> ok && View() == old(View()) && service.Books() == old(service.Books())
      ensures old(phase) == Precharged && old(precharged) <= 0 ==> ok && View() == old(View()).(phase := Refunded) && service.Books() == old(service.Books())
      ensures old(phase) == Precharged && old(precharged) > 0 ==>
        var adj := RefundAdj(userId, keyId, requestId, old(precharged));
        && View() == AfterRefund(old(View()), Report(wire, old(service.Books()), adj, day, now))
        && service.Books() == Through(wire, old(service.Books()), adj, day, now)
        && ok == (phase == Refunded)
    {
      if phase != Precharged {
        return true;
      }
      if precharged > 0 {
        var seen := Send(RefundAdj(userId, keyId, requestId, precharged), wire, day, now);
        if !(seen.Answer? && (seen.reply.Accepted? || seen.reply.error == ErrDuplicateEntry)) {
          return false;
        }
      }
      phase := Refunded;
      return true;
    }

    /** Runs when the request's handler returns: an outstanding precharge is refunded, a failed settle is not. */
    method EnsureFinal(wire: Wire, day: Day, now: Time)
      modifies this, service
      ensures old(phase) != Precharged ==> View() == old(View()) && service.Books() == old(service.Books())
      ensures old(phase) == Precharged && old(precharged) <= 0 ==> View() == old(View()).(phase := Refunded) && service.Books() == old(service.Books())
      ensures old(phase) == Precharged && old(precharged) > 0 ==>
        var adj := RefundAdj(userId, keyId, requestId, old(precharged));
        && View() == AfterRefund(old(View()), Report(wire, old(service.Books()), adj, day, now))
        && service.Books() == Through(wire, old(service.Books()), adj, day, now)
    {
      if phase == Precharged {
        var ok := Refund(wire, day, now);
      }
    }
  }

  // ---- Orphaned precharges ----

  datatype Orphan = Orphan(userId: UserId, requestId: string, amount: int, keyId: KeyId, createdAt: Time)

  function OrphanOf(e: Entry): Orphan { Orphan(e.userId, e.requestId, -e.amount, e.refId, e.createdAt) }

  predicate HasOutcome(l: seq<Entry>, r: string) { HasEntry(l, r, Refund) || HasEntry(l, r, SettleAdjust) }

  /** A consume older than the cutoff whose request has neither a settle_adjust nor a refund. */
  predicate IsOrphan(e: Entry, l: seq<Entry>, cutoff: Time) {
    e.entryType.Consume? && e.requestId != "" && e.createdAt < cutoff && !HasOutcome(l, e.requestId)
  }

  /** The orphans among the entries `p` of the ledger `l`, in ledger order. */
  function OrphansAmong(p: seq<Entry>, l: seq<Entry>, cutoff: Time): seq<Orphan> {
    if p == [] then []
    else OrphansAmong(p[..|p| - 1], l, cutoff) + if IsOrphan(p[|p| - 1], l, cutoff) then [OrphanOf(p[|p| - 1])] else []
  }

  lemma {:induction false} OrphanIsAmong(p: seq<Entry>, l: seq<Entry>, cutoff: Time, o: Orphan) returns (i: nat)
    requires o in OrphansAmong(p, l, cutoff)
    ensures i < |p| && IsOrphan(p[i], l, cutoff) && o == OrphanOf(p[i])
  {
    var n := |p| - 1;
    if o in OrphansAmong(p[..n], l, cutoff) {
      i := OrphanIsAmong(p[..n], l, cutoff, o);
    } else {
      i := n;
    }
  }

  lemma {:induction false} OrphanIsListed(p: seq<Entry>, l: seq<Entry>, cutoff: Time, i: nat)
    requires i < |p| && IsOrphan(p[i], l, cutoff)
    ensures OrphanOf(p[i]) in OrphansAmong(p, l, cutoff)
  {
    var n := |p| - 1;
    if i < n {
      OrphanIsListed(p[..n], l, cutoff, i);
    }
  }

  lemma OrphansAmongExact(p: seq<Entry>, l: seq<Entry>, cutoff: Time)
    ensures forall i :: 0 <= i < |p| && IsOrphan(p[i], l, cutoff) ==> OrphanOf(p[i]) in OrphansAmong(p, l, cutoff)
    ensures forall o :: o in OrphansAmong(p, l, cutoff) ==> exists i :: 0 <= i < |p| && IsOrphan(p[i], l, cutoff) && o == OrphanOf(p[i])
  {
    forall i | 0 <= i < |p| && IsOrphan(p[i], l, cutoff)
      ensures OrphanOf(p[i]) in OrphansAmong(p, l, cutoff)
    {
      OrphanIsListed(p, l, cutoff, i);
    }
    forall o | o in OrphansAmong(p, l, cutoff)
      ensures exists i :: 0 <= i < |p| && IsOrphan(p[i], l, cutoff) && o == OrphanOf(p[i])
    {
      var i := OrphanIsAmong(p, l, cutoff, o);
    }
  }

  method ScanOrphans(service: Service, olderThan: int, now: Time) returns (orphans: seq<Orphan>)
    ensures orphans == OrphansAmong(service.ledger, service.ledger, now - olderThan)
  {
    orphans := [];
    var l := service.ledger;
    for i := 0 to |l|
      invariant orphans == OrphansAmong(l[..i], l, now - olderThan)
    {
      assert l[..i + 1][..i] == l[..i];
      if l[i].entryType == Consume && l[i].requestId != "" && l[i].createdAt < now - olderThan && !HasOutcome(l, l[i].requestId) {
        orphans := orphans + [OrphanOf(l[i])];
      }
    }
    assert l[..|l|] == l;
  }

  datatype Tally = Tally(refunded: nat, alreadyHandled: nat, refundedCredits: int)
  datatype CleanupState = CleanupState(book: Book, tally: Tally, failed: bool)

  function OrphanRefund(o: Orphan): Adjustment { RefundAdj(o.userId, o.keyId, o.requestId, o.amount) }

  /** One refund of the cleanup loop; the first failure stops the loop. */
  function CleanupOne(c: CleanupState, o: Orphan, w: Wire, day: Day, now: Time): CleanupState {
    if o.amount < 0 then c.(failed := true)
    else
      var seen := Report(w, c.book, OrphanRefund(o), day, now);
      var book := Through(w, c.book, OrphanRefund(o), day, now);
      if !Booked(seen) then CleanupState(book, c.tally, true)
      else if seen.reply.Accepted? then
        CleanupState(book, Tally(c.tally.refunded + 1, c.tally.alreadyHandled, c.tally.refundedCredits + o.amount), false)
      else CleanupState(book, c.tally.(alreadyHandled := c.tally.alreadyHandled + 1), false)
  }

  function CleanupFold(b: Book, os: seq<Orphan>, wires: nat -> Wire, day: Day, now: Time): CleanupState {
    if os == [] then CleanupState(b, Tally(0, 0, 0), false)
    else
      var n := |os| - 1;
      var c := CleanupFold(b, os[..n], wires, day, now);
      if c.failed then c else CleanupOne(c, os[n], wires(n), day, now)
  }

  method RefundOrphan(service: Service, o: Orphan, wire: Wire, tally: Tally, day: Day, now: Time)
    returns (tally': Tally, failed: bool)
    modifies service
    ensures CleanupState(service.Books(), tally', failed) ==
            CleanupOne(CleanupState(old(service.Books()), tally, false), o, wire, day, now)
  {
    tally' := tally;
    if o.amount < 0 {
      return tally, true;
    }
    if !(wire == Delivered || wire == ReplyLost) {
      return tally, true;
    }
    var reply := service.Apply(RefundAdj(o.userId, o.keyId, o.requestId, o.amount), day, now);
    if wire == ReplyLost || (reply.Refused? && reply.error != ErrDuplicateEntry) {
      return tally, true;
    }
    if reply.Refused? {
      return tally.(alreadyHandled := tally.alreadyHandled + 1), false;
    }
    return Tally(tally.refunded + 1, tally.alreadyHandled, tally.refundedCredits + o.amount), false;
  }

  /** Refunds every orphan found by one scan, each in its own transaction. */
  method CleanupOrphans(service: Service, olderThan: int, wires: nat -> Wire, day: Day, now: Time)
    returns (scanned: nat, tally: Tally, failed: bool)
    modifies service
    ensures CleanupState(service.Books(), tally, failed) ==
            CleanupFold(old(service.Books()), OrphansAmong(old(service.ledger), old(service.ledger), now - olderThan), wires, day, now)
    ensures scanned == |OrphansAmong(old(service.ledger), old(service.ledger), now - olderThan)|
  {
    var orphans := ScanOrphans(service, olderThan, now);
    scanned, tally, failed := |orphans|, Tally(0, 0, 0), false;
    ghost var b0 := service.Books();
    var i := 0;
    while i < |orphans| && !failed
      invariant 0 <= i <= |orphans|
      invariant CleanupState(service.Books(), tally, failed) == CleanupFold(b0, orphans[..i], wires, day, now)
      decreases |orphans| - i
    {
      assert orphans[..i + 1][..i] == orphans[..i];
      tally, failed := RefundOrphan(service, orphans[i], wires(i), tally, day, now);
      i := i + 1;
    }
    if failed {
      CleanupStopped(b0, orphans, wires, day, now, i);
    } else {
      assert orphans[..i] == orphans;
    }
  }

  lemma {:induction false} CleanupStopped(b: Book, os: seq<Orphan>, wires: nat -> Wire, day: Day, now: Time, n: nat)
    requires n <= |os| && CleanupFold(b, os[..n], wires, day, now).failed
    ensures CleanupFold(b, os, wires, day, now) == CleanupFold(b, os[..n], wires, day, now)
    decreases |os|
  {
    if n == |os| {
      assert os[..n] == os;
    } else {
      assert os[..|os| - 1][..n] == os[..n];
      CleanupStopped(b, os[..|os| - 1], wires, day, now, n);
    }
  }

  lemma HasEntryLater(l: seq<Entry>, l': seq<Entry>, r: string, t: EntryType)
    requires l <= l' && HasEntry(l, r, t)
    ensures HasEntry(l', r, t)
  {
    var i :| 0 <= i < |l| && l[i].requestId == r && l[i].entryType == t;
    assert l'[i] == l[i];
  }

  /** One refund of the loop appends at most a refund, and one that is booked leaves it in the ledger. */
  lemma CleanupOneRefunds(c: CleanupState, o: Orphan, w: Wire, day: Day, now: Time)
    requires o.requestId != ""
    ensures var l, c' := c.book.ledger, CleanupOne(c, o, w, day, now);
      && l <= c'.book.ledger && (forall i :: |l| <= i < |c'.book.ledger| ==> c'.book.ledger[i].entryType.Refund?)
      && (!c'.failed ==> HasEntry(c'.book.ledger, o.requestId, Refund))
  {
    if ApplyTx(c.book, OrphanRefund(o), day, now).reply.Accepted? {
      HasEntryAppend(c.book.ledger, NewEntry(c.book, OrphanRefund(o), now), o.requestId, Refund);
    }
  }

  lemma {:induction false} CleanupFoldRefundsAll(b: Book, os: seq<Orphan>, wires: nat -> Wire, day: Day, now: Time)
    requires forall o :: o in os ==> o.requestId != ""
    ensures var c := CleanupFold(b, os, wires, day, now);
      && b.ledger <= c.book.ledger
      && (forall i :: |b.ledger| <= i < |c.book.ledger| ==> c.book.ledger[i].entryType.Refund?)
      && (!c.failed ==> forall o :: o in os ==> HasEntry(c.book.ledger, o.requestId, Refund))
  {
    if os != [] {
      var n := |os| - 1;
      CleanupFoldRefundsAll(b, os[..n], wires, day, now);
      var c := CleanupFold(b, os[..n], wires, day, now);
      if !c.failed {
        var c' := CleanupOne(c, os[n], wires(n), day, now);
        CleanupOneRefunds(c, os[n], wires(n), day, now);
        forall o | !c'.failed && o in os
          ensures HasEntry(c'.book.ledger, o.requestId, Refund)
        {
          if o in os[..n] {
            HasEntryLater(c.book.ledger, c'.book.ledger, o.requestId, Refund);
          }
        }
      }
    }
  }

  lemma {:induction false} NoneAmong(p: seq<Entry>, l: seq<Entry>, cutoff: Time)
    requires forall i :: 0 <= i < |p| ==> !IsOrphan(p[i], l, cutoff)
    ensures OrphansAmong(p, l, cutoff) == []
  {
    if p != [] {
      NoneAmong(p[..|p| - 1], l, cutoff);
    }
  }

  lemma RefundedIsNoOrphan(l: seq<Entry>, l': seq<Entry>, cutoff: Time, i: nat)
    requires l <= l' && i < |l'| && (i >= |l| ==> l'[i].entryType.Refund?)
    requires forall o :: o in OrphansAmong(l, l, cutoff) ==> HasEntry(l', o.requestId, Refund)
    ensures !IsOrphan(l'[i], l', cutoff)
  {
    if i < |l| && IsOrphan(l'[i], l', cutoff) {
      assert l'[i] == l[i];
      if HasEntry(l, l[i].requestId, Refund) {
        HasEntryLater(l, l', l[i].requestId, Refund);
      } else if HasEntry(l, l[i].requestId, SettleAdjust) {
        HasEntryLater(l, l', l[i].requestId, SettleAdjust);
      } else {
        OrphanIsListed(l, l, cutoff, i);
      }
    }
  }

  /** A ledger that has grown by refunds, one of them for every orphan, has no orphan left. */
  lemma NoOrphanLeft(l: seq<Entry>, l': seq<Entry>, cutoff: Time)
    requires l <= l' && forall i :: |l| <= i < |l'| ==> l'[i].entryType.Refund?
    requires forall o :: o in OrphansAmong(l, l, cutoff) ==> HasEntry(l', o.requestId, Refund)
    ensures OrphansAmong(l', l', cutoff) == []
  {
    forall i | 0 <= i < |l'|
      ensures !IsOrphan(l'[i], l', cutoff)
    {
      RefundedIsNoOrphan(l, l', cutoff, i);
    }
    NoneAmong(l', l', cutoff);
  }

  lemma OrphansAreNamed(l: seq<Entry>, cutoff: Time)
    ensures forall o :: o in OrphansAmong(l, l, cutoff) ==> o.requestId != ""
  {
    forall o | o in OrphansAmong(l, l, cutoff)
      ensures o.requestId != ""
    {
      var i := OrphanIsAmong(l, l, cutoff, o);
    }
  }

  /**
    After a cleanup that did not fail, no consume older than the threshold lacks an outcome;
    and a cleanup appends nothing but refunds of requests that had none.
   */
  lemma CleanupLeavesNoOrphan(b: Book, olderThan: int, wires: nat -> Wire, day: Day, now: Time)
    ensures var c := CleanupFold(b, OrphansAmong(b.ledger, b.ledger, now - olderThan), wires, day, now);
      && b.ledger <= c.book.ledger
      && (forall i :: |b.ledger| <= i < |c.book.ledger| ==> c.book.ledger[i].entryType.Refund?)
      && (!c.failed ==> OrphansAmong(c.book.ledger, c.book.ledger, now - olderThan) == [])
  {
    var os := OrphansAmong(b.ledger, b.ledger, now - olderThan);
    OrphansAreNamed(b.ledger, now - olderThan);
    CleanupFoldRefundsAll(b, os, wires, day, now);
    var c := CleanupFold(b, os, wires, day, now);
    if !c.failed {
      NoOrphanLeft(b.ledger, c.book.ledger, now - olderThan);
    }
  }
}
