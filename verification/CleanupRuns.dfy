/**
  A cleanup among everything else that happens: once a scan's refunds are confirmed, no
  consume that was old enough for the scan is left without an outcome.
 */
module CleanupRuns {
  import opened Outcomes
  import opened Ledger
  import opened Protocol
  import B = BillingService
  import S = Session

  /** The ledger was only appended to, with entries no older than the earlier clock. */
  predicate Grown(s: State, s': State) {
    && s.book.ledger <= s'.book.ledger && s.clock <= s'.clock
    && forall i :: |s.book.ledger| <= i < |s'.book.ledger| ==> s.clock <= s'.book.ledger[i].createdAt
  }

  lemma CommitGrows(c: Config, s: State, adj: Adjustment)
    ensures Grown(s, Commit(c, s, adj))
  {
  }

  lemma SendGrows(c: Config, s: State, adj: Adjustment, w: S.Wire)
    ensures Grown(s, Send(c, s, adj, w))
  {
    CommitGrows(c, s, adj);
  }

  lemma NextGrows(c: Config, s: State, ev: Event)
    requires Enabled(c, s, ev)
    ensures Grown(s, Next(c, s, ev))
  {
    match ev
    case StartCall(_, _, cost, _, _, w) => SendGrows(c, s, S.PrechargeAdj(NewSession(s, ev), cost), w);
    case SettleCall(r, final, w) => SettleGrows(c, s, r, final, w);
    case RefundCall(r, w) => RefundGrows(c, s, r, w);
    case CommitLate(adj) => CommitGrows(c, s, adj);
    case RefundOrphan(o, w) => SendGrows(c, s, S.OrphanRefund(o), w);
    case GrantTo(user, amount, actor, key) => CommitGrows(c, s, B.GrantAdjustment(user, amount, actor, key));
    case RedeemCode(user, code) => CommitGrows(c, s, B.RedeemAdjustment(user, code));
    case _ =>
  }

  lemma SettleGrows(c: Config, s: State, r: string, final: nat, w: S.Wire)
    requires Enabled(c, s, SettleCall(r, final, w))
    ensures Grown(s, Next(c, s, SettleCall(r, final, w)))
  {
    var t := s.tracks[r];
    var adj := S.SettleAdj(t.session, final);
    var after := Track(S.AfterSettle(t.session, Seen(c, s, adj, w)), true, Some(final), t.refundCalled);
    SendGrows(c, s.(tracks := s.tracks[r := after]), adj, w);
  }

  lemma RefundGrows(c: Config, s: State, r: string, w: S.Wire)
    requires Enabled(c, s, RefundCall(r, w))
    ensures Grown(s, Next(c, s, RefundCall(r, w)))
  {
    var t := s.tracks[r];
    var adj := S.RefundAdj(t.session.userId, t.session.keyId, r, t.session.precharged);
    var after := Track(S.AfterRefund(t.session, Seen(c, s, adj, w)), true, t.final, true);
    SendGrows(c, s.(tracks := s.tracks[r := after]), adj, w);
  }

  lemma GrownTwice(s: State, t: State, u: State)
    requires Grown(s, t) && Grown(t, u)
    ensures Grown(s, u)
  {
    forall i | |s.book.ledger| <= i < |u.book.ledger|
      ensures s.clock <= u.book.ledger[i].createdAt
    {
      assert i < |t.book.ledger| ==> u.book.ledger[i] == t.book.ledger[i];
    }
  }

  /** From any point of a run to its end. */
  lemma {:induction false} RunGrows(c: Config, s: State, evs: seq<Event>, k: nat)
    requires Run(c, s, evs).Some? && k <= |evs|
    ensures Run(c, s, evs[..k]).Some? && Grown(Run(c, s, evs[..k]).value, Run(c, s, evs).value)
    decreases |evs|
  {
    if k == |evs| {
      assert evs[..k] == evs;
    } else {
      var front := evs[..|evs| - 1];
      assert front[..k] == evs[..k];
      RunGrows(c, s, front, k);
      NextGrows(c, Run(c, s, front).value, evs[|evs| - 1]);
      GrownTwice(Run(c, s, evs[..k]).value, Run(c, s, front).value, Run(c, s, evs).value);
    }
  }

  lemma OutcomeStays(l: seq<Entry>, l': seq<Entry>, r: string)
    requires l <= l' && S.HasOutcome(l, r)
    ensures S.HasOutcome(l', r)
  {
    var i :| 0 <= i < |l| && l[i].requestId == r && (l[i].entryType.Refund? || l[i].entryType.SettleAdjust?);
    assert l'[i] == l[i];
  }

  /** Event k is a refund of the orphan whose caller saw it booked, now or before. */
  predicate Confirmed(c: Config, s: State, evs: seq<Event>, k: nat, o: S.Orphan) {
    && k < |evs| && evs[k] == RefundOrphan(o, S.Delivered) && o.amount >= 0
    && Run(c, s, evs[..k]).Some? && S.Booked(Seen(c, Run(c, s, evs[..k]).value, S.OrphanRefund(o), S.Delivered))
  }

  lemma ConfirmedIsBooked(c: Config, s: State, o: S.Orphan)
    requires o.requestId != "" && o.amount >= 0 && o in s.scanned && S.Booked(Seen(c, s, S.OrphanRefund(o), S.Delivered))
    ensures HasEntry(Next(c, s, RefundOrphan(o, S.Delivered)).book.ledger, o.requestId, EntryType.Refund)
  {
    var adj := S.OrphanRefund(o);
    if ApplyTx(s.book, adj, c.dayOf(s.clock), s.clock).reply.Accepted? {
      HasEntryAppend(s.book.ledger, NewEntry(s.book, adj, s.clock), o.requestId, EntryType.Refund);
    }
  }

  lemma ConfirmedThen(c: Config, s: State, evs: seq<Event>, k: nat, o: S.Orphan)
    requires o.requestId != "" && Confirmed(c, s, evs, k, o) && Run(c, s, evs[..k + 1]).Some?
    ensures S.HasOutcome(Run(c, s, evs[..k + 1]).value.book.ledger, o.requestId)
  {
    assert evs[..k + 1][..k] == evs[..k];
    ConfirmedIsBooked(c, Run(c, s, evs[..k]).value, o);
  }

  /** A confirmed refund leaves its outcome in the ledger to the end of the run. */
  lemma ConfirmedLasts(c: Config, s: State, evs: seq<Event>, k: nat, o: S.Orphan)
    requires Run(c, s, evs).Some? && o.requestId != "" && Confirmed(c, s, evs, k, o)
    ensures S.HasOutcome(Run(c, s, evs).value.book.ledger, o.requestId)
  {
    RunGrows(c, s, evs, k + 1);
    ConfirmedThen(c, s, evs, k, o);
    OutcomeStays(Run(c, s, evs[..k + 1]).value.book.ledger, Run(c, s, evs).value.book.ledger, o.requestId);
  }

  /** The cleanup has seen to every orphan its scan found. */
  ghost predicate AllConfirmed(c: Config, s: State, evs: seq<Event>, orphans: seq<S.Orphan>) {
    forall o :: o in orphans ==> exists k: nat :: Confirmed(c, s, evs, k, o)
  }

  lemma OldEntryHasOutcome(c: Config, s: State, evs: seq<Event>, i: nat)
    requires Run(c, Next(c, s, Scan), evs).Some?
    requires AllConfirmed(c, Next(c, s, Scan), evs, S.OrphansAmong(s.book.ledger, s.book.ledger, s.clock - c.threshold))
    requires i < |s.book.ledger| && s.book.ledger[i].entryType.Consume? && s.book.ledger[i].requestId != ""
    requires s.book.ledger[i].createdAt < s.clock - c.threshold
    ensures S.HasOutcome(Run(c, Next(c, s, Scan), evs).value.book.ledger, s.book.ledger[i].requestId)
  {
    var l, scanned, e := s.book.ledger, Next(c, s, Scan), s.book.ledger[i];
    if S.HasOutcome(l, e.requestId) {
      RunGrows(c, scanned, evs, 0);
      assert evs[..0] == [];
      OutcomeStays(l, Run(c, scanned, evs).value.book.ledger, e.requestId);
    } else {
      S.OrphanIsListed(l, l, s.clock - c.threshold, i);
      var k: nat :| Confirmed(c, scanned, evs, k, S.OrphanOf(e));
      ConfirmedLasts(c, scanned, evs, k, S.OrphanOf(e));
    }
  }

  /**
    A scan at some time, and a run in which each of its orphans has a confirmed refund,
    whatever sessions, late writes, other cleanups, grants and edits come in between: at the
    end no consume older than that time less the threshold lacks an outcome.
   */
  lemma ConfirmedCleanupLeavesNoOrphan(c: Config, s: State, evs: seq<Event>)
    requires Run(c, Next(c, s, Scan), evs).Some?
    requires AllConfirmed(c, Next(c, s, Scan), evs, S.OrphansAmong(s.book.ledger, s.book.ledger, s.clock - c.threshold))
    ensures var l := Run(c, Next(c, s, Scan), evs).value.book.ledger;
      S.OrphansAmong(l, l, s.clock - c.threshold) == []
  {
    var scanned := Next(c, s, Scan);
    var l := Run(c, scanned, evs).value.book.ledger;
    RunGrows(c, scanned, evs, 0);
    assert evs[..0] == [];
    forall i | 0 <= i < |l|
      ensures !S.IsOrphan(l[i], l, s.clock - c.threshold)
    {
      if l[i].createdAt < s.clock - c.threshold && l[i].entryType.Consume? && l[i].requestId != "" {
        assert i < |s.book.ledger| && l[i] == s.book.ledger[i];
        OldEntryHasOutcome(c, s, evs, i);
      }
    }
    S.NoneAmong(l, l, s.clock - c.threshold);
  }
}
