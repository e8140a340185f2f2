/**
  Adjustment transactions interleaved at their row locks. Every transaction locks its
  key's row, then its user's row, reads under those locks, and publishes its writes when
  it commits. Such runs never deadlock and are equivalent to running the committed
  transactions one at a time in commit order.
 */
module Interleaving {
  import opened Outcomes
  import opened Ledger
  import opened AccountInvariants

  type TxId = int

  datatype Stage = Begun | KeyHeld | UserHeld

  /** A transaction in progress, with the rows that it read when it took its locks. */
  datatype Tx = Tx(
    adj: Adjustment, day: Day, stage: Stage,
    key: Option<ApiKey>, keyDay: Option<int>, user: Option<User>, userDay: Option<int>)

  /** `log` lists the commits so far, in order. */
  datatype State = State(book: Book, txs: map<TxId, Tx>, log: seq<Op>)

  datatype Step = Begin(t: TxId, adj: Adjustment, day: Day) | LockKey(t: TxId) | LockUser(t: TxId) | Commit(t: TxId, now: Time) | Abort(t: TxId)

  predicate HoldsKey(x: Tx) { !x.stage.Begun? && x.adj.keyId != 0 }

  predicate HoldsUser(x: Tx) { x.stage.UserHeld? }

  predicate KeyFree(s: State, k: KeyId) { forall t :: t in s.txs && HoldsKey(s.txs[t]) ==> s.txs[t].adj.keyId != k }

  predicate UserFree(s: State, u: UserId) { forall t :: t in s.txs && HoldsUser(s.txs[t]) ==> s.txs[t].adj.userId != u }

  function Row<K, V>(m: map<K, V>, k: K): Option<V> { if k in m then Some(m[k]) else None }

  /** What a transaction sees of the key's row under its lock decides whether it fails before locking the user. */
  predicate FailsFast(x: Tx) {
    && TouchesKey(x.adj) && x.adj.prechargeMode
    && (x.key.None? || (x.key.value.limit.Some? && x.key.value.used - x.adj.amount > x.key.value.limit.value))
  }

  predicate Enabled(s: State, step: Step) {
    match step
    case Begin(t, _, _) => t !in s.txs
    case LockKey(t) => t in s.txs && s.txs[t].stage.Begun? && (s.txs[t].adj.keyId == 0 || KeyFree(s, s.txs[t].adj.keyId))
    case LockUser(t) => t in s.txs && s.txs[t].stage.KeyHeld? && !FailsFast(s.txs[t]) && UserFree(s, s.txs[t].adj.userId)
    case Commit(t, _) => t in s.txs && (s.txs[t].stage.UserHeld? || (s.txs[t].stage.KeyHeld? && FailsFast(s.txs[t])))
    case Abort(t) => t in s.txs
  }

  function SetRow<K, V>(m: map<K, V>, k: K, row: Option<V>): map<K, V> {
    if row.Some? then m[k := row.value] else m - {k}
  }

  /** The books as the transaction saw them: its own reads for the rows it locked, the current ledger for its insert. */
  function SeenBook(b: Book, x: Tx): Book {
    Book(
      if HoldsUser(x) then SetRow(b.users, x.adj.userId, x.user) else b.users,
      if HoldsKey(x) then SetRow(b.keys, x.adj.keyId, x.key) else b.keys,
      if HoldsUser(x) then SetRow(b.userDays, (x.adj.userId, x.day), x.userDay) else b.userDays,
      if HoldsKey(x) then SetRow(b.keyDays, (x.adj.keyId, x.day), x.keyDay) else b.keyDays,
      b.ledger)
  }

  /** The commit publishes the rows that the transaction computed from what it saw, and no others. */
  function Publish(b: Book, x: Tx, now: Time): Book {
    var r := ApplyTx(SeenBook(b, x), x.adj, x.day, now).book;
    Book(
      if HoldsUser(x) then SetRow(b.users, x.adj.userId, Row(r.users, x.adj.userId)) else b.users,
      if HoldsKey(x) then SetRow(b.keys, x.adj.keyId, Row(r.keys, x.adj.keyId)) else b.keys,
      if HoldsUser(x) then SetRow(b.userDays, (x.adj.userId, x.day), Row(r.userDays, (x.adj.userId, x.day))) else b.userDays,
      if HoldsKey(x) then SetRow(b.keyDays, (x.adj.keyId, x.day), Row(r.keyDays, (x.adj.keyId, x.day))) else b.keyDays,
      r.ledger)
  }

  function Next(s: State, step: Step): State
    requires Enabled(s, step)
  {
    match step
    case Begin(t, adj, day) => s.(txs := s.txs[t := Tx(adj, day, Begun, None, None, None, None)])
    case LockKey(t) =>
      var x := s.txs[t];
      s.(txs := s.txs[t := x.(stage := KeyHeld, key := Row(s.book.keys, x.adj.keyId), keyDay := Row(s.book.keyDays, (x.adj.keyId, x.day)))])
    case LockUser(t) =>
      var x := s.txs[t];
      s.(txs := s.txs[t := x.(stage := UserHeld, user := Row(s.book.users, x.adj.userId), userDay := Row(s.book.userDays, (x.adj.userId, x.day)))])
    case Commit(t, now) =>
      var x := s.txs[t];
      State(Publish(s.book, x, now), s.txs - {t}, s.log + [Op(x.adj, x.day, now)])
    case Abort(t) => s.(txs := s.txs - {t})
  }

  /** What a transaction read under a lock is still so. */
  ghost predicate ReadsHold(b: Book, x: Tx) {
    && (HoldsKey(x) ==> x.key == Row(b.keys, x.adj.keyId) && x.keyDay == Row(b.keyDays, (x.adj.keyId, x.day)))
    && (HoldsUser(x) ==> x.user == Row(b.users, x.adj.userId) && x.userDay == Row(b.userDays, (x.adj.userId, x.day)))
  }

  /** No row has two holders. */
  ghost predicate Exclusive(txs: map<TxId, Tx>) {
    forall t, t' :: t in txs && t' in txs && t != t' ==>
      && (HoldsKey(txs[t]) && HoldsKey(txs[t']) ==> txs[t].adj.keyId != txs[t'].adj.keyId)
      && (HoldsUser(txs[t]) && HoldsUser(txs[t']) ==> txs[t].adj.userId != txs[t'].adj.userId)
  }

  ghost predicate Inv(s: State) {
    Exclusive(s.txs) && forall t :: t in s.txs ==> ReadsHold(s.book, s.txs[t])
  }

  lemma SetOwnRow<K, V>(m: map<K, V>, k: K)
    ensures SetRow(m, k, Row(m, k)) == m
  {
    if k !in m {
      assert m - {k} == m;
    }
  }

  lemma SeenIsCurrent(b: Book, x: Tx)
    requires ReadsHold(b, x)
    ensures SeenBook(b, x) == b
  {
    SetOwnRow(b.users, x.adj.userId);
    SetOwnRow(b.keys, x.adj.keyId);
    SetOwnRow(b.userDays, (x.adj.userId, x.day));
    SetOwnRow(b.keyDays, (x.adj.keyId, x.day));
  }

  lemma WritesOwnUser(b: Book, adj: Adjustment, day: Day, now: Time)
    ensures var r := ApplyTx(b, adj, day, now).book;
      r.users == SetRow(b.users, adj.userId, Row(r.users, adj.userId)) && (KeyRefuses(b.keys, adj) ==> r.users == b.users)
  {
    SetOwnRow(b.users, adj.userId);
  }

  lemma WritesOwnKey(b: Book, adj: Adjustment, day: Day, now: Time)
    ensures var r := ApplyTx(b, adj, day, now).book;
      r.keys == SetRow(b.keys, adj.keyId, Row(r.keys, adj.keyId)) && (adj.keyId == 0 ==> r.keys == b.keys)
  {
    SetOwnRow(b.keys, adj.keyId);
  }

  lemma BumpsOwnRow<K>(m: map<K, int>, k: K, delta: int)
    ensures Bump(m, k, delta) == SetRow(m, k, Row(Bump(m, k, delta), k))
  {
    SetOwnRow(m, k);
  }

  lemma WritesOwnUserDay(b: Book, adj: Adjustment, day: Day, now: Time)
    ensures var r := ApplyTx(b, adj, day, now).book;
      && r.userDays == SetRow(b.userDays, (adj.userId, day), Row(r.userDays, (adj.userId, day)))
      && (KeyRefuses(b.keys, adj) ==> r.userDays == b.userDays)
  {
    SetOwnRow(b.userDays, (adj.userId, day));
    if Refusal(b, adj, day).None? {
      BumpsOwnRow(b.userDays, (adj.userId, day), -Effective(b.users[adj.userId].balance, adj));
    }
  }

  lemma WritesOwnKeyDay(b: Book, adj: Adjustment, day: Day, now: Time)
    ensures var r := ApplyTx(b, adj, day, now).book;
      && r.keyDays == SetRow(b.keyDays, (adj.keyId, day), Row(r.keyDays, (adj.keyId, day)))
      && (adj.keyId == 0 ==> r.keyDays == b.keyDays)
  {
    SetOwnRow(b.keyDays, (adj.keyId, day));
    if Refusal(b, adj, day).None? {
      BumpsOwnRow(b.keyDays, (adj.keyId, day), -Effective(b.users[adj.userId].balance, adj));
    }
  }

  predicate MayCommit(x: Tx) { x.stage.UserHeld? || (x.stage.KeyHeld? && FailsFast(x)) }

  /** At its commit, a transaction's effect is that of running it alone on the committed books: it writes no row but its own. */
  lemma CommitIsAtomic(b: Book, x: Tx, now: Time)
    requires ReadsHold(b, x) && MayCommit(x)
    ensures Publish(b, x, now) == ApplyTx(b, x.adj, x.day, now).book
  {
    SeenIsCurrent(b, x);
    WritesOwnUser(b, x.adj, x.day, now);
    WritesOwnKey(b, x.adj, x.day, now);
    WritesOwnUserDay(b, x.adj, x.day, now);
    WritesOwnKeyDay(b, x.adj, x.day, now);
  }

  lemma OtherRow<K, V>(m: map<K, V>, k: K, row: Option<V>, other: K)
    requires other != k
    ensures Row(SetRow(m, k, row), other) == Row(m, other)
  {
  }

  /** A commit leaves alone the key that another transaction has read. */
  lemma CommitKeepsKeyReads(b: Book, x: Tx, now: Time, y: Tx)
    requires HoldsKey(x) ==> x.adj.keyId != y.adj.keyId
    ensures var p := Publish(b, x, now);
      Row(p.keys, y.adj.keyId) == Row(b.keys, y.adj.keyId) && Row(p.keyDays, (y.adj.keyId, y.day)) == Row(b.keyDays, (y.adj.keyId, y.day))
  {
    if HoldsKey(x) {
      var r := ApplyTx(SeenBook(b, x), x.adj, x.day, now).book;
      OtherRow(b.keys, x.adj.keyId, Row(r.keys, x.adj.keyId), y.adj.keyId);
      OtherRow(b.keyDays, (x.adj.keyId, x.day), Row(r.keyDays, (x.adj.keyId, x.day)), (y.adj.keyId, y.day));
    }
  }

  lemma CommitKeepsUserReads(b: Book, x: Tx, now: Time, y: Tx)
    requires HoldsUser(x) ==> x.adj.userId != y.adj.userId
    ensures var p := Publish(b, x, now);
      Row(p.users, y.adj.userId) == Row(b.users, y.adj.userId) && Row(p.userDays, (y.adj.userId, y.day)) == Row(b.userDays, (y.adj.userId, y.day))
  {
    if HoldsUser(x) {
      var r := ApplyTx(SeenBook(b, x), x.adj, x.day, now).book;
      OtherRow(b.users, x.adj.userId, Row(r.users, x.adj.userId), y.adj.userId);
      OtherRow(b.userDays, (x.adj.userId, x.day), Row(r.userDays, (x.adj.userId, x.day)), (y.adj.userId, y.day));
    }
  }

  /** A commit leaves alone what every other transaction has read. */
  lemma CommitKeepsReads(b: Book, x: Tx, now: Time, y: Tx)
    requires ReadsHold(b, y)
    requires HoldsKey(x) && HoldsKey(y) ==> x.adj.keyId != y.adj.keyId
    requires HoldsUser(x) && HoldsUser(y) ==> x.adj.userId != y.adj.userId
    ensures ReadsHold(Publish(b, x, now), y)
  {
    if HoldsKey(y) {
      CommitKeepsKeyReads(b, x, now, y);
    }
    if HoldsUser(y) {
      CommitKeepsUserReads(b, x, now, y);
    }
  }

  lemma NextKeepsInv(s: State, step: Step)
    requires Inv(s) && Enabled(s, step)
    ensures Inv(Next(s, step))
  {
    match step
    case Commit(t, now) =>
      var s' := Next(s, step);
      forall t' | t' in s'.txs
        ensures ReadsHold(s'.book, s'.txs[t'])
      {
        CommitKeepsReads(s.book, s.txs[t], now, s.txs[t']);
      }
    case _ =>
  }

  function Run(s: State, steps: seq<Step>): Option<State> {
    if steps == [] then Some(s)
    else
      var before := Run(s, steps[..|steps| - 1]);
      if before.None? || !Enabled(before.value, steps[|steps| - 1]) then None
      else Some(Next(before.value, steps[|steps| - 1]))
  }

  function Idle(b: Book): State { State(b, map[], []) }

  /** Every interleaved run ends in the books of the serial run of its commits, in commit order. */
  lemma {:induction false} Serializable(b: Book, steps: seq<Step>)
    requires Run(Idle(b), steps).Some?
    ensures var s := Run(Idle(b), steps).value; Inv(s) && s.book == Replay(b, s.log)
  {
    if steps != [] {
      var prev, last := steps[..|steps| - 1], steps[|steps| - 1];
      Serializable(b, prev);
      var s := Run(Idle(b), prev).value;
      NextKeepsInv(s, last);
      if last.Commit? {
        CommitIsAtomic(s.book, s.txs[last.t], last.now);
        var s' := Next(s, last);
        assert s'.log[..|s'.log| - 1] == s.log;
      }
    }
  }

  /** What the checks inside the transaction leave of an accepted precharge. */
  predicate WithinLimits(b: Book, adj: Adjustment, day: Day) {
    && adj.userId in b.users && b.users[adj.userId].balance >= 0
    && (adj.dailyLimit > 0 ==> Lookup(b.userDays, (adj.userId, day)) <= adj.dailyLimit)
    && (adj.keyId != 0 ==>
          && adj.keyId in b.keys && (b.keys[adj.keyId].limit.Some? ==> b.keys[adj.keyId].used <= b.keys[adj.keyId].limit.value)
          && (adj.keyDailyLimit > 0 ==> Lookup(b.keyDays, (adj.keyId, day)) <= adj.keyDailyLimit))
  }

  lemma BumpedLookup<K>(m: map<K, int>, k: K, delta: int)
    ensures Lookup(Bump(m, k, delta), k) == Lookup(m, k) + delta
  {
  }

  lemma AcceptedConsumeWithinLimits(b: Book, adj: Adjustment, day: Day, now: Time)
    requires adj.affectsUsed && adj.amount < 0 && adj.prechargeMode && !adj.clampToBalance && Refusal(b, adj, day).None?
    ensures WithinLimits(ApplyTx(b, adj, day, now).book, adj, day)
  {
    BumpedLookup(b.userDays, (adj.userId, day), -adj.amount);
    BumpedLookup(b.keyDays, (adj.keyId, day), -adj.amount);
  }

  /**
    A consume that commits leaves both day counters within the limits passed with it and its key within the
    key's limit, however many transactions had passed earlier checks together.
   */
  lemma CommittedConsumeWithinLimits(b: Book, steps: seq<Step>, t: TxId, now: Time)
    requires Run(Idle(b), steps).Some? && Enabled(Run(Idle(b), steps).value, Commit(t, now))
    requires var s := Run(Idle(b), steps).value; var adj := s.txs[t].adj;
      adj.affectsUsed && adj.amount < 0 && adj.prechargeMode && !adj.clampToBalance
      && |Next(s, Commit(t, now)).book.ledger| > |s.book.ledger|
    ensures var s := Run(Idle(b), steps).value;
      WithinLimits(Next(s, Commit(t, now)).book, s.txs[t].adj, s.txs[t].day)
  {
    Serializable(b, steps);
    var s := Run(Idle(b), steps).value;
    CommitIsAtomic(s.book, s.txs[t], now);
    AcceptedConsumeWithinLimits(s.book, s.txs[t].adj, s.txs[t].day, now);
  }

  // ---- Waiting ----

  /** `x` cannot go on until `y` ends. */
  predicate WaitsFor(x: Tx, y: Tx) {
    || (x.stage.Begun? && x.adj.keyId != 0 && HoldsKey(y) && y.adj.keyId == x.adj.keyId)
    || (x.stage.KeyHeld? && !FailsFast(x) && HoldsUser(y) && y.adj.userId == x.adj.userId)
  }

  function Rank(x: Tx): nat { match x.stage case Begun => 0 case KeyHeld => 1 case UserHeld => 2 }

  /** A chain of transactions each waiting for the next. */
  ghost predicate Chain(s: State, ts: seq<TxId>) {
    && (forall i :: 0 <= i < |ts| ==> ts[i] in s.txs)
    && (forall i :: 0 <= i < |ts| - 1 ==> WaitsFor(s.txs[ts[i]], s.txs[ts[i + 1]]))
  }

  /** Waiting leads to transactions further along, so no chain of waits comes back to its start. */
  lemma {:induction false} NoCyclicWait(s: State, ts: seq<TxId>)
    requires Chain(s, ts) && |ts| >= 2
    ensures Rank(s.txs[ts[0]]) < Rank(s.txs[ts[|ts| - 1]]) && ts[0] != ts[|ts| - 1]
  {
    if |ts| > 2 {
      var front := ts[..|ts| - 1];
      NoCyclicWait(s, front);
      assert WaitsFor(s.txs[ts[|ts| - 2]], s.txs[ts[|ts| - 1]]);
    }
  }

  /** While any transaction is in progress, some transaction can take its next step without aborting. */
  lemma SomeTransactionProceeds(s: State)
    requires exists t :: t in s.txs
    ensures exists t :: t in s.txs && (Enabled(s, LockKey(t)) || Enabled(s, LockUser(t)) || Enabled(s, Commit(t, 0)))
  {
    if t :| t in s.txs && s.txs[t].stage.UserHeld? {
      assert Enabled(s, Commit(t, 0));
    } else if t :| t in s.txs && s.txs[t].stage.KeyHeld? {
      assert Enabled(s, LockUser(t)) || Enabled(s, Commit(t, 0));
    } else {
      var t :| t in s.txs;
      assert Enabled(s, LockKey(t));
    }
  }

  /** A precharge that found its key without room never goes on to hold the user's row. */
  lemma {:induction false} NoLockInVain(b: Book, steps: seq<Step>, t: TxId)
    requires Run(Idle(b), steps).Some? && t in Run(Idle(b), steps).value.txs
    ensures var x := Run(Idle(b), steps).value.txs[t]; HoldsUser(x) ==> !FailsFast(x)
  {
    var prev, last := steps[..|steps| - 1], steps[|steps| - 1];
    if t in Run(Idle(b), prev).value.txs {
      NoLockInVain(b, prev, t);
    }
  }

  /** A transaction cannot go on exactly when it waits for another: nothing but a held lock stops it. */
  lemma BlockedIff(s: State, t: TxId)
    requires t in s.txs
    ensures !Enabled(s, LockKey(t)) && !Enabled(s, LockUser(t)) && !Enabled(s, Commit(t, 0)) <==>
      exists t' :: t' in s.txs && WaitsFor(s.txs[t], s.txs[t'])
  {
  }
}
