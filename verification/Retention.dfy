/**
  Reports do not change when raw logs are rolled up and later deleted: over every run of
  calls, roll-ups, purges and repairs, a report equals the same grouping over all settled
  calls ever made.
 */
module Retention {
  import opened Outcomes
  import opened UsageTables
  import opened RollupRepo

  /** The tables, every settled call ever recorded, today, and the days the current round still has to roll. */
  datatype State = State(t: Tables, history: seq<Row>, today: Day, queue: seq<Day>)

  datatype Event =
    | Record(log: Log)            // a finished call, stamped with the day it is written on
    | Trace(log: Log)             // orphan repair adds a refunded log with the day of the pre-charge
    | Rewrite(i: nat)             // orphan repair turns an existing log that is not settled into a refunded one
    | PlanRollup                  // a round asks for its pending days
    | RollNext                    // it rolls the next of them
    | StopRollup                  // it ends early: a roll-up failed, or the process restarted
    | Purge(cutoff: Day)          // the same round, after rolling
    | Tomorrow

  predicate Enabled(s: State, e: Event) {
    match e
    case Record(log) => log.day == s.today
    case Trace(log) => log.status.Refunded?
    case Rewrite(i) => i < |s.t.logs| && !s.t.logs[i].status.Settled?
    case PlanRollup => s.queue == []
    case RollNext => s.queue != []
    case StopRollup => true
    case Purge(cutoff) => s.queue == []
    case Tomorrow => true
  }

  function Next(s: State, e: Event): State
    requires Enabled(s, e)
  {
    match e
    case Record(log) =>
      s.(t := s.t.(logs := s.t.logs + [log]), history := if log.status.Settled? then s.history + [Counted(log)] else s.history)
    case Trace(log) => s.(t := s.t.(logs := s.t.logs + [log]))
    case Rewrite(i) =>
      var log := s.t.logs[i];
      s.(t := s.t.(logs := s.t.logs[i := log.(status := Refunded, tokens := log.tokens.(charged := 0))]))
    case PlanRollup => s.(queue := PendingDays(s.t, s.today - 1, MAX_ROLLUP_DAYS_PER_RUN))
    case RollNext => s.(t := RolledDay(s.t, s.queue[0]), queue := s.queue[1..])
    case StopRollup => s.(queue := [])
    case Purge(cutoff) => s.(t := Purged(s.t, cutoff))
    case Tomorrow => s.(today := s.today + 1)
  }

  predicate Initial(s: State) { s.t == Tables([], [], []) && s.history == [] && s.queue == [] }

  /** The state after a run, or nothing when some event of it could not happen. */
  function Run(s: State, events: seq<Event>): Option<State> {
    if events == [] then Some(s)
    else
      var before := Run(s, events[..|events| - 1]);
      if before.Some? && Enabled(before.value, events[|events| - 1]) then Some(Next(before.value, events[|events| - 1])) else None
  }

  // ---- The invariant ----

  /** The raw table still has every settled call of the day. */
  predicate Intact(s: State, d: Day) { On(SettledRows(s.t.logs), d) == On(s.history, d) }

  ghost predicate UnrolledIsIntact(s: State) { forall d :: d !in s.t.rolled ==> Intact(s, d) }

  ghost predicate RolledIsRight(s: State) {
    forall d, q :: Sum(On(s.t.rollup, d), q) == if d in s.t.rolled then Sum(On(s.history, d), q) else ZERO
  }

  /** No day with calls was passed over. */
  predicate NoGaps(s: State) {
    forall i :: 0 <= i < |s.history| && Latest(s.t.rolled).Some? && s.history[i].day <= Latest(s.t.rolled).value
      ==> s.history[i].day in s.t.rolled
  }

  predicate InThePast(s: State) {
    && (forall d :: d in s.t.rolled ==> d < s.today)
    && (forall i :: 0 <= i < |s.history| ==> s.history[i].day <= s.today)
    && (forall i :: 0 <= i < |s.queue| ==> s.queue[i] < s.today && s.queue[i] !in s.t.rolled)
    && Increasing(s.queue)
  }

  /** The round's list passes over no day with calls either. */
  predicate QueueHasNoGaps(s: State) {
    forall i, k :: 0 <= i < |s.history| && 0 <= k < |s.queue| && s.history[i].day <= s.queue[k]
      ==> s.history[i].day in s.t.rolled || s.history[i].day in s.queue
  }

  ghost predicate Inv(s: State) {
    && UnrolledIsIntact(s) && RolledIsRight(s) && NoGaps(s) && InThePast(s) && QueueHasNoGaps(s)
    && Counts(s.t.rollup) && UniqueKeys(s.t.rollup) && Counts(s.history)
  }

  // ---- Each event keeps it ----

  lemma SettledAppend(logs: seq<Log>, log: Log)
    ensures SettledRows(logs + [log]) == if log.status.Settled? then SettledRows(logs) + [Counted(log)] else SettledRows(logs)
  {
    assert (logs + [log])[..|logs|] == logs;
  }

  lemma RecordKeepsIntact(s: State, log: Log, d: Day)
    requires Enabled(s, Record(log)) && Intact(s, d)
    ensures Intact(Next(s, Record(log)), d)
  {
    SettledAppend(s.t.logs, log);
    BetweenAppend(SettledRows(s.t.logs), Counted(log), d, d + 1);
    BetweenAppend(s.history, Counted(log), d, d + 1);
  }

  lemma RecordKeepsHistory(s: State, log: Log, d: Day)
    requires Enabled(s, Record(log)) && d != s.today
    ensures On(Next(s, Record(log)).history, d) == On(s.history, d)
  {
    BetweenAppend(s.history, Counted(log), d, d + 1);
  }

  lemma RecordKeepsSums(s: State, log: Log)
    requires RolledIsRight(s) && InThePast(s) && Enabled(s, Record(log))
    ensures RolledIsRight(Next(s, Record(log)))
  {
    var n := Next(s, Record(log));
    forall d, q
      ensures Sum(On(n.t.rollup, d), q) == if d in n.t.rolled then Sum(On(n.history, d), q) else ZERO
    {
      if d in s.t.rolled {
        RecordKeepsHistory(s, log, d);
      }
      assert Sum(On(s.t.rollup, d), q) == if d in s.t.rolled then Sum(On(s.history, d), q) else ZERO;
    }
  }

  lemma RecordKeepsNoGaps(s: State, log: Log)
    requires NoGaps(s) && InThePast(s) && Enabled(s, Record(log))
    ensures NoGaps(Next(s, Record(log)))
  {
    var n := Next(s, Record(log));
    if Latest(s.t.rolled).Some? {
      LatestIsRolled(s.t.rolled);
      assert forall i :: 0 <= i < |s.history| ==> n.history[i] == s.history[i];
    }
  }

  lemma {:induction false} LatestIsRolled(rolled: seq<Day>)
    requires Latest(rolled).Some?
    ensures Latest(rolled).value in rolled
  {
    var n := |rolled| - 1;
    if Latest(rolled[..n]).Some? {
      LatestIsRolled(rolled[..n]);
    }
  }

  lemma RecordKeepsInThePast(s: State, log: Log)
    requires InThePast(s) && Enabled(s, Record(log))
    ensures InThePast(Next(s, Record(log)))
  {
  }

  lemma RecordKeepsQueue(s: State, log: Log)
    requires InThePast(s) && QueueHasNoGaps(s) && Enabled(s, Record(log))
    ensures QueueHasNoGaps(Next(s, Record(log)))
  {
    var n := Next(s, Record(log));
    assert forall i :: 0 <= i < |s.history| ==> n.history[i] == s.history[i];
  }

  lemma RecordKeepsOrder(s: State, log: Log)
    requires NoGaps(s) && InThePast(s) && QueueHasNoGaps(s) && Counts(s.history) && Enabled(s, Record(log))
    ensures var n := Next(s, Record(log)); NoGaps(n) && InThePast(n) && QueueHasNoGaps(n) && Counts(n.history)
  {
    RecordKeepsNoGaps(s, log);
    RecordKeepsInThePast(s, log);
    RecordKeepsQueue(s, log);
  }

  lemma RecordKeeps(s: State, log: Log)
    requires Inv(s) && Enabled(s, Record(log))
    ensures Inv(Next(s, Record(log)))
  {
    var n := Next(s, Record(log));
    forall d | d !in n.t.rolled
      ensures Intact(n, d)
    {
      assert Intact(s, d);
      RecordKeepsIntact(s, log, d);
    }
    RecordKeepsSums(s, log);
    RecordKeepsOrder(s, log);
  }

  lemma TraceKeeps(s: State, log: Log)
    requires Inv(s) && Enabled(s, Trace(log))
    ensures Inv(Next(s, Trace(log)))
  {
    SettledAppend(s.t.logs, log);
  }

  lemma {:induction false} RewriteChangesNoSettled(logs: seq<Log>, i: nat, log: Log)
    requires i < |logs| && !logs[i].status.Settled? && !log.status.Settled?
    ensures SettledRows(logs[i := log]) == SettledRows(logs)
  {
    var n := |logs| - 1;
    if i < n {
      RewriteChangesNoSettled(logs[..n], i, log);
      assert logs[i := log][..n] == logs[..n][i := log];
    } else {
      assert logs[i := log][..n] == logs[..n];
    }
  }

  lemma RewriteKeeps(s: State, i: nat)
    requires Inv(s) && Enabled(s, Rewrite(i))
    ensures Inv(Next(s, Rewrite(i)))
  {
    RewriteChangesNoSettled(s.t.logs, i, Next(s, Rewrite(i)).t.logs[i]);
  }

  lemma {:induction false} RowHasLog(logs: seq<Log>, r: Row)
    requires r in SettledRows(logs)
    ensures exists i :: 0 <= i < |logs| && logs[i].day == r.day
  {
    var n := |logs| - 1;
    if logs[n].status.Settled? && r == Counted(logs[n]) {
      assert logs[n].day == r.day;
    } else {
      RowHasLog(logs[..n], r);
      var i :| 0 <= i < n && logs[..n][i].day == r.day;
      assert logs[i].day == r.day;
    }
  }

  lemma {:induction false} InSpan(rows: seq<Row>, a: Day, b: Day, r: Row)
    ensures r in Between(rows, a, b) <==> r in rows && a <= r.day < b
  {
    if rows != [] {
      var n := |rows| - 1;
      InSpan(rows[..n], a, b, r);
      assert rows == rows[..n] + [rows[n]];
    }
  }

  /** A day with calls that is not rolled up yet is at or after the earliest log. */
  lemma UnrolledDayIsScanned(s: State, i: nat)
    requires i < |s.history| && Intact(s, s.history[i].day)
    ensures Earliest(s.t.logs).Some? && Earliest(s.t.logs).value <= s.history[i].day
  {
    var r := s.history[i];
    InSpan(s.history, r.day, r.day + 1, r);
    InSpan(SettledRows(s.t.logs), r.day, r.day + 1, r);
    RowHasLog(s.t.logs, r);
  }

  /** A day with calls and without a roll-up is in the list unless the list ends before it. */
  lemma PlannedDay(s: State, days: seq<Day>, i: nat, k: nat)
    requires i < |s.history| && s.history[i].day !in s.t.rolled && Intact(s, s.history[i].day)
    requires s.history[i].day <= s.today - 1 && Earliest(s.t.logs).Some?
    requires FirstUnrolled(days, s.t.rolled, Earliest(s.t.logs).value, s.today - 1, MAX_ROLLUP_DAYS_PER_RUN)
    requires k < |days| && s.history[i].day <= days[k]
    ensures s.history[i].day in days
  {
    UnrolledDayIsScanned(s, i);
  }

  lemma PlanKeepsQueue(s: State, days: seq<Day>)
    requires UnrolledIsIntact(s) && Earliest(s.t.logs).Some?
    requires FirstUnrolled(days, s.t.rolled, Earliest(s.t.logs).value, s.today - 1, MAX_ROLLUP_DAYS_PER_RUN)
    ensures QueueHasNoGaps(s.(queue := days))
  {
    forall i, k | 0 <= i < |s.history| && 0 <= k < |days| && s.history[i].day <= days[k]
      ensures s.history[i].day in s.t.rolled || s.history[i].day in days
    {
      if s.history[i].day !in s.t.rolled {
        assert Intact(s, s.history[i].day);
        assert days[k] <= s.today - 1;
        PlannedDay(s, days, i, k);
      }
    }
  }

  lemma PlanKeepsPast(s: State, days: seq<Day>, from: Day)
    requires InThePast(s) && FirstUnrolled(days, s.t.rolled, from, s.today - 1, MAX_ROLLUP_DAYS_PER_RUN)
    ensures InThePast(s.(queue := days))
  {
  }

  /** What the invariant says of the tables does not depend on the list. */
  lemma QueueIsApart(s: State, days: seq<Day>)
    requires UnrolledIsIntact(s) && RolledIsRight(s)
    ensures UnrolledIsIntact(s.(queue := days)) && RolledIsRight(s.(queue := days))
  {
    forall d | d !in s.t.rolled
      ensures Intact(s.(queue := days), d)
    {
      assert Intact(s, d);
    }
  }

  lemma PlanKeeps(s: State)
    requires Inv(s) && Enabled(s, PlanRollup)
    ensures Inv(Next(s, PlanRollup))
  {
    var e, days := Earliest(s.t.logs), PendingDays(s.t, s.today - 1, MAX_ROLLUP_DAYS_PER_RUN);
    QueueIsApart(s, days);
    if e.Some? {
      PendingMeaning(s.t.rolled, e.value, s.today - 1, MAX_ROLLUP_DAYS_PER_RUN);
      PlanKeepsQueue(s, days);
      PlanKeepsPast(s, days, e.value);
    }
  }

  lemma RolledGroup(t: Tables, d: Day)
    ensures var own := On(SettledRows(t.logs), d);
      AllOn(Grouped(own), d) && Counts(Grouped(own)) && UniqueKeys(Grouped(own))
  {
    SettledCount(t.logs);
    OnIsOnDay(SettledRows(t.logs), d);
    GroupedShape(On(SettledRows(t.logs), d), d);
  }

  lemma RolledDayRows(t: Tables, d: Day, e: Day)
    ensures On(RolledDay(t, d).rollup, e) == if e == d then Grouped(On(SettledRows(t.logs), d)) else On(t.rollup, e)
  {
    var group := Grouped(On(SettledRows(t.logs), d));
    RolledGroup(t, d);
    BetweenConcat(Without(t.rollup, d), group, e, e + 1);
    WithoutDay(t.rollup, d, e);
    OnDay(group, d, e);
  }

  /** What rolling a day leaves in the daily table. */
  lemma RollDaySums(t: Tables, d: Day, e: Day, q: Question)
    ensures Sum(On(RolledDay(t, d).rollup, e), q) == if e == d then Sum(On(SettledRows(t.logs), d), q) else Sum(On(t.rollup, e), q)
  {
    RolledDayRows(t, d, e);
    GroupedKeepsSums(On(SettledRows(t.logs), d), q);
  }

  lemma RollDayShape(t: Tables, d: Day)
    requires Counts(t.rollup) && UniqueKeys(t.rollup)
    ensures Counts(RolledDay(t, d).rollup) && UniqueKeys(RolledDay(t, d).rollup)
  {
    var own, kept := On(SettledRows(t.logs), d), Without(t.rollup, d);
    RolledGroup(t, d);
    WithoutRows(t.rollup, d);
    WithoutKeepsKeys(t.rollup, d);
    forall i | 0 <= i < |kept|
      ensures kept[i].day != d
    {
      assert kept[i] in kept;
    }
  }

  lemma LatestGrows(rolled: seq<Day>, d: Day)
    ensures var more := if d in rolled then rolled else rolled + [d];
      Latest(more).Some? && Latest(more).value == if Latest(rolled).Some? then Max(Latest(rolled).value, d) else d
  {
    if d !in rolled {
      assert (rolled + [d])[..|rolled|] == rolled;
    }
  }

  lemma RollKeepsSums(s: State)
    requires Inv(s) && Enabled(s, RollNext)
    ensures RolledIsRight(Next(s, RollNext)) && UnrolledIsIntact(Next(s, RollNext))
  {
    var d, n := s.queue[0], Next(s, RollNext);
    forall e, q
      ensures Sum(On(n.t.rollup, e), q) == if e in n.t.rolled then Sum(On(n.history, e), q) else ZERO
    {
      RollDaySums(s.t, d, e, q);
      assert Intact(s, d);
      assert Sum(On(s.t.rollup, e), q) == if e in s.t.rolled then Sum(On(s.history, e), q) else ZERO;
    }
    forall e | e !in n.t.rolled
      ensures Intact(n, e)
    {
      assert Intact(s, e);
    }
  }

  lemma FirstOfQueue(s: State, d: Day)
    requires Increasing(s.queue) && d in s.queue && d <= s.queue[0]
    ensures d == s.queue[0]
  {
    var k :| 0 <= k < |s.queue| && s.queue[k] == d;
    assert s.queue[0] <= s.queue[k];
  }

  /** The list's first day has no unrolled day with calls before it. */
  lemma RollLeavesNoGap(s: State, i: nat)
    requires NoGaps(s) && Increasing(s.queue) && QueueHasNoGaps(s) && s.queue != [] && i < |s.history|
    requires s.history[i].day <= if Latest(s.t.rolled).Some? then Max(Latest(s.t.rolled).value, s.queue[0]) else s.queue[0]
    ensures s.history[i].day in s.t.rolled || s.history[i].day == s.queue[0]
  {
    if s.history[i].day <= s.queue[0] && s.history[i].day in s.queue {
      FirstOfQueue(s, s.history[i].day);
    }
  }

  /** Up to the new watermark every day with calls is rolled. */
  lemma RolledBehind(s: State, i: nat)
    requires NoGaps(s) && Increasing(s.queue) && QueueHasNoGaps(s) && s.queue != [] && i < |s.history|
    ensures var rolled := RolledDay(s.t, s.queue[0]).rolled;
      Latest(rolled).Some? && (s.history[i].day <= Latest(rolled).value ==> s.history[i].day in rolled)
  {
    LatestGrows(s.t.rolled, s.queue[0]);
    if s.history[i].day <= Latest(RolledDay(s.t, s.queue[0]).rolled).value {
      RollLeavesNoGap(s, i);
    }
  }

  lemma RollKeepsNoGaps(s: State)
    requires NoGaps(s) && InThePast(s) && QueueHasNoGaps(s) && Enabled(s, RollNext)
    ensures NoGaps(Next(s, RollNext))
  {
    forall i | 0 <= i < |s.history|
      ensures var rolled := RolledDay(s.t, s.queue[0]).rolled;
        Latest(rolled).Some? && (s.history[i].day <= Latest(rolled).value ==> s.history[i].day in rolled)
    {
      RolledBehind(s, i);
    }
  }

  lemma RollKeepsQueue(s: State)
    requires InThePast(s) && QueueHasNoGaps(s) && Enabled(s, RollNext)
    ensures InThePast(Next(s, RollNext)) && QueueHasNoGaps(Next(s, RollNext))
  {
    var d, rest := s.queue[0], s.queue[1..];
    assert s.queue == [d] + rest;
    forall i, k | 0 <= i < |s.history| && 0 <= k < |rest| && s.history[i].day <= rest[k]
      ensures s.history[i].day in s.t.rolled || s.history[i].day == d || s.history[i].day in rest
    {
      assert s.history[i].day <= s.queue[k + 1];
    }
  }

  lemma RollKeeps(s: State)
    requires Inv(s) && Enabled(s, RollNext)
    ensures Inv(Next(s, RollNext))
  {
    RollKeepsSums(s);
    RollKeepsQueue(s);
    RollDayShape(s.t, s.queue[0]);
    RollKeepsNoGaps(s);
  }

  lemma {:induction false} PurgeKeepsLater(logs: seq<Log>, cutoff: Day, d: Day)
    requires d >= cutoff
    ensures On(SettledRows(LogsFrom(logs, cutoff)), d) == On(SettledRows(logs), d)
  {
    if logs != [] {
      var front, last := logs[..|logs| - 1], logs[|logs| - 1];
      PurgeKeepsLater(front, cutoff, d);
      if last.day >= cutoff {
        SettledAppend(LogsFrom(front, cutoff), last);
      }
      if last.status.Settled? {
        BetweenAppend(SettledRows(LogsFrom(front, cutoff)), Counted(last), d, d + 1);
        BetweenAppend(SettledRows(front), Counted(last), d, d + 1);
      }
    }
  }

  lemma NoLogNoRow(logs: seq<Log>, d: Day)
    requires forall i :: 0 <= i < |logs| ==> logs[i].day != d
    ensures On(SettledRows(logs), d) == []
  {
    if On(SettledRows(logs), d) != [] {
      var r := On(SettledRows(logs), d)[0];
      InSpan(SettledRows(logs), d, d + 1, r);
      RowHasLog(logs, r);
    }
  }

  lemma {:induction false} PurgeDropsEarlier(logs: seq<Log>, cutoff: Day, d: Day)
    requires d < cutoff
    ensures On(SettledRows(LogsFrom(logs, cutoff)), d) == []
  {
    if logs != [] {
      var front, last := logs[..|logs| - 1], logs[|logs| - 1];
      PurgeDropsEarlier(front, cutoff, d);
      if last.day >= cutoff {
        SettledAppend(LogsFrom(front, cutoff), last);
        BetweenAppend(SettledRows(LogsFrom(front, cutoff)), Counted(last), d, d + 1);
      }
    }
  }

  lemma PurgeKeeps(s: State, cutoff: Day)
    requires Inv(s) && Enabled(s, Purge(cutoff))
    ensures Inv(Next(s, Purge(cutoff)))
  {
    if MayPurge(s.t, cutoff) {
      var n := Next(s, Purge(cutoff));
      forall d | d !in n.t.rolled
        ensures Intact(n, d)
      {
        assert Intact(s, d);
        if d >= cutoff {
          PurgeKeepsLater(s.t.logs, cutoff, d);
        } else {
          NoLogNoRow(s.t.logs, d);
          PurgeDropsEarlier(s.t.logs, cutoff, d);
        }
      }
    }
  }

  lemma NextKeeps(s: State, e: Event)
    requires Inv(s) && Enabled(s, e)
    ensures Inv(Next(s, e))
  {
    match e
    case Record(log) => RecordKeeps(s, log);
    case Trace(log) => TraceKeeps(s, log);
    case Rewrite(i) => RewriteKeeps(s, i);
    case PlanRollup => PlanKeeps(s);
    case RollNext => RollKeeps(s);
    case StopRollup =>
    case Purge(cutoff) => PurgeKeeps(s, cutoff);
    case Tomorrow =>
  }

  lemma {:induction false} RunKeeps(s: State, events: seq<Event>)
    requires Initial(s) && Run(s, events).Some?
    ensures Inv(Run(s, events).value)
  {
    if events != [] {
      RunKeeps(s, events[..|events| - 1]);
      NextKeeps(Run(s, events[..|events| - 1]).value, events[|events| - 1]);
    }
  }

  /** A round of the scheduler that rolls its first k days. */
  function Round(k: nat): seq<Event> {
    if k == 0 then [PlanRollup] else Round(k - 1) + [RollNext]
  }

  lemma RunAppend(s: State, events: seq<Event>, e: Event)
    ensures Run(s, events + [e]) ==
      if Run(s, events).Some? && Enabled(Run(s, events).value, e) then Some(Next(Run(s, events).value, e)) else None
  {
    assert (events + [e])[..|events|] == events;
  }

  lemma RollAllAppend(t: Tables, days: seq<Day>, d: Day)
    ensures RollAll(t, days + [d]) == RolledDay(RollAll(t, days), d)
  {
    assert (days + [d])[..|days|] == days;
  }

  /** Rolling the next day of a list of which some are rolled. */
  lemma RollsOneMore(s: State, days: seq<Day>, k: nat)
    requires k < |days|
    ensures var before := s.(t := RollAll(s.t, days[..k]), queue := days[k..]);
      Enabled(before, RollNext) && Next(before, RollNext) == s.(t := RollAll(s.t, days[..k + 1]), queue := days[k + 1..])
  {
    RollAllAppend(s.t, days[..k], days[k]);
    assert days[..k] + [days[k]] == days[..k + 1] && days[k..][1..] == days[k + 1..];
  }

  /** The scheduler's loop is a run of the model, wherever it stops. */
  lemma {:induction false} RoundIsARun(s: State, k: nat)
    requires s.queue == [] && k <= |PendingDays(s.t, s.today - 1, MAX_ROLLUP_DAYS_PER_RUN)|
    ensures var days := PendingDays(s.t, s.today - 1, MAX_ROLLUP_DAYS_PER_RUN);
      Run(s, Round(k)) == Some(s.(t := RollAll(s.t, days[..k]), queue := days[k..]))
  {
    var days := PendingDays(s.t, s.today - 1, MAX_ROLLUP_DAYS_PER_RUN);
    if k == 0 {
      assert days[..0] == [] && days[0..] == days && [] + [PlanRollup] == [PlanRollup];
      RunAppend(s, [], PlanRollup);
    } else {
      RoundIsARun(s, k - 1);
      RunAppend(s, Round(k - 1), RollNext);
      RollsOneMore(s, days, k - 1);
    }
  }

  // ---- Reports ----

  /** A watermark a report may use: no newer than the current one, with every later day still in the raw table. */
  ghost predicate GoodWatermark(s: State, through: Option<Day>) {
    && (through.Some? ==> Latest(s.t.rolled).Some? && through.value <= Latest(s.t.rolled).value)
    && forall d :: (through.Some? ==> d > through.value) ==> Intact(s, d)
  }

  lemma CurrentWatermarkIsGood(s: State)
    requires Inv(s)
    ensures GoodWatermark(s, Latest(s.t.rolled))
  {
    forall d | Latest(s.t.rolled).Some? ==> d > Latest(s.t.rolled).value
      ensures Intact(s, d)
    {
      assert d !in s.t.rolled;
    }
  }

  lemma RolledPart(s: State, a: Day, b: Day, q: Question)
    requires Inv(s) && (a < b ==> Latest(s.t.rolled).Some? && b <= Latest(s.t.rolled).value + 1)
    ensures Sum(Between(s.t.rollup, a, b), q) == Sum(Between(s.history, a, b), q)
  {
    forall d | a <= d < b
      ensures Sum(On(s.t.rollup, d), q) == Sum(On(s.history, d), q)
    {
      if d !in s.t.rolled && On(s.history, d) != [] {
        var r := On(s.history, d)[0];
        InSpan(s.history, d, d + 1, r);
      }
    }
    AgreeByDay(s.t.rollup, s.history, a, b, q);
  }

  lemma RawPart(s: State, through: Option<Day>, a: Day, b: Day, q: Question)
    requires GoodWatermark(s, through) && (through.Some? && a < b ==> a > through.value)
    ensures Sum(Between(SettledRows(s.t.logs), a, b), q) == Sum(Between(s.history, a, b), q)
  {
    forall d | a <= d < b
      ensures Sum(On(SettledRows(s.t.logs), d), q) == Sum(On(s.history, d), q)
    {
      assert Intact(s, d);
    }
    AgreeByDay(SettledRows(s.t.logs), s.history, a, b, q);
  }

  lemma SameSumSameAnswer(x: seq<Row>, y: seq<Row>, q: Question)
    requires Counts(x) && Counts(y) && Sum(x, q) == Sum(y, q)
    ensures Answer(x, q) == Answer(y, q)
  {
    HitIsRequests(x, q);
    HitIsRequests(y, q);
  }

  lemma ReportSum(s: State, through: Option<Day>, from: Day, to: Day, q: Question)
    requires Inv(s) && GoodWatermark(s, through) && from < to
    ensures Sum(Source(s.t, from, to, through), q) == Sum(Between(s.history, from, to), q)
  {
    var m := Split(from, to, through);
    RolledPart(s, from, m, q);
    RawPart(s, through, m, to, q);
    SumSplits(s.history, from, m, to, q);
    SumConcat(Between(s.t.rollup, from, m), Between(SettledRows(s.t.logs), m, to), q);
  }

  lemma CountsConcat(x: seq<Row>, y: seq<Row>)
    requires Counts(x) && Counts(y)
    ensures Counts(x + y)
  {
  }

  lemma SourceCounts(t: Tables, from: Day, to: Day, through: Option<Day>)
    requires Counts(t.rollup)
    ensures Counts(Source(t, from, to, through))
  {
    var m := Split(from, to, through);
    SettledCount(t.logs);
    BetweenCounts(t.rollup, from, m);
    BetweenCounts(SettledRows(t.logs), m, to);
    CountsConcat(Between(t.rollup, from, m), Between(SettledRows(t.logs), m, to));
  }

  lemma ReportWithWatermark(s: State, through: Option<Day>, from: Day, to: Day, q: Question)
    requires Inv(s) && GoodWatermark(s, through)
    ensures Report(s.t, through, from, to, q) == if to <= from then None else Answer(Between(s.history, from, to), q)
  {
    if from < to {
      ReportSum(s, through, from, to, q);
      SourceCounts(s.t, from, to, through);
      BetweenCounts(s.history, from, to);
      SameSumSameAnswer(Source(s.t, from, to, through), Between(s.history, from, to), q);
    }
  }

  /** In every reachable state, for every filter, dimension, group and span of days. */
  lemma ReportsNeverChange(s: State, events: seq<Event>, from: Day, to: Day, q: Question)
    requires Initial(s) && Run(s, events).Some?
    ensures var n := Run(s, events).value;
      Report(n.t, Latest(n.t.rolled), from, to, q) == if to <= from then None else Answer(Between(n.history, from, to), q)
  {
    RunKeeps(s, events);
    var n := Run(s, events).value;
    CurrentWatermarkIsGood(n);
    ReportWithWatermark(n, Latest(n.t.rolled), from, to, q);
  }

  /** A watermark read once stays usable while other steps happen, as long as no purge is among them. */
  lemma NextKeepsIntact(s: State, e: Event, d: Day)
    requires Enabled(s, e) && !e.Purge? && Intact(s, d)
    ensures Intact(Next(s, e), d)
  {
    match e
    case Record(log) => RecordKeepsIntact(s, log, d);
    case Trace(log) => SettledAppend(s.t.logs, log);
    case Rewrite(i) => RewriteChangesNoSettled(s.t.logs, i, Next(s, e).t.logs[i]);
    case _ =>
  }

  lemma WatermarkStaysGood(s: State, e: Event, through: Option<Day>)
    requires Enabled(s, e) && !e.Purge? && GoodWatermark(s, through)
    ensures GoodWatermark(Next(s, e), through)
  {
    if e.RollNext? {
      LatestGrows(s.t.rolled, s.queue[0]);
    }
    forall d | through.Some? ==> d > through.value
      ensures Intact(Next(s, e), d)
    {
      NextKeepsIntact(s, e, d);
    }
  }

  // ---- Rolling a day again ----

  lemma {:induction false} WithoutConcat(x: seq<Row>, y: seq<Row>, d: Day)
    ensures Without(x + y, d) == Without(x, d) + Without(y, d)
  {
    if y == [] {
      assert x + y == x;
    } else {
      var front, last := y[..|y| - 1], y[|y| - 1];
      assert x + y == (x + front) + [last];
      WithoutConcat(x, front, d);
      assert (x + y)[..|x + y| - 1] == x + front;
    }
  }

  lemma {:induction false} WithoutAgain(rows: seq<Row>, d: Day)
    ensures Without(Without(rows, d), d) == Without(rows, d)
    ensures AllOn(rows, d) ==> Without(rows, d) == []
  {
    if rows != [] {
      var front, last := rows[..|rows| - 1], rows[|rows| - 1];
      WithoutAgain(front, d);
      if last.day != d {
        assert (Without(front, d) + [last])[..|Without(front, d)|] == Without(front, d);
      }
    }
  }

  /** Rolling the same day twice in a row changes nothing. */
  lemma RollDayTwice(t: Tables, d: Day)
    ensures RolledDay(RolledDay(t, d), d) == RolledDay(t, d)
  {
    var kept, own := Without(t.rollup, d), Grouped(On(SettledRows(t.logs), d));
    RolledGroup(t, d);
    calc {
      Without(RolledDay(t, d).rollup, d);
      Without(kept + own, d);
      { WithoutConcat(kept, own, d); }
      Without(kept, d) + Without(own, d);
      { WithoutAgain(t.rollup, d); WithoutAgain(own, d); }
      kept + [];
      kept;
    }
  }

  /** A purge takes all of a day's settled calls or none of them. */
  predicate WholeDay(s: State, d: Day) { Intact(s, d) || On(SettledRows(s.t.logs), d) == [] }

  lemma RecordKeepsWholeDays(s: State, log: Log, d: Day)
    requires Inv(s) && Enabled(s, Record(log)) && WholeDay(s, d)
    ensures WholeDay(Next(s, Record(log)), d)
  {
    if d == s.today {
      assert d !in s.t.rolled;
      assert Intact(s, d);
    }
    if Intact(s, d) {
      RecordKeepsIntact(s, log, d);
    } else {
      SettledAppend(s.t.logs, log);
      BetweenAppend(SettledRows(s.t.logs), Counted(log), d, d + 1);
    }
  }

  lemma PurgeKeepsWholeDays(s: State, cutoff: Day, d: Day)
    requires WholeDay(s, d) && Enabled(s, Purge(cutoff))
    ensures WholeDay(Next(s, Purge(cutoff)), d)
  {
    if d >= cutoff {
      PurgeKeepsLater(s.t.logs, cutoff, d);
    } else {
      PurgeDropsEarlier(s.t.logs, cutoff, d);
    }
  }

  lemma NextKeepsWholeDays(s: State, e: Event, d: Day)
    requires Inv(s) && Enabled(s, e) && WholeDay(s, d)
    ensures WholeDay(Next(s, e), d)
  {
    match e
    case Record(log) => RecordKeepsWholeDays(s, log, d);
    case Trace(log) => SettledAppend(s.t.logs, log);
    case Rewrite(i) => RewriteChangesNoSettled(s.t.logs, i, Next(s, e).t.logs[i]);
    case Purge(cutoff) => PurgeKeepsWholeDays(s, cutoff, d);
    case _ =>
  }

  lemma {:induction false} RunKeepsWholeDays(s: State, events: seq<Event>, d: Day)
    requires Initial(s) && Run(s, events).Some?
    ensures WholeDay(Run(s, events).value, d)
  {
    if events != [] {
      var before := events[..|events| - 1];
      RunKeeps(s, before);
      RunKeepsWholeDays(s, before, d);
      NextKeepsWholeDays(Run(s, before).value, events[|events| - 1], d);
    }
  }

  lemma SomeQuestionSeesIt(rows: seq<Row>)
    requires Counts(rows) && rows != []
    ensures exists q :: Sum(rows, q) != ZERO
  {
    var q := Question(Whole, Filter(0, None, None, "", 0, None, 0), All);
    assert Concerns(q, rows[0]);
    HitIsRequests(rows, q);
  }

  /**
    RollDay on its own, whatever the day: the day's reports stay right exactly when the day
    had no settled calls or the raw table still holds some of them.  Rolling a purged day
    would erase its reports, which is why only days without a roll-up are ever rolled.
   */
  lemma RollingIsSafeIff(s: State, events: seq<Event>, d: Day)
    requires Initial(s) && Run(s, events).Some?
    ensures var n := Run(s, events).value;
      (forall q :: Sum(On(RolledDay(n.t, d).rollup, d), q) == Sum(On(n.history, d), q))
      <==> (On(n.history, d) == [] || On(SettledRows(n.t.logs), d) != [])
  {
    var n := Run(s, events).value;
    RunKeeps(s, events);
    RunKeepsWholeDays(s, events, d);
    var raw := On(SettledRows(n.t.logs), d);
    forall q
      ensures Sum(On(RolledDay(n.t, d).rollup, d), q) == Sum(raw, q)
    {
      RollDaySums(n.t, d, d, q);
    }
    if On(n.history, d) != [] && raw == [] {
      OnIsOnDay(n.history, d);
      SomeQuestionSeesIt(On(n.history, d));
      var q :| Sum(On(n.history, d), q) != ZERO;
      assert Sum(On(RolledDay(n.t, d).rollup, d), q) == ZERO;
    }
  }
}
