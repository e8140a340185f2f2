/** What a report counts: which calls a filter lets through, which group a call falls into, and what it adds. */
module ReportFields {
  import opened Outcomes
  import opened UsageTables
  import opened RollupRepo
  import opened Retention

  /** The rows that satisfy a condition, in order. */
  function Keep(rows: seq<Row>, wanted: Row -> bool): seq<Row> {
    if rows == [] then []
    else if wanted(rows[|rows| - 1]) then Keep(rows[..|rows| - 1], wanted) + [rows[|rows| - 1]]
    else Keep(rows[..|rows| - 1], wanted)
  }

  lemma HitAppend(rows: seq<Row>, r: Row, q: Question)
    ensures Hit(rows + [r], q) <==> Hit(rows, q) || Concerns(q, r)
  {
    var all := rows + [r];
    if Hit(rows, q) {
      var i :| 0 <= i < |rows| && Concerns(q, rows[i]);
      assert Concerns(q, all[i]);
    }
    if Concerns(q, r) {
      assert Concerns(q, all[|rows|]);
    }
  }

  /** A question that asks for one thing more is the looser question about the rows that have it. */
  lemma {:induction false} AskedOfKept(rows: seq<Row>, q: Question, loose: Question, wanted: Row -> bool)
    requires forall i :: 0 <= i < |rows| ==> (Concerns(q, rows[i]) <==> wanted(rows[i]) && Concerns(loose, rows[i]))
    ensures Sum(rows, q) == Sum(Keep(rows, wanted), loose) && (Hit(rows, q) <==> Hit(Keep(rows, wanted), loose))
    ensures Answer(rows, q) == Answer(Keep(rows, wanted), loose)
  {
    if rows != [] {
      var front, last := rows[..|rows| - 1], rows[|rows| - 1];
      assert forall i :: 0 <= i < |front| ==> front[i] == rows[i];
      AskedOfKept(front, q, loose, wanted);
      assert rows == front + [last];
      HitAppend(front, last, q);
      if wanted(last) {
        SumAppend(Keep(front, wanted), last, loose);
        HitAppend(Keep(front, wanted), last, loose);
      }
    }
  }

  // ---- One filter at a time ----

  lemma UserFilter(rows: seq<Row>, q: Question, user: int)
    requires user > 0
    ensures Answer(rows, q.(filter := q.filter.(userId := user)))
      == Answer(Keep(rows, (row: Row) => row.dims.userId == user), q.(filter := q.filter.(userId := 0)))
  {
    AskedOfKept(rows, q.(filter := q.filter.(userId := user)), q.(filter := q.filter.(userId := 0)), (row: Row) => row.dims.userId == user);
  }

  lemma DepartmentFilter(rows: seq<Row>, q: Question, department: int)
    ensures Answer(rows, q.(filter := q.filter.(departmentId := Some(department))))
      == Answer(Keep(rows, (row: Row) => row.dims.departmentId == department), q.(filter := q.filter.(departmentId := None)))
  {
    AskedOfKept(rows, q.(filter := q.filter.(departmentId := Some(department))), q.(filter := q.filter.(departmentId := None)),
                (row: Row) => row.dims.departmentId == department);
  }

  lemma ProjectFilter(rows: seq<Row>, q: Question, project: int)
    ensures Answer(rows, q.(filter := q.filter.(projectId := Some(project))))
      == Answer(Keep(rows, (row: Row) => row.dims.projectId == project), q.(filter := q.filter.(projectId := None)))
  {
    AskedOfKept(rows, q.(filter := q.filter.(projectId := Some(project))), q.(filter := q.filter.(projectId := None)),
                (row: Row) => row.dims.projectId == project);
  }

  lemma ModelFilter(rows: seq<Row>, q: Question, model: string)
    requires model != ""
    ensures Answer(rows, q.(filter := q.filter.(modelName := model)))
      == Answer(Keep(rows, (row: Row) => row.dims.modelName == model), q.(filter := q.filter.(modelName := "")))
  {
    AskedOfKept(rows, q.(filter := q.filter.(modelName := model)), q.(filter := q.filter.(modelName := "")), (row: Row) => row.dims.modelName == model);
  }

  lemma ChannelFilter(rows: seq<Row>, q: Question, channel: int)
    requires channel > 0
    ensures Answer(rows, q.(filter := q.filter.(channelId := channel)))
      == Answer(Keep(rows, (row: Row) => row.dims.channelId == channel), q.(filter := q.filter.(channelId := 0)))
  {
    AskedOfKept(rows, q.(filter := q.filter.(channelId := channel)), q.(filter := q.filter.(channelId := 0)), (row: Row) => row.dims.channelId == channel);
  }

  lemma KeyFilter(rows: seq<Row>, q: Question, key: int)
    requires key > 0
    ensures Answer(rows, q.(filter := q.filter.(apiKeyId := key)))
      == Answer(Keep(rows, (row: Row) => row.dims.apiKeyId == key), q.(filter := q.filter.(apiKeyId := 0)))
  {
    AskedOfKept(rows, q.(filter := q.filter.(apiKeyId := key)), q.(filter := q.filter.(apiKeyId := 0)), (row: Row) => row.dims.apiKeyId == key);
  }

  lemma IntegrationFilter(rows: seq<Row>, q: Question, integration: int)
    ensures Answer(rows, q.(filter := q.filter.(integrationId := Some(integration))))
      == Answer(Keep(rows, (row: Row) => row.dims.integrationId == integration), q.(filter := q.filter.(integrationId := None)))
  {
    AskedOfKept(rows, q.(filter := q.filter.(integrationId := Some(integration))), q.(filter := q.filter.(integrationId := None)),
                (row: Row) => row.dims.integrationId == integration);
  }

  lemma {:induction false} SameQuestion(rows: seq<Row>, q: Question, q': Question)
    requires forall i :: 0 <= i < |rows| ==> (Concerns(q, rows[i]) <==> Concerns(q', rows[i]))
    ensures Sum(rows, q) == Sum(rows, q') && Answer(rows, q) == Answer(rows, q')
  {
    if rows != [] {
      var front, last := rows[..|rows| - 1], rows[|rows| - 1];
      assert forall i :: 0 <= i < |front| ==> front[i] == rows[i];
      SameQuestion(front, q, q');
      assert rows == front + [last];
      HitAppend(front, last, q);
      HitAppend(front, last, q');
    }
  }

  /** An id of zero or less asks for nothing in particular. */
  lemma NoSuchFilter(rows: seq<Row>, q: Question, id: int)
    requires id <= 0
    ensures Answer(rows, q.(filter := q.filter.(userId := id))) == Answer(rows, q.(filter := q.filter.(userId := 0)))
    ensures Answer(rows, q.(filter := q.filter.(channelId := id))) == Answer(rows, q.(filter := q.filter.(channelId := 0)))
    ensures Answer(rows, q.(filter := q.filter.(apiKeyId := id))) == Answer(rows, q.(filter := q.filter.(apiKeyId := 0)))
  {
    SameQuestion(rows, q.(filter := q.filter.(userId := id)), q.(filter := q.filter.(userId := 0)));
    SameQuestion(rows, q.(filter := q.filter.(channelId := id)), q.(filter := q.filter.(channelId := 0)));
    SameQuestion(rows, q.(filter := q.filter.(apiKeyId := id)), q.(filter := q.filter.(apiKeyId := 0)));
  }

  // ---- The group of a call, and what it adds ----

  /** Nothing is filtered. */
  const EVERYTHING := Filter(0, None, None, "", 0, None, 0)

  /** A call's own group in each dimension. */
  predicate OwnGroup(log: Log, dim: Dimension, g: GroupId) {
    match dim
    case ByUser => g == Entity(log.dims.userId)
    case ByDepartment => g == Entity(log.dims.departmentId)
    case ByProject => g == Entity(log.dims.projectId)
    case ByModel => g == Model(log.dims.modelName)
    case ByChannel => g == Entity(log.dims.channelId)
    case ByDay => g == Calendar(log.day)
    case ByKey => g == Entity(log.dims.apiKeyId)
    case Whole => g == All
  }

  /** Two sums that differ by one call and its own numbers. */
  predicate OneCallMore(before: Sums, after: Sums, log: Log) {
    && after.requests == before.requests + 1
    && after.prompt == before.prompt + log.tokens.prompt
    && after.completion == before.completion + log.tokens.completion
    && after.cacheRead == before.cacheRead + log.tokens.cacheRead
    && after.cacheWrite == before.cacheWrite + log.tokens.cacheWrite
    && after.charged == before.charged + log.tokens.charged
    && after.cost == before.cost + log.tokens.cost
  }

  /** With no filter, a settled call adds to exactly the group its own column names, and to that group its own numbers. */
  lemma CallAddsToItsGroup(rows: seq<Row>, log: Log, dim: Dimension, g: GroupId)
    ensures var q := Question(dim, EVERYTHING, g);
      if OwnGroup(log, dim, g)
      then OneCallMore(Sum(rows, q), Sum(rows + [Counted(log)], q), log) && Hit(rows + [Counted(log)], q)
      else Answer(rows + [Counted(log)], q) == Answer(rows, q)
  {
    SumAppend(rows, Counted(log), Question(dim, EVERYTHING, g));
    HitAppend(rows, Counted(log), Question(dim, EVERYTHING, g));
  }

  /** Only settled calls are counted, each once. */
  lemma OnlySettledCount(logs: seq<Log>, log: Log)
    ensures SettledRows(logs + [log]) == if log.status == Settled then SettledRows(logs) + [Counted(log)] else SettledRows(logs)
    ensures Counted(log).day == log.day && Counted(log).dims == log.dims
  {
    assert (logs + [log])[..|logs|] == logs;
  }

  /**
    Recording a call, in any reachable state, however much of the past is rolled up or purged: every
    unfiltered report whose span holds the day, for the call's own group, gains exactly its numbers;
    every other report stays as it was.
   */
  lemma RecordedCallIsReported(s: State, events: seq<Event>, log: Log, from: Day, to: Day, dim: Dimension, g: GroupId)
    requires Initial(s) && Run(s, events).Some? && Enabled(Run(s, events).value, Record(log))
    ensures var n, q := Run(s, events).value, Question(dim, EVERYTHING, g);
      var n' := Next(n, Record(log));
      var before, after := Report(n.t, Latest(n.t.rolled), from, to, q), Report(n'.t, Latest(n'.t.rolled), from, to, q);
      if log.status == Settled && from <= log.day && log.day < to && OwnGroup(log, dim, g)
      then after.Some? && OneCallMore(if before.Some? then before.value else Sums(0, 0, 0, 0, 0, 0, 0), after.value, log)
      else after == before
  {
    var n, q := Run(s, events).value, Question(dim, EVERYTHING, g);
    ReportsNeverChange(s, events, from, to, q);
    RunAppend(s, events, Record(log));
    ReportsNeverChange(s, events + [Record(log)], from, to, q);
    BetweenAppend(n.history, Counted(log), from, to);
    var span := Between(n.history, from, to);
    CallAddsToItsGroup(span, log, dim, g);
    if !Hit(span, q) {
      NoHitNoSum(span, q);
    }
  }

  lemma {:induction false} NoHitNoSum(rows: seq<Row>, q: Question)
    requires !Hit(rows, q)
    ensures Sum(rows, q) == ZERO
  {
    if rows != [] {
      var front, last := rows[..|rows| - 1], rows[|rows| - 1];
      assert rows == front + [last];
      HitAppend(front, last, q);
      NoHitNoSum(front, q);
    }
  }

  lemma HitIff(rows: seq<Row>, q: Question)
    ensures Hit(rows, q) <==> exists r :: r in rows && Concerns(q, r)
  {
  }

  /** A group has a row in an unfiltered report exactly when one of its calls was settled in the span. */
  lemma ReportedIff(s: State, events: seq<Event>, from: Day, to: Day, dim: Dimension, g: GroupId)
    requires Initial(s) && Run(s, events).Some?
    ensures var n := Run(s, events).value;
      Report(n.t, Latest(n.t.rolled), from, to, Question(dim, EVERYTHING, g)).Some? <==>
        exists r :: r in n.history && from <= r.day < to && GroupOf(dim, r.day, r.dims) == g
  {
    var n, q := Run(s, events).value, Question(dim, EVERYTHING, g);
    ReportsNeverChange(s, events, from, to, q);
    HitIff(Between(n.history, from, to), q);
    forall r
      ensures r in Between(n.history, from, to) <==> r in n.history && from <= r.day < to
    {
      InSpan(n.history, from, to, r);
    }
  }

  // ---- What a purge deletes ----

  /** Every day from the earliest log up to the cutoff is rolled up. */
  ghost predicate AllRolled(t: Tables, cutoff: Day) {
    forall d, i :: 0 <= i < |t.logs| && t.logs[i].day <= d < cutoff ==> d in t.rolled
  }

  lemma {:induction false} LogsFromKeeps(logs: seq<Log>, cutoff: Day, log: Log)
    ensures multiset(LogsFrom(logs, cutoff))[log] == if log.day >= cutoff then multiset(logs)[log] else 0
  {
    if logs != [] {
      LogsFromKeeps(logs[..|logs| - 1], cutoff, log);
      assert logs == logs[..|logs| - 1] + [logs[|logs| - 1]];
    }
  }

  lemma MayPurgeIff(t: Tables, cutoff: Day)
    requires t.logs != []
    ensures MayPurge(t, cutoff) <==> AllRolled(t, cutoff)
  {
    var e := Earliest(t.logs).value;
    var i :| 0 <= i < |t.logs| && t.logs[i].day == e;
    assert AllRolled(t, cutoff) ==> forall d :: t.logs[i].day <= d < cutoff ==> d in t.rolled;
  }

  /** A purge deletes exactly the logs before the cutoff, or nothing while one of those days is not rolled up; aggregates stay. */
  lemma PurgeIff(t: Tables, cutoff: Day, log: Log)
    ensures var n := Purged(t, cutoff);
      && n.rollup == t.rollup && n.rolled == t.rolled
      && (!AllRolled(t, cutoff) ==> n.logs == t.logs)
      && (AllRolled(t, cutoff) ==> multiset(n.logs)[log] == if log.day >= cutoff then multiset(t.logs)[log] else 0)
  {
    LogsFromKeeps(t.logs, cutoff, log);
    if t.logs != [] {
      MayPurgeIff(t, cutoff);
    }
  }
}
