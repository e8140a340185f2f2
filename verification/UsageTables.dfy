/**
  The three usage tables, the report question, and what each statement computes.  A day is
  the number of a server-local calendar day.
 */
module UsageTables {
  import opened Outcomes

  type Day = int

  datatype Status = Settled | Refunded | Failed

  /** The columns a row is grouped by, besides the day. */
  datatype Dims = Dims(userId: int, departmentId: int, projectId: int, modelName: string, channelId: int, integrationId: int, apiKeyId: int)

  datatype Sums = Sums(requests: int, prompt: int, completion: int, cacheRead: int, cacheWrite: int, charged: int, cost: int)

  const ZERO := Sums(0, 0, 0, 0, 0, 0, 0)

  function Plus(a: Sums, b: Sums): Sums {
    Sums(a.requests + b.requests, a.prompt + b.prompt, a.completion + b.completion, a.cacheRead + b.cacheRead,
         a.cacheWrite + b.cacheWrite, a.charged + b.charged, a.cost + b.cost)
  }

  /** A row of the daily table, and one call of the raw table seen as such a row. */
  datatype Row = Row(day: Day, dims: Dims, sums: Sums)

  datatype Log = Log(day: Day, dims: Dims, status: Status, tokens: Sums)

  datatype Tables = Tables(logs: seq<Log>, rollup: seq<Row>, rolled: seq<Day>)

  // ---- Report questions ----

  datatype Filter = Filter(userId: int, departmentId: Option<int>, projectId: Option<int>, modelName: string,
                           channelId: int, integrationId: Option<int>, apiKeyId: int)

  /** Whole is the scalar total of a month, which has no grouping. */
  datatype Dimension = ByUser | ByDepartment | ByProject | ByModel | ByChannel | ByDay | ByKey | Whole

  datatype GroupId = Entity(id: int) | Model(name: string) | Calendar(day: Day) | All

  datatype Question = Question(dim: Dimension, filter: Filter, group: GroupId)

  predicate Accepts(f: Filter, d: Dims) {
    && (f.userId > 0 ==> d.userId == f.userId)
    && (f.departmentId.Some? ==> d.departmentId == f.departmentId.value)
    && (f.projectId.Some? ==> d.projectId == f.projectId.value)
    && (f.modelName != "" ==> d.modelName == f.modelName)
    && (f.channelId > 0 ==> d.channelId == f.channelId)
    && (f.apiKeyId > 0 ==> d.apiKeyId == f.apiKeyId)
    && (f.integrationId.Some? ==> d.integrationId == f.integrationId.value)
  }

  function GroupOf(dim: Dimension, day: Day, d: Dims): GroupId {
    match dim
    case ByUser => Entity(d.userId)
    case ByDepartment => Entity(d.departmentId)
    case ByProject => Entity(d.projectId)
    case ByChannel => Entity(d.channelId)
    case ByKey => Entity(d.apiKeyId)
    case ByDay => Calendar(day)
    case ByModel => Model(d.modelName)
    case Whole => All
  }

  predicate Concerns(q: Question, r: Row) { Accepts(q.filter, r.dims) && GroupOf(q.dim, r.day, r.dims) == q.group }

  function Sum(rows: seq<Row>, q: Question): Sums {
    if rows == [] then ZERO
    else if Concerns(q, rows[|rows| - 1]) then Plus(Sum(rows[..|rows| - 1], q), rows[|rows| - 1].sums)
    else Sum(rows[..|rows| - 1], q)
  }

  predicate Hit(rows: seq<Row>, q: Question) { exists i :: 0 <= i < |rows| && Concerns(q, rows[i]) }

  /** The rows with a day in [from, to). */
  function Between(rows: seq<Row>, from: Day, to: Day): seq<Row> {
    if rows == [] then []
    else if from <= rows[|rows| - 1].day < to then Between(rows[..|rows| - 1], from, to) + [rows[|rows| - 1]]
    else Between(rows[..|rows| - 1], from, to)
  }

  function On(rows: seq<Row>, d: Day): seq<Row> { Between(rows, d, d + 1) }

  function Counted(log: Log): Row { Row(log.day, log.dims, log.tokens.(requests := 1)) }

  function SettledRows(logs: seq<Log>): seq<Row> {
    if logs == [] then []
    else if logs[|logs| - 1].status.Settled? then SettledRows(logs[..|logs| - 1]) + [Counted(logs[|logs| - 1])]
    else SettledRows(logs[..|logs| - 1])
  }

  // ---- Grouping, deleting, extremes ----

  function Merge(rows: seq<Row>, r: Row): seq<Row> {
    if rows == [] then [r]
    else
      var last := rows[|rows| - 1];
      if last.day == r.day && last.dims == r.dims then rows[..|rows| - 1] + [last.(sums := Plus(last.sums, r.sums))]
      else Merge(rows[..|rows| - 1], r) + [last]
  }

  function Grouped(rows: seq<Row>): seq<Row> {
    if rows == [] then [] else Merge(Grouped(rows[..|rows| - 1]), rows[|rows| - 1])
  }

  function Without(rows: seq<Row>, d: Day): seq<Row> {
    if rows == [] then []
    else if rows[|rows| - 1].day == d then Without(rows[..|rows| - 1], d)
    else Without(rows[..|rows| - 1], d) + [rows[|rows| - 1]]
  }

  function LogsFrom(logs: seq<Log>, cutoff: Day): seq<Log> {
    if logs == [] then []
    else if logs[|logs| - 1].day < cutoff then LogsFrom(logs[..|logs| - 1], cutoff)
    else LogsFrom(logs[..|logs| - 1], cutoff) + [logs[|logs| - 1]]
  }

  function Latest(rolled: seq<Day>): (m: Option<Day>)
    ensures m.None? <==> rolled == []
    ensures m.Some? ==> m.value in rolled && forall d :: d in rolled ==> d <= m.value
  {
    if rolled == [] then None
    else
      var front := Latest(rolled[..|rolled| - 1]);
      assert rolled == rolled[..|rolled| - 1] + [rolled[|rolled| - 1]];
      if front.Some? && front.value > rolled[|rolled| - 1] then front else Some(rolled[|rolled| - 1])
  }

  function Earliest(logs: seq<Log>): (m: Option<Day>)
    ensures m.None? <==> logs == []
    ensures m.Some? ==> (exists i :: 0 <= i < |logs| && logs[i].day == m.value) && forall i :: 0 <= i < |logs| ==> m.value <= logs[i].day
  {
    if logs == [] then None
    else
      var n := |logs| - 1;
      var front := Earliest(logs[..n]);
      if front.Some? && front.value < logs[n].day then
        assert exists i :: 0 <= i < n && logs[..n][i].day == front.value;
        front
      else Some(logs[n].day)
  }

  // ---- The statements on the tables ----

  function RolledDay(t: Tables, d: Day): Tables {
    Tables(t.logs, Without(t.rollup, d) + Grouped(On(SettledRows(t.logs), d)), if d in t.rolled then t.rolled else t.rolled + [d])
  }

  /** The days of [from, upTo] without a roll-up, oldest first, at most limit of them. */
  function Pending(rolled: seq<Day>, from: Day, upTo: Day, limit: nat): seq<Day>
    decreases upTo - from
  {
    if from > upTo || limit == 0 then []
    else if from in rolled then Pending(rolled, from + 1, upTo, limit)
    else [from] + Pending(rolled, from + 1, upTo, limit - 1)
  }

  function PendingDays(t: Tables, upTo: Day, limit: nat): seq<Day> {
    var e := Earliest(t.logs);
    if e.None? then [] else Pending(t.rolled, e.value, upTo, limit)
  }

  /** A purge goes through when every day from the earliest log to the cut-off has its roll-up. */
  predicate MayPurge(t: Tables, cutoff: Day) {
    var e := Earliest(t.logs);
    e.Some? && forall d :: e.value <= d < cutoff ==> d in t.rolled
  }

  function Purged(t: Tables, cutoff: Day): Tables {
    if MayPurge(t, cutoff) then t.(logs := LogsFrom(t.logs, cutoff)) else t
  }

  /** Where the daily table stops and the raw table takes over. */
  function Split(from: Day, to: Day, through: Option<Day>): Day {
    if through.None? then from else Min(Max(from, through.value + 1), to)
  }

  /** The rows a report reads: the daily table up to the split, the raw table after it. */
  function Source(t: Tables, from: Day, to: Day, through: Option<Day>): seq<Row> {
    Between(t.rollup, from, Split(from, to, through)) + Between(SettledRows(t.logs), Split(from, to, through), to)
  }

  /** A group's report row; a group no source row belongs to has none. */
  function Answer(rows: seq<Row>, q: Question): Option<Sums> {
    if Hit(rows, q) then Some(Sum(rows, q)) else None
  }

  function Report(t: Tables, through: Option<Day>, from: Day, to: Day, q: Question): Option<Sums> {
    if to <= from then None else Answer(Source(t, from, to, through), q)
  }

  // ---- How the sums behave ----

  lemma SumAppend(rows: seq<Row>, r: Row, q: Question)
    ensures Sum(rows + [r], q) == if Concerns(q, r) then Plus(Sum(rows, q), r.sums) else Sum(rows, q)
  {
    assert (rows + [r])[..|rows|] == rows;
  }

  lemma BetweenAppend(rows: seq<Row>, r: Row, a: Day, b: Day)
    ensures Between(rows + [r], a, b) == if a <= r.day < b then Between(rows, a, b) + [r] else Between(rows, a, b)
  {
    assert (rows + [r])[..|rows|] == rows;
  }

  lemma {:induction false} SumConcat(x: seq<Row>, y: seq<Row>, q: Question)
    ensures Sum(x + y, q) == Plus(Sum(x, q), Sum(y, q))
  {
    if y == [] {
      assert x + y == x;
    } else {
      var front, last := y[..|y| - 1], y[|y| - 1];
      assert x + y == (x + front) + [last];
      SumConcat(x, front, q);
      SumAppend(x + front, last, q);
    }
  }

  lemma {:induction false} BetweenConcat(x: seq<Row>, y: seq<Row>, a: Day, b: Day)
    ensures Between(x + y, a, b) == Between(x, a, b) + Between(y, a, b)
  {
    if y == [] {
      assert x + y == x;
    } else {
      var front, last := y[..|y| - 1], y[|y| - 1];
      assert x + y == (x + front) + [last];
      BetweenConcat(x, front, a, b);
      BetweenAppend(x + front, last, a, b);
    }
  }

  /** What a row adds to a span, if anything. */
  function Share(r: Row, a: Day, b: Day, q: Question): Sums { if a <= r.day < b && Concerns(q, r) then r.sums else ZERO }

  function SpanSum(rows: seq<Row>, a: Day, b: Day, q: Question): Sums {
    if rows == [] then ZERO else Plus(SpanSum(rows[..|rows| - 1], a, b, q), Share(rows[|rows| - 1], a, b, q))
  }

  lemma {:induction false} SpanSumIsSum(rows: seq<Row>, a: Day, b: Day, q: Question)
    ensures SpanSum(rows, a, b, q) == Sum(Between(rows, a, b), q)
  {
    if rows != [] {
      SpanSumIsSum(rows[..|rows| - 1], a, b, q);
      SumAppend(Between(rows[..|rows| - 1], a, b), rows[|rows| - 1], q);
    }
  }

  lemma PlusRegroups(x: Sums, y: Sums, u: Sums, v: Sums)
    ensures Plus(Plus(x, y), Plus(u, v)) == Plus(Plus(x, u), Plus(y, v))
  {
  }

  lemma ShareSplits(r: Row, a: Day, b: Day, c: Day, q: Question)
    requires a <= b <= c
    ensures Share(r, a, c, q) == Plus(Share(r, a, b, q), Share(r, b, c, q))
  {
  }

  lemma {:induction false} SpanSumSplits(rows: seq<Row>, a: Day, b: Day, c: Day, q: Question)
    requires a <= b <= c
    ensures SpanSum(rows, a, c, q) == Plus(SpanSum(rows, a, b, q), SpanSum(rows, b, c, q))
  {
    if rows != [] {
      var front, last := rows[..|rows| - 1], rows[|rows| - 1];
      calc {
        SpanSum(rows, a, c, q);
        Plus(SpanSum(front, a, c, q), Share(last, a, c, q));
        { SpanSumSplits(front, a, b, c, q); ShareSplits(last, a, b, c, q); }
        Plus(Plus(SpanSum(front, a, b, q), SpanSum(front, b, c, q)), Plus(Share(last, a, b, q), Share(last, b, c, q)));
        { PlusRegroups(SpanSum(front, a, b, q), SpanSum(front, b, c, q), Share(last, a, b, q), Share(last, b, c, q)); }
        Plus(Plus(SpanSum(front, a, b, q), Share(last, a, b, q)), Plus(SpanSum(front, b, c, q), Share(last, b, c, q)));
        Plus(SpanSum(rows, a, b, q), SpanSum(rows, b, c, q));
      }
    }
  }

  lemma SumSplits(rows: seq<Row>, a: Day, b: Day, c: Day, q: Question)
    requires a <= b <= c
    ensures Sum(Between(rows, a, c), q) == Plus(Sum(Between(rows, a, b), q), Sum(Between(rows, b, c), q))
  {
    SpanSumSplits(rows, a, b, c, q);
    SpanSumIsSum(rows, a, c, q);
    SpanSumIsSum(rows, a, b, q);
    SpanSumIsSum(rows, b, c, q);
  }

  lemma {:induction false} EmptySpan(rows: seq<Row>, a: Day, b: Day)
    requires b <= a
    ensures Between(rows, a, b) == []
  {
    if rows != [] {
      EmptySpan(rows[..|rows| - 1], a, b);
    }
  }

  /** Two tables that agree day by day agree on a span of days. */
  lemma {:induction false} AgreeByDay(x: seq<Row>, y: seq<Row>, a: Day, b: Day, q: Question)
    requires forall d :: a <= d < b ==> Sum(On(x, d), q) == Sum(On(y, d), q)
    ensures Sum(Between(x, a, b), q) == Sum(Between(y, a, b), q)
    decreases b - a
  {
    if b <= a {
      EmptySpan(x, a, b);
      EmptySpan(y, a, b);
    } else {
      AgreeByDay(x, y, a, b - 1, q);
      SumSplits(x, a, b - 1, b, q);
      SumSplits(y, a, b - 1, b, q);
      assert On(x, b - 1) == Between(x, b - 1, b) && On(y, b - 1) == Between(y, b - 1, b);
    }
  }

  lemma {:induction false} MergeAdds(rows: seq<Row>, r: Row, q: Question)
    ensures Sum(Merge(rows, r), q) == if Concerns(q, r) then Plus(Sum(rows, q), r.sums) else Sum(rows, q)
  {
    if rows != [] {
      var front, last := rows[..|rows| - 1], rows[|rows| - 1];
      if last.day == r.day && last.dims == r.dims {
        SumAppend(front, last.(sums := Plus(last.sums, r.sums)), q);
      } else {
        MergeAdds(front, r, q);
        SumAppend(Merge(front, r), last, q);
      }
    } else {
      SumAppend([], r, q);
    }
  }

  /** Grouping loses and invents nothing, whatever is asked. */
  lemma {:induction false} GroupedKeepsSums(rows: seq<Row>, q: Question)
    ensures Sum(Grouped(rows), q) == Sum(rows, q)
  {
    if rows != [] {
      GroupedKeepsSums(rows[..|rows| - 1], q);
      MergeAdds(Grouped(rows[..|rows| - 1]), rows[|rows| - 1], q);
    }
  }

  predicate AllOn(rows: seq<Row>, d: Day) { forall i :: 0 <= i < |rows| ==> rows[i].day == d }

  /** Every row stands for at least one call. */
  predicate Counts(rows: seq<Row>) { forall i :: 0 <= i < |rows| ==> rows[i].sums.requests >= 1 }

  /** The primary key of the daily table. */
  predicate UniqueKeys(rows: seq<Row>) {
    forall i, j :: 0 <= i < j < |rows| ==> rows[i].day != rows[j].day || rows[i].dims != rows[j].dims
  }

  predicate KeyIn(rows: seq<Row>, r: Row) { exists i :: 0 <= i < |rows| && rows[i].day == r.day && rows[i].dims == r.dims }

  lemma {:induction false} MergeShape(rows: seq<Row>, r: Row, d: Day)
    requires AllOn(rows, d) && r.day == d && Counts(rows) && r.sums.requests >= 1 && UniqueKeys(rows)
    ensures AllOn(Merge(rows, r), d) && Counts(Merge(rows, r)) && UniqueKeys(Merge(rows, r))
    ensures forall i :: 0 <= i < |Merge(rows, r)| ==> Merge(rows, r)[i].dims == r.dims || KeyIn(rows, Merge(rows, r)[i])
  {
    if rows != [] {
      var front, last := rows[..|rows| - 1], rows[|rows| - 1];
      if last.dims != r.dims {
        MergeShape(front, r, d);
        var m := Merge(front, r);
        forall i | 0 <= i < |m|
          ensures m[i].dims != last.dims && (m[i].dims == r.dims || KeyIn(rows, m[i]))
        {
          if m[i].dims != r.dims {
            var j :| 0 <= j < |front| && front[j].day == m[i].day && front[j].dims == m[i].dims;
            assert rows[j] == front[j];
          }
        }
      } else {
        forall i | 0 <= i < |Merge(rows, r)|
          ensures Merge(rows, r)[i].dims == r.dims || KeyIn(rows, Merge(rows, r)[i])
        {
          assert Merge(rows, r)[i].dims == rows[i].dims;
        }
      }
    }
  }

  lemma {:induction false} GroupedShape(rows: seq<Row>, d: Day)
    requires AllOn(rows, d) && Counts(rows)
    ensures AllOn(Grouped(rows), d) && Counts(Grouped(rows)) && UniqueKeys(Grouped(rows))
  {
    if rows != [] {
      GroupedShape(rows[..|rows| - 1], d);
      MergeShape(Grouped(rows[..|rows| - 1]), rows[|rows| - 1], d);
    }
  }

  lemma {:induction false} OnDay(rows: seq<Row>, d: Day, e: Day)
    requires AllOn(rows, d)
    ensures On(rows, e) == if e == d then rows else []
  {
    if rows != [] {
      OnDay(rows[..|rows| - 1], d, e);
      assert rows[..|rows| - 1] + [rows[|rows| - 1]] == rows;
    }
  }

  lemma {:induction false} OnIsOnDay(rows: seq<Row>, d: Day)
    ensures AllOn(On(rows, d), d)
    ensures Counts(rows) ==> Counts(On(rows, d))
  {
    if rows != [] {
      OnIsOnDay(rows[..|rows| - 1], d);
    }
  }

  lemma {:induction false} WithoutDay(rows: seq<Row>, d: Day, e: Day)
    ensures On(Without(rows, d), e) == if e == d then [] else On(rows, e)
  {
    if rows != [] {
      var front, last := rows[..|rows| - 1], rows[|rows| - 1];
      WithoutDay(front, d, e);
      BetweenAppend(Without(front, d), last, e, e + 1);
    }
  }

  lemma {:induction false} WithoutRows(rows: seq<Row>, d: Day)
    ensures forall r :: r in Without(rows, d) ==> r in rows && r.day != d
    ensures Counts(rows) ==> Counts(Without(rows, d))
  {
    if rows != [] {
      var front, last := rows[..|rows| - 1], rows[|rows| - 1];
      assert rows == front + [last];
      WithoutRows(front, d);
    }
  }

  lemma {:induction false} WithoutKeepsKeys(rows: seq<Row>, d: Day)
    requires UniqueKeys(rows)
    ensures UniqueKeys(Without(rows, d))
  {
    if rows != [] {
      var front, last := rows[..|rows| - 1], rows[|rows| - 1];
      WithoutKeepsKeys(front, d);
      WithoutRows(front, d);
      forall i | 0 <= i < |Without(front, d)|
        ensures Without(front, d)[i].day != last.day || Without(front, d)[i].dims != last.dims
      {
        assert Without(front, d)[i] in front;
      }
    }
  }

  lemma {:induction false} SettledCount(logs: seq<Log>)
    ensures Counts(SettledRows(logs))
  {
    if logs != [] {
      SettledCount(logs[..|logs| - 1]);
    }
  }

  /** Where every row counts, a group has a row exactly when its requests add up to something. */
  lemma {:induction false} HitIsRequests(rows: seq<Row>, q: Question)
    requires Counts(rows)
    ensures Sum(rows, q).requests >= 0
    ensures Hit(rows, q) <==> Sum(rows, q).requests > 0
  {
    if rows != [] {
      var front, last := rows[..|rows| - 1], rows[|rows| - 1];
      HitIsRequests(front, q);
      assert rows == front + [last];
      if Hit(front, q) {
        var i :| 0 <= i < |front| && Concerns(q, front[i]);
        assert Concerns(q, rows[i]);
      }
      if Hit(rows, q) && !Concerns(q, last) {
        var i :| 0 <= i < |rows| && Concerns(q, rows[i]);
        assert front[i] == rows[i];
      }
    }
  }

  lemma {:induction false} BetweenCounts(rows: seq<Row>, a: Day, b: Day)
    requires Counts(rows)
    ensures Counts(Between(rows, a, b))
  {
    if rows != [] {
      BetweenCounts(rows[..|rows| - 1], a, b);
    }
  }
}
