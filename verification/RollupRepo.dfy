/** The repository behind the reports and the two maintenance tasks that drive it. */
module RollupRepo {
  import opened Outcomes
  import opened UsageTables

  /** A round of the scheduler rolls at most this many days. */
  const MAX_ROLLUP_DAYS_PER_RUN: nat := 30

  predicate Increasing(days: seq<Day>) { forall i, j :: 0 <= i < j < |days| ==> days[i] < days[j] }

  /** The first limit days of a span without a roll-up, in order. */
  predicate FirstUnrolled(p: seq<Day>, rolled: seq<Day>, from: Day, upTo: Day, limit: nat) {
    && Increasing(p) && |p| <= limit
    && (forall i :: 0 <= i < |p| ==> from <= p[i] <= upTo && p[i] !in rolled)
    && (forall d :: from <= d <= upTo && d !in rolled && d !in p ==> |p| == limit && forall i :: 0 <= i < |p| ==> p[i] < d)
  }

  lemma OneMoreIncreases(rest: seq<Day>, from: Day)
    requires Increasing(rest) && forall i :: 0 <= i < |rest| ==> from < rest[i]
    ensures Increasing([from] + rest)
  {
    var p := [from] + rest;
    assert forall i :: 0 < i < |p| ==> p[i] == rest[i - 1];
  }

  lemma OneMoreUnrolled(rest: seq<Day>, rolled: seq<Day>, from: Day, upTo: Day, limit: nat)
    requires FirstUnrolled(rest, rolled, from + 1, upTo, limit) && from <= upTo && from !in rolled
    ensures FirstUnrolled([from] + rest, rolled, from, upTo, limit + 1)
  {
    var p := [from] + rest;
    OneMoreIncreases(rest, from);
    assert forall i :: 0 < i < |p| ==> p[i] == rest[i - 1];
    forall d | from <= d <= upTo && d !in rolled && d !in p
      ensures |p| == limit + 1 && forall i :: 0 <= i < |p| ==> p[i] < d
    {
      assert d != p[0] && d !in rest;
    }
  }

  lemma RolledIsPassed(rest: seq<Day>, rolled: seq<Day>, from: Day, upTo: Day, limit: nat)
    requires FirstUnrolled(rest, rolled, from + 1, upTo, limit) && from in rolled
    ensures FirstUnrolled(rest, rolled, from, upTo, limit)
  {
  }

  lemma NothingPending(rolled: seq<Day>, from: Day, upTo: Day, limit: nat)
    requires from > upTo || limit == 0
    ensures FirstUnrolled([], rolled, from, upTo, limit)
  {
  }

  /** Pending lists exactly those. */
  lemma {:induction false} PendingMeaning(rolled: seq<Day>, from: Day, upTo: Day, limit: nat)
    ensures FirstUnrolled(Pending(rolled, from, upTo, limit), rolled, from, upTo, limit)
    decreases upTo - from
  {
    if from > upTo || limit == 0 {
      NothingPending(rolled, from, upTo, limit);
    } else if from in rolled {
      PendingMeaning(rolled, from + 1, upTo, limit);
      RolledIsPassed(Pending(rolled, from + 1, upTo, limit), rolled, from, upTo, limit);
    } else {
      PendingMeaning(rolled, from + 1, upTo, limit - 1);
      OneMoreUnrolled(Pending(rolled, from + 1, upTo, limit - 1), rolled, from, upTo, limit - 1);
    }
  }

  function RollAll(t: Tables, days: seq<Day>): Tables {
    if days == [] then t else RolledDay(RollAll(t, days[..|days| - 1]), days[|days| - 1])
  }

  lemma RollAllNext(t: Tables, days: seq<Day>, i: nat)
    requires i < |days|
    ensures RollAll(t, days[..i + 1]) == RolledDay(RollAll(t, days[..i]), days[i])
  {
    assert days[..i + 1][..i] == days[..i];
  }

  class Repo {
    var logs: seq<Log>
    var rollup: seq<Row>
    var rolled: seq<Day>

    constructor ()
      ensures Current() == Tables([], [], [])
    {
      logs, rollup, rolled := [], [], [];
    }

    function Current(): Tables reads this { Tables(logs, rollup, rolled) }

    /** One transaction: delete the day's rows, insert its groups, mark the day as rolled. */
    method RollDay(day: Day) returns (rows: nat)
      modifies this
      ensures Current() == RolledDay(old(Current()), day)
      ensures rows == |Grouped(On(SettledRows(old(logs)), day))|
    {
      rollup := Without(rollup, day);
      var inserted := Grouped(On(SettledRows(logs), day));
      rollup := rollup + inserted;
      rows := |inserted|;
      if day !in rolled {
        rolled := rolled + [day];
      }
    }

    method PendingDays(upTo: Day, limit: nat) returns (pending: seq<Day>)
      ensures pending == UsageTables.PendingDays(Current(), upTo, limit)
    {
      pending := [];
      var earliest := Earliest(logs);
      if earliest.None? {
        return;
      }
      var d := earliest.value;
      while d <= upTo && |pending| < limit
        invariant |pending| <= limit
        invariant pending + Pending(rolled, d, upTo, limit - |pending|) == Pending(rolled, earliest.value, upTo, limit)
        decreases upTo - d
      {
        ghost var rest := Pending(rolled, d + 1, upTo, limit - |pending| - if d in rolled then 0 else 1);
        if d !in rolled {
          assert pending + ([d] + rest) == (pending + [d]) + rest;
          pending := pending + [d];
        }
        d := d + 1;
      }
    }

    /** Nothing is deleted unless every day of the range is rolled up. */
    method PurgeUsageLogsBefore(cutoff: Day) returns (deleted: Option<nat>)
      modifies this
      ensures Current() == Purged(old(Current()), cutoff)
      ensures deleted.None? <==> old(logs) != [] && !MayPurge(old(Current()), cutoff)
      ensures deleted.Some? ==> deleted.value == |old(logs)| - |logs|
    {
      var earliest := Earliest(logs);
      if earliest.None? {
        return Some(0);
      }
      var d := earliest.value;
      while d < cutoff
        invariant earliest.value <= d && forall e :: earliest.value <= e < d ==> e in rolled
        decreases cutoff - d
      {
        if d !in rolled {
          return None;
        }
        d := d + 1;
      }
      var kept := LogsFrom(logs, cutoff);
      LogsFromShrinks(logs, cutoff);
      deleted := Some(|logs| - |kept|);
      logs := kept;
    }

    /** The report for one group, reading the watermark first. */
    method Aggregate(from: Day, to: Day, q: Question) returns (answer: Option<Sums>)
      ensures answer == Report(Current(), Latest(rolled), from, to, q)
    {
      if to <= from {
        return None;
      }
      var through := Latest(rolled);
      var rollupTo := from;
      if through.Some? {
        if through.value + 1 > from {
          rollupTo := through.value + 1;
        }
        if rollupTo > to {
          rollupTo := to;
        }
      }
      answer := Answer(Between(rollup, from, rollupTo) + Between(SettledRows(logs), rollupTo, to), q);
    }
  }

  lemma {:induction false} LogsFromShrinks(logs: seq<Log>, cutoff: Day)
    ensures |LogsFrom(logs, cutoff)| <= |logs|
  {
    if logs != [] {
      LogsFromShrinks(logs[..|logs| - 1], cutoff);
    }
  }

  class Scheduler {
    const repo: Repo

    constructor (repo: Repo)
      ensures this.repo == repo
    {
      this.repo := repo;
    }

    method RollOne(ghost before: Tables, days: seq<Day>, i: nat)
      requires i < |days| && repo.Current() == RollAll(before, days[..i])
      modifies repo
      ensures repo.Current() == RollAll(before, days[..i + 1])
    {
      RollAllNext(before, days, i);
      var rows := repo.RollDay(days[i]);
    }

    method RollDays(days: seq<Day>, fails: set<Day>) returns (done: seq<Day>)
      modifies repo
      ensures done <= days && repo.Current() == RollAll(old(repo.Current()), done)
      ensures (forall i :: 0 <= i < |done| ==> days[i] !in fails) && (|done| < |days| ==> days[|done|] in fails)
    {
      done := [];
      ghost var before := repo.Current();
      for i := 0 to |days|
        invariant done == days[..i] && repo.Current() == RollAll(before, days[..i])
        invariant forall j :: 0 <= j < i ==> days[j] !in fails
      {
        if days[i] in fails {
          return;
        }
        RollOne(before, days, i);
        done := days[..i + 1];
      }
    }

    /** Rolls the pending days up to yesterday in order, and stops at the first day whose roll-up fails. */
    method RollupUsage(enabled: bool, today: Day, fails: set<Day>) returns (done: seq<Day>)
      modifies repo
      ensures !enabled ==> done == []
      ensures enabled ==>
        var days := UsageTables.PendingDays(old(repo.Current()), today - 1, MAX_ROLLUP_DAYS_PER_RUN);
        && done <= days && (forall i :: 0 <= i < |done| ==> days[i] !in fails) && (|done| < |days| ==> days[|done|] in fails)
      ensures repo.Current() == RollAll(old(repo.Current()), done)
    {
      done := [];
      if !enabled {
        return;
      }
      var days := repo.PendingDays(today - 1, MAX_ROLLUP_DAYS_PER_RUN);
      done := RollDays(days, fails);
    }

    /** A refused purge is skipped, not reported. */
    method PurgeUsageLogs(today: Day, retentionDays: int)
      modifies repo
      ensures repo.Current() == if retentionDays <= 0 then old(repo.Current()) else Purged(old(repo.Current()), today - retentionDays)
    {
      if retentionDays <= 0 {
        return;
      }
      var deleted := repo.PurgeUsageLogsBefore(today - retentionDays);
    }
  }
}
