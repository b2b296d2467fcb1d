/**
 * The aggregator (`class QuerySummary`, sqa.rb:4-72): one running-average
 * summary per query key, seeded from the first query and updated in place
 * by every later one.
 */
module Aggregate {
  import opened Wrappers
  import opened QueryRecord
  import opened Config

  /** The value of a `QuerySummary` object. */
  datatype SummaryData = SummaryData(
    calls: int,
    averageQueryTime: real,
    averageLockTime: real,
    averageRowsSent: real,
    averageRowsExamined: real,
    sql: Option<string>)
  {
    function Average(f: Stat): real {
      match f
      case QueryTime => averageQueryTime
      case LockTime => averageLockTime
      case RowsSent => averageRowsSent
      case RowsExamined => averageRowsExamined
    }

    /** `QuerySummary#row_efficiency`, the definition at sqa.rb:57-62 that overrides the one above it. */
    function RowEfficiency(): (r: real)
      ensures averageRowsExamined > 0.0 ==> r * averageRowsExamined == averageRowsSent
      ensures averageRowsExamined <= 0.0 ==> r == 1.0
      ensures 0.0 <= averageRowsSent <= averageRowsExamined ==> 0.0 <= r <= 1.0
    {
      Efficiency(averageRowsSent, averageRowsExamined)
    }

    /** `is_valid` (sqa.rb:64-71): all six inclusive thresholds are met. */
    predicate IsValid(o: Options) {
      && calls >= o.minCalls
      && averageQueryTime >= o.minQuery
      && averageLockTime >= o.minLock
      && averageRowsSent >= o.minRowsSent
      && averageRowsExamined >= o.minRowsExamined
      && RowEfficiency() <= o.maxRowEfficiency
    }
  }

  /** Every summary of a map has been merged at least once. */
  ghost predicate AllCounted(m: map<int, SummaryData>) {
    forall k | k in m :: m[k].calls >= 1
  }

  /**
   * `adjust_average` (sqa.rb:45-47): the mean of `n` samples from the mean
   * `xbar` of the first `n - 1` and the new sample `x`.
   */
  function AdjustAverage(xbar: real, n: real, x: real): (r: real)
    requires n != 0.0
    ensures r * n == xbar * (n - 1.0) + x
  {
    xbar + (x - xbar) / n
  }

  /** `QuerySummary.new` (sqa.rb:5-12) on values. */
  function Seed(q: QueryData): (r: SummaryData)
    ensures r.calls == 1
    ensures r.sql == q.sql
    ensures forall f :: r.Average(f) == q.Field(f)
  {
    SummaryData(1, q.meta.queryTime, q.meta.lockTime, q.meta.rowsSent as real, q.meta.rowsExamined as real, q.sql)
  }

  /**
   * `add_query` (sqa.rb:49-55) on values: one more call, and every average
   * moved so that average times calls grows by exactly the new sample.
   */
  function Merge(s: SummaryData, q: QueryData): (r: SummaryData)
    requires s.calls >= 1
    ensures r.calls == s.calls + 1
    ensures r.sql == s.sql
    ensures forall f :: r.Average(f) * (r.calls as real) == s.Average(f) * (s.calls as real) + q.Field(f)
  {
    var n := s.calls + 1;
    SummaryData(
      n,
      AdjustAverage(s.averageQueryTime, n as real, q.meta.queryTime),
      AdjustAverage(s.averageLockTime, n as real, q.meta.lockTime),
      AdjustAverage(s.averageRowsSent, n as real, q.meta.rowsSent as real),
      AdjustAverage(s.averageRowsExamined, n as real, q.meta.rowsExamined as real),
      s.sql)
  }

  /** The summary a sequence of queries produces: seeded by the first, merged with each later one. */
  function MergeAll(qs: seq<QueryData>): (r: SummaryData)
    requires qs != []
    ensures r.calls == |qs|
    ensures r.sql == qs[0].sql
    decreases |qs|
  {
    if |qs| == 1 then Seed(qs[0]) else Merge(MergeAll(qs[..|qs| - 1]), qs[|qs| - 1])
  }

  /** The sum of one statistic over a sequence of queries. */
  function SumOf(qs: seq<QueryData>, f: Stat): real
    decreases |qs|
  {
    if qs == [] then 0.0 else SumOf(qs[..|qs| - 1], f) + qs[|qs| - 1].Field(f)
  }

  /** The arithmetic mean of one statistic over a non-empty sequence of queries. */
  function Mean(qs: seq<QueryData>, f: Stat): real
    requires qs != []
  {
    SumOf(qs, f) / (|qs| as real)
  }

  /** Folding one more sample into the mean of `n` samples gives the mean of `n + 1` samples. */
  lemma AdjustAverageOfMean(total: real, n: real, x: real)
    requires n > 0.0
    ensures AdjustAverage(total / n, n + 1.0, x) == (total + x) / (n + 1.0)
  {
    var r := AdjustAverage(total / n, n + 1.0, x);
    assert r * (n + 1.0) == (total / n) * n + x;
    assert (total / n) * n == total;
  }

  /** All four averages of `add_query` are moved with the same, already incremented, count. */
  lemma MergeAverage(s: SummaryData, q: QueryData, f: Stat)
    requires s.calls >= 1
    ensures Merge(s, q).Average(f) == AdjustAverage(s.Average(f), (s.calls + 1) as real, q.Field(f))
  {
  }

  /** The running average equals the true arithmetic mean of every merged sample. */
  lemma {:induction false} MergeAllIsMean(qs: seq<QueryData>, f: Stat)
    requires qs != []
    ensures MergeAll(qs).Average(f) == Mean(qs, f)
    decreases |qs|
  {
    var init := qs[..|qs| - 1];
    var last := qs[|qs| - 1];
    assert SumOf(qs, f) == SumOf(init, f) + last.Field(f);
    if |qs| == 1 {
      assert SumOf(init, f) == 0.0;
    } else {
      var n := |init| as real;
      MergeAllIsMean(init, f);
      var s := MergeAll(init);
      MergeAverage(s, last, f);
      assert (s.calls + 1) as real == n + 1.0 == |qs| as real;
      AdjustAverageOfMean(SumOf(init, f), n, last.Field(f));
    }
  }

  /** Taking out the element at `j` takes its statistic out of the sum. */
  lemma {:induction false} SumOfRemove(qs: seq<QueryData>, j: nat, f: Stat)
    requires j < |qs|
    ensures SumOf(qs, f) == SumOf(qs[..j] + qs[j + 1..], f) + qs[j].Field(f)
    decreases |qs|
  {
    var rest := qs[..j] + qs[j + 1..];
    if j < |qs| - 1 {
      var init := qs[..|qs| - 1];
      SumOfRemove(init, j, f);
      assert rest[..|rest| - 1] == init[..j] + init[j + 1..];
      assert rest[|rest| - 1] == qs[|qs| - 1];
    } else {
      assert rest == qs[..|qs| - 1];
    }
  }

  lemma MultisetRemoveAt(qs: seq<QueryData>, j: nat)
    requires j < |qs|
    ensures multiset(qs[..j] + qs[j + 1..]) == multiset(qs) - multiset{qs[j]}
  {
    assert qs == qs[..j] + [qs[j]] + qs[j + 1..];
  }

  lemma MultisetRemoveLast(qs: seq<QueryData>)
    requires qs != []
    ensures multiset(qs[..|qs| - 1]) == multiset(qs) - multiset{qs[|qs| - 1]}
  {
    assert qs == qs[..|qs| - 1] + [qs[|qs| - 1]];
  }

  /** The sum of a statistic does not depend on the order of the queries. */
  lemma {:induction false} SumOfPermutation(a: seq<QueryData>, b: seq<QueryData>, f: Stat)
    requires multiset(a) == multiset(b)
    ensures SumOf(a, f) == SumOf(b, f)
    decreases |a|
  {
    if a == [] {
      assert |b| == |multiset(b)| == 0;
    } else {
      var x := a[|a| - 1];
      var init := a[..|a| - 1];
      MultisetRemoveLast(a);
      assert x in multiset(b);
      var j :| 0 <= j < |b| && b[j] == x;
      var rest := b[..j] + b[j + 1..];
      MultisetRemoveAt(b, j);
      assert multiset(init) == multiset(rest);
      SumOfPermutation(init, rest, f);
      SumOfRemove(b, j, f);
      assert SumOf(a, f) == SumOf(init, f) + x.Field(f);
    }
  }

  /**
   * Merge order does not matter: the same queries in any order give the same
   * call count and the same four averages.
   */
  lemma MergeOrderIndependent(a: seq<QueryData>, b: seq<QueryData>)
    requires a != [] && multiset(a) == multiset(b)
    ensures b != []
    ensures MergeAll(a).calls == MergeAll(b).calls
    ensures forall f :: MergeAll(a).Average(f) == MergeAll(b).Average(f)
  {
    assert |a| == |multiset(a)| == |multiset(b)| == |b|;
    forall f ensures MergeAll(a).Average(f) == MergeAll(b).Average(f) {
      MergeAllIsMean(a, f);
      MergeAllIsMean(b, f);
      SumOfPermutation(a, b, f);
    }
  }

  /**
   * The merge step of `processLine` (sqa.rb:138-144): the query lands under
   * `key`, as a fresh summary or as one more call of the summary already
   * there, and every other entry is left alone.
   */
  function MergeAt(m: map<int, SummaryData>, key: int, q: QueryData): (r: map<int, SummaryData>)
    requires AllCounted(m)
    ensures AllCounted(r)
    ensures r.Keys == m.Keys + {key}
    ensures forall k | k in m && k != key :: r[k] == m[k]
    ensures r[key] == if key in m then Merge(m[key], q) else Seed(q)
    ensures r[key].calls == (if key in m then m[key].calls else 0) + 1
    ensures r[key].sql == (if key in m then m[key].sql else q.sql)
  {
    if key in m then m[key := Merge(m[key], q)] else m[key := Seed(q)]
  }

  /** Raising a minimum or lowering the efficiency ceiling never admits a summary that was refused. */
  lemma IsValidMonotone(s: SummaryData, stricter: Options, looser: Options)
    requires AtLeastAsStrict(stricter, looser)
    ensures s.IsValid(stricter) ==> s.IsValid(looser)
  {
  }

  /**
   * Under the default options a summary is reported exactly when it has a
   * call, no average is negative, and, when it examines any rows at all, it
   * does not send more rows than it examines on average (with no rows
   * examined, `row_efficiency` is 1.0 and passes whatever was sent).
   */
  lemma DefaultsAdmit(s: SummaryData)
    ensures s.IsValid(DEFAULTS) <==>
      && s.calls >= 1
      && s.averageQueryTime >= 0.0
      && s.averageLockTime >= 0.0
      && s.averageRowsSent >= 0.0
      && s.averageRowsExamined >= 0.0
      && (s.averageRowsExamined > 0.0 ==> s.averageRowsSent <= s.averageRowsExamined)
  {
    var e := s.RowEfficiency();
    if s.averageRowsExamined > 0.0 {
      assert e <= 1.0 <==> e * s.averageRowsExamined <= s.averageRowsExamined;
    }
  }

  /** `class QuerySummary`: the call count and four averages change in place, the SQL text never does. */
  class QuerySummary {
    var calls: int
    var averageQueryTime: real
    var averageLockTime: real
    var averageRowsSent: real
    var averageRowsExamined: real
    const sql: Option<string>

    function Data(): SummaryData
      reads this
    {
      SummaryData(calls, averageQueryTime, averageLockTime, averageRowsSent, averageRowsExamined, sql)
    }

    /** `QuerySummary.new` (sqa.rb:5-12): one call, averages equal to the query's numbers. */
    constructor (q: Query)
      ensures Data() == Seed(q.Data())
    {
      calls := 1;
      averageQueryTime := q.queryTime;
      averageLockTime := q.lockTime;
      averageRowsSent := q.rowsSent as real;
      averageRowsExamined := q.rowsExamined as real;
      sql := q.sql;
    }

    /** `add_query` (sqa.rb:49-55): the count goes up first, then each average uses the new count. */
    method AddQuery(q: Query)
      requires calls >= 1
      modifies this
      ensures Data() == Merge(old(Data()), q.Data())
    {
      calls := calls + 1;
      averageQueryTime := AdjustAverage(averageQueryTime, calls as real, q.queryTime);
      averageLockTime := AdjustAverage(averageLockTime, calls as real, q.lockTime);
      averageRowsSent := AdjustAverage(averageRowsSent, calls as real, q.rowsSent as real);
      averageRowsExamined := AdjustAverage(averageRowsExamined, calls as real, q.rowsExamined as real);
    }
  }
}
