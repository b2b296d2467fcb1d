/**
 * The configuration that option parsing hands to the core: report size,
 * the six selection thresholds and the sort order (sqa.rb:170-178).
 */
module Config {
  import opened QueryRecord

  /** The attribute `sortSummaries` compares, as a closed enumeration instead of a method name. */
  datatype SortKey = ByCalls | ByAverage(stat: Stat) | ByRowEfficiency

  datatype Options = Options(
    count: int,
    minCalls: int,
    minQuery: real,
    minLock: real,
    minRowsSent: real,
    minRowsExamined: real,
    maxRowEfficiency: real,
    sort: SortKey,
    ascending: bool)

  /** The values the options start from before any flag is read. */
  const DEFAULTS: Options := Options(10, 1, 0.0, 0.0, 0.0, 0.0, 1.0, ByCalls, false)

  /** Every threshold of `a` is at least as demanding as the same threshold of `b`. */
  predicate AtLeastAsStrict(a: Options, b: Options) {
    && a.minCalls >= b.minCalls
    && a.minQuery >= b.minQuery
    && a.minLock >= b.minLock
    && a.minRowsSent >= b.minRowsSent
    && a.minRowsExamined >= b.minRowsExamined
    && a.maxRowEfficiency <= b.maxRowEfficiency
  }
}
