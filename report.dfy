/**
 * Selection, ranking and truncation (sqa.rb:158-160, 258-274): keep the
 * summaries that pass `is_valid`, sort them by the chosen attribute,
 * reverse them unless ascending order was asked for, and report the first
 * `count` of them.
 */
module Report {
  import opened Wrappers
  import opened QueryRecord
  import opened Config
  import opened Aggregate
  import opened LineMachine

  function Min(a: int, b: int): int { if a < b then a else b }
  function Max(a: int, b: int): int { if a < b then b else a }

  /** `summary.send(method)`: the attribute a summary is ranked by. */
  function Key(s: SummaryData, k: SortKey): real {
    match k
    case ByCalls => s.calls as real
    case ByAverage(f) => s.Average(f)
    case ByRowEfficiency => s.RowEfficiency()
  }

  ghost predicate Ascending(xs: seq<SummaryData>, k: SortKey) {
    forall i, j | 0 <= i < j < |xs| :: Key(xs[i], k) <= Key(xs[j], k)
  }

  ghost predicate Descending(xs: seq<SummaryData>, k: SortKey) {
    forall i, j | 0 <= i < j < |xs| :: Key(xs[i], k) >= Key(xs[j], k)
  }

  /** The order the report asks for. */
  ghost predicate Ordered(xs: seq<SummaryData>, k: SortKey, ascending: bool) {
    if ascending then Ascending(xs, k) else Descending(xs, k)
  }

  /** No two summaries share a value of the sort attribute. */
  ghost predicate TieFree(xs: seq<SummaryData>, k: SortKey) {
    forall i, j | 0 <= i < j < |xs| :: Key(xs[i], k) != Key(xs[j], k)
  }

  /** `x` put into an ascending sequence at the first place where it fits. */
  function Insert(x: SummaryData, xs: seq<SummaryData>, k: SortKey): (r: seq<SummaryData>)
    requires Ascending(xs, k)
    ensures Ascending(r, k)
    ensures multiset(r) == multiset(xs) + multiset{x}
    decreases |xs|
  {
    if xs == [] || Key(x, k) <= Key(xs[0], k) then
      [x] + xs
    else
      var rest := Insert(x, xs[1..], k);
      assert xs == [xs[0]] + xs[1..];
      HeadBelowInserted(x, xs, rest, k);
      [xs[0]] + rest
  }

  /** The head of an ascending sequence stays first once a larger element is put into its tail. */
  lemma HeadBelowInserted(x: SummaryData, xs: seq<SummaryData>, rest: seq<SummaryData>, k: SortKey)
    requires xs != [] && Ascending(xs, k) && Key(xs[0], k) < Key(x, k)
    requires Ascending(rest, k) && multiset(rest) == multiset(xs[1..]) + multiset{x}
    ensures Ascending([xs[0]] + rest, k)
  {
    forall j | 0 <= j < |rest|
      ensures Key(xs[0], k) <= Key(rest[j], k)
    {
      assert rest[j] in multiset(rest);
      if rest[j] != x {
        assert rest[j] in multiset(xs[1..]);
        var m :| 0 <= m < |xs[1..]| && xs[1..][m] == rest[j];
        assert xs[m + 1] == rest[j];
      }
    }
    var r := [xs[0]] + rest;
    forall i, j | 0 <= i < j < |r|
      ensures Key(r[i], k) <= Key(r[j], k)
    {
      if i > 0 {
        assert r[i] == rest[i - 1] && r[j] == rest[j - 1];
      } else {
        assert r[j] == rest[j - 1];
      }
    }
  }

  /**
   * `sortSummaries` (sqa.rb:158-160): `sort!` comparing the chosen
   * attribute with `<=>`, as an insertion sort. Only "ascending and a
   * permutation" is relied on below, so the order of ties stays open, as it
   * is for Ruby's `sort!`.
   */
  function SortSummaries(xs: seq<SummaryData>, k: SortKey): (r: seq<SummaryData>)
    ensures Ascending(r, k)
    ensures multiset(r) == multiset(xs)
    decreases |xs|
  {
    if xs == [] then []
    else
      assert xs == [xs[0]] + xs[1..];
      Insert(xs[0], SortSummaries(xs[1..], k), k)
  }

  /** `reverse!` on a value: the last element first. */
  function Reversed(xs: seq<SummaryData>): (r: seq<SummaryData>)
    ensures |r| == |xs|
    ensures forall i | 0 <= i < |xs| :: r[i] == xs[|xs| - 1 - i]
    decreases |xs|
  {
    if xs == [] then [] else Reversed(xs[1..]) + [xs[0]]
  }

  /** Reversing keeps the elements and turns an ascending order into a descending one. */
  lemma ReversedIsDescending(xs: seq<SummaryData>, k: SortKey)
    requires Ascending(xs, k)
    ensures Descending(Reversed(xs), k)
    ensures multiset(Reversed(xs)) == multiset(xs)
  {
    var r := Reversed(xs);
    assert r == seq(|xs|, i requires 0 <= i < |xs| => xs[|xs| - 1 - i]);
    ReversedMultiset(xs);
  }

  lemma {:induction false} ReversedMultiset(xs: seq<SummaryData>)
    ensures multiset(Reversed(xs)) == multiset(xs)
    decreases |xs|
  {
    if xs != [] {
      ReversedMultiset(xs[1..]);
      assert xs == [xs[0]] + xs[1..];
    }
  }

  /**
   * `selectedSummaries[0..n]` with `n = count - 1` (sqa.rb:272-274): a
   * positive count keeps the first `count` entries (or all there are); a
   * negative end index counts from the back, so `count = 0` keeps every
   * entry and `count = -1` all but the last.
   */
  function RubyTake(xs: seq<SummaryData>, count: int): (r: seq<SummaryData>)
    ensures count >= 1 ==> r == xs[..Min(count, |xs|)]
    ensures count <= 0 ==> r == xs[..Max(0, |xs| + count)]
    ensures |r| == if count >= 1 then Min(count, |xs|) else Max(0, |xs| + count)
  {
    var last := count - 1;
    var end := if last < 0 then |xs| + last else last;
    if end < 0 then [] else xs[..Min(end + 1, |xs|)]
  }

  /** Reversing twice gives the sequence back. */
  lemma ReversedTwice(xs: seq<SummaryData>)
    ensures Reversed(Reversed(xs)) == xs
  {
    var r := Reversed(Reversed(xs));
    assert forall i | 0 <= i < |xs| :: r[i] == xs[i];
  }

  /**
   * Two ascending arrangements of the same summaries coincide when no two
   * of them share a sort value: without ties the ranking is determined.
   */
  lemma {:induction false} AscendingUnique(a: seq<SummaryData>, b: seq<SummaryData>, k: SortKey)
    requires multiset(a) == multiset(b)
    requires Ascending(a, k) && Ascending(b, k) && TieFree(a, k)
    ensures a == b
    decreases |a|
  {
    assert |a| == |multiset(a)| == |multiset(b)| == |b|;
    if a != [] {
      HeadsAgree(a, b, k);
      TailsOrdered(a, k);
      TailsOrdered(b, k);
      TailMultiset(a);
      TailMultiset(b);
      AscendingUnique(a[1..], b[1..], k);
    }
  }

  /** Dropping the head keeps a sequence ascending and tie-free. */
  lemma TailsOrdered(xs: seq<SummaryData>, k: SortKey)
    requires xs != []
    ensures Ascending(xs, k) ==> Ascending(xs[1..], k)
    ensures TieFree(xs, k) ==> TieFree(xs[1..], k)
  {
    if Ascending(xs, k) {
      forall i, j | 0 <= i < j < |xs| - 1 ensures Key(xs[1..][i], k) <= Key(xs[1..][j], k) {
        assert xs[1..][i] == xs[i + 1] && xs[1..][j] == xs[j + 1];
      }
    }
    if TieFree(xs, k) {
      forall i, j | 0 <= i < j < |xs| - 1 ensures Key(xs[1..][i], k) != Key(xs[1..][j], k) {
        assert xs[1..][i] == xs[i + 1] && xs[1..][j] == xs[j + 1];
      }
    }
  }

  /** The tail holds every element but the head. */
  lemma TailMultiset(xs: seq<SummaryData>)
    requires xs != []
    ensures multiset(xs[1..]) == multiset(xs) - multiset{xs[0]}
  {
    assert xs == [xs[0]] + xs[1..];
  }

  /** Both arrangements start with the one summary of least sort value. */
  lemma HeadsAgree(a: seq<SummaryData>, b: seq<SummaryData>, k: SortKey)
    requires a != [] && b != [] && multiset(a) == multiset(b)
    requires Ascending(a, k) && Ascending(b, k) && TieFree(a, k)
    ensures a[0] == b[0]
  {
    assert a[0] in multiset(b);
    var j :| 0 <= j < |b| && b[j] == a[0];
    assert b[0] in multiset(a);
    var i :| 0 <= i < |a| && a[i] == b[0];
    assert Key(b[0], k) <= Key(b[j], k) == Key(a[0], k);
    assert Key(a[0], k) <= Key(a[i], k) == Key(b[0], k);
  }

  /**
   * Without ties, a descending arrangement of the summaries is exactly the
   * reverse of any ascending one: which ascending order `sort!` picks does
   * not change the report.
   */
  lemma DescendingIsReversedAscending(a: seq<SummaryData>, d: seq<SummaryData>, k: SortKey)
    requires multiset(a) == multiset(d)
    requires Ascending(a, k) && Descending(d, k) && TieFree(a, k)
    ensures d == Reversed(a)
  {
    var rd := Reversed(d);
    assert Ascending(rd, k);
    ReversedMultiset(d);
    AscendingUnique(a, rd, k);
    ReversedTwice(d);
  }

  /** The keys of the summaries that pass `is_valid`. */
  ghost function ValidKeys(m: map<int, SummaryData>, o: Options): set<int> {
    set k | k in m && m[k].IsValid(o)
  }

  /** `keys` lists every valid key of `m`, each exactly once. */
  ghost predicate Enumerates(keys: seq<int>, m: map<int, SummaryData>, o: Options) {
    && (forall i | 0 <= i < |keys| :: keys[i] in m && m[keys[i]].IsValid(o))
    && (forall i, j | 0 <= i < j < |keys| :: keys[i] != keys[j])
    && (forall k | k in m && m[k].IsValid(o) :: k in keys)
  }

  /** The summaries stored under `keys`, in that order. */
  function Lookup(keys: seq<int>, m: map<int, SummaryData>): (r: seq<SummaryData>)
    requires forall i | 0 <= i < |keys| :: keys[i] in m
    ensures |r| == |keys|
    ensures forall i | 0 <= i < |keys| :: r[i] == m[keys[i]]
  {
    seq(|keys|, i requires 0 <= i < |keys| => m[keys[i]])
  }

  /** An enumeration of the valid keys has one entry per valid key. */
  lemma {:induction false} EnumerationSize(keys: seq<int>, m: map<int, SummaryData>, o: Options)
    requires Enumerates(keys, m, o)
    ensures |keys| == |ValidKeys(m, o)|
    decreases |keys|
  {
    if keys == [] {
      forall k | k in ValidKeys(m, o) ensures k in keys { }
    } else {
      var last := keys[|keys| - 1];
      var init := keys[..|keys| - 1];
      var rest := m - {last};
      assert Enumerates(init, rest, o) by {
        forall k | k in rest && rest[k].IsValid(o) ensures k in init {
          assert k in keys;
          var i :| 0 <= i < |keys| && keys[i] == k;
          assert i != |keys| - 1;
          assert init[i] == k;
        }
      }
      EnumerationSize(init, rest, o);
      assert ValidKeys(m, o) == ValidKeys(rest, o) + {last};
    }
  }

  /**
   * The selection loop (sqa.rb:258-262): every summary that passes
   * `is_valid`, each once. The order of a Ruby hash's entries is not part
   * of the model; `keys` records the order this run chose.
   */
  method SelectValid(m: map<int, SummaryData>, o: Options) returns (selected: seq<SummaryData>, ghost keys: seq<int>)
    ensures Enumerates(keys, m, o)
    ensures selected == Lookup(keys, m)
    ensures |selected| == |ValidKeys(m, o)|
  {
    selected := [];
    keys := [];
    var rest := m.Keys;
    while rest != {}
      invariant rest <= m.Keys
      invariant |selected| == |keys|
      invariant forall i | 0 <= i < |keys| :: keys[i] in m && keys[i] !in rest && m[keys[i]].IsValid(o)
      invariant forall i | 0 <= i < |keys| :: selected[i] == m[keys[i]]
      invariant forall i, j | 0 <= i < j < |keys| :: keys[i] != keys[j]
      invariant forall k | k in m && k !in rest && m[k].IsValid(o) :: k in keys
      decreases |rest|
    {
      HasMember(rest);
      var k :| k in rest;
      if m[k].IsValid(o) {
        selected := selected + [m[k]];
        keys := keys + [k];
      }
      rest := rest - {k};
    }
    EnumerationSize(keys, m, o);
  }

  /** A non-empty set of keys has a member to pick. */
  lemma HasMember(s: set<int>)
    requires s != {}
    ensures exists k :: k in s
  {
    if forall k :: k !in s {
      assert false;
    }
  }

  /** All input files' lines, one file after another. */
  function Flatten(files: seq<seq<string>>): seq<string>
    decreases |files|
  {
    if files == [] then [] else Flatten(files[..|files| - 1]) + files[|files| - 1]
  }

  lemma {:induction false} FlattenAppend(a: seq<seq<string>>, b: seq<seq<string>>)
    ensures Flatten(a + b) == Flatten(a) + Flatten(b)
    decreases |b|
  {
    if b == [] {
      assert a + b == a;
    } else {
      var init := b[..|b| - 1];
      assert (a + b)[..|a + b| - 1] == a + init;
      FlattenAppend(a, init);
    }
  }

  /**
   * The whole program after option parsing (sqa.rb:252-274): every file's
   * lines go through one analyzer in turn (state carries over from file to
   * file), then the valid summaries are ranked and the first `count` of
   * them reported. A malformed metadata line stops the run with no report
   * (`None`), as the exception it raises does. `ranked` is the full ranking before
   * truncation, `keys` the order in which the valid summaries were taken.
   */
  method Analyze(files: seq<seq<string>>, o: Options, parse: string -> Option<Meta>, hash: Option<string> -> int)
    returns (r: Option<seq<SummaryData>>, ghost ranked: seq<SummaryData>, ghost keys: seq<int>)
    ensures r.Some? <==> Run(INIT, Flatten(files), parse, hash).Success?
    ensures r.Some? ==>
      var m := Run(INIT, Flatten(files), parse, hash).value.summaries;
      Ranks(r.value, ranked, keys, m, o)
    ensures r.Some? ==>
      forall s | s in r.value :: s in Run(INIT, Flatten(files), parse, hash).value.summaries.Values && s.IsValid(o)
  {
    var analyzer := new Analyzer(parse, hash);
    var i := 0;
    while i < |files|
      invariant 0 <= i <= |files|
      invariant fresh(analyzer) && analyzer.Valid()
      invariant analyzer.parse == parse && analyzer.hash == hash
      invariant analyzer.query != null ==> fresh(analyzer.query)
      invariant forall s | s in analyzer.summaries.Values :: fresh(s)
      invariant Run(INIT, Flatten(files[..i]), parse, hash) == Success(analyzer.Abstract())
    {
      RunFiles(files, i, analyzer.Abstract(), parse, hash);
      var ok := analyzer.ProcessFile(files[i]);
      if !ok {
        RunFilesStops(files, i + 1, parse, hash);
        r := None;
        ranked, keys := [], [];
        return;
      }
      i := i + 1;
    }
    assert files[..i] == files;
    var report;
    report, ranked, keys := Rank(analyzer.SummaryValues(), o);
    r := Some(report);
  }

  /** The lines of the first `i + 1` files are those of the first `i` followed by file `i`. */
  lemma RunFiles(files: seq<seq<string>>, i: nat, s: State, parse: string -> Option<Meta>, hash: Option<string> -> int)
    requires i < |files|
    requires Run(INIT, Flatten(files[..i]), parse, hash) == Success(s)
    ensures AllCounted(s.summaries)
    ensures Run(INIT, Flatten(files[..i + 1]), parse, hash) == Run(s, files[i], parse, hash)
  {
    var done := files[..i + 1];
    assert done[..i] == files[..i];
    RunAppend(INIT, Flatten(files[..i]), files[i], parse, hash);
  }

  /** Once the lines of the first `i` files stop the run, the run over every file stops too. */
  lemma RunFilesStops(files: seq<seq<string>>, i: nat, parse: string -> Option<Meta>, hash: Option<string> -> int)
    requires i <= |files|
    requires Run(INIT, Flatten(files[..i]), parse, hash).Failure?
    ensures Run(INIT, Flatten(files), parse, hash).Failure?
  {
    var done, rest := files[..i], files[i..];
    FlattenAppend(done, rest);
    assert done + rest == files;
    RunAppend(INIT, Flatten(done), Flatten(rest), parse, hash);
  }

  /**
   * `report` is the first `count` entries of `ranked`, an arrangement of
   * every valid summary of `m` in the order asked for; `keys` lists those
   * summaries' keys.
   */
  ghost predicate Ranks(report: seq<SummaryData>, ranked: seq<SummaryData>, keys: seq<int>, m: map<int, SummaryData>, o: Options) {
    && Enumerates(keys, m, o)
    && multiset(ranked) == multiset(Lookup(keys, m))
    && Ordered(ranked, o.sort, o.ascending)
    && report == RubyTake(ranked, o.count)
  }

  /** Select, sort, reverse unless ascending, truncate (sqa.rb:258-274). */
  method Rank(m: map<int, SummaryData>, o: Options) returns (report: seq<SummaryData>, ghost ranked: seq<SummaryData>, ghost keys: seq<int>)
    ensures Ranks(report, ranked, keys, m, o)
    ensures |ranked| == |ValidKeys(m, o)|
    ensures |report| == if o.count >= 1 then Min(o.count, |ranked|) else Max(0, |ranked| + o.count)
    ensures forall s | s in report :: s in m.Values && s.IsValid(o)
  {
    var selected;
    selected, keys := SelectValid(m, o);
    var sorted := SortSummaries(selected, o.sort);
    if !o.ascending {
      ReversedIsDescending(sorted, o.sort);
      sorted := Reversed(sorted);
    }
    ranked := sorted;
    report := RubyTake(sorted, o.count);
    forall s | s in report
      ensures s in m.Values && s.IsValid(o)
    {
      assert s in multiset(selected);
      var i :| 0 <= i < |selected| && selected[i] == s;
      assert m[keys[i]] == s;
    }
  }
}
