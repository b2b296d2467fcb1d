/**
 * The line state machine (`processLine`, sqa.rb:129-156): every line of
 * every log file either opens a record, closes the open record into the
 * summaries, is skipped, or is appended to the open record's SQL text.
 */
module LineMachine {
  import opened Wrappers
  import opened Text
  import opened QueryRecord
  import opened Aggregate

  /** The state hash of sqa.rb:248, with its open query and its summaries, as a value. */
  datatype State = State(query: Option<QueryData>, summaries: map<int, SummaryData>)

  /** No open record and no summaries: the state before the first file. */
  const INIT: State := State(None, map[])

  /** A `# Query_time:` line that the full metadata pattern does not match makes `matches[1]` raise. */
  datatype LineError = MalformedMetadata(line: string)

  /** Every summary sits under the hash of its own SQL text. */
  ghost predicate KeyedBy(m: map<int, SummaryData>, hash: Option<string> -> int) {
    forall k | k in m :: k == hash(m[k].sql)
  }

  /** `line =~ /^SET timestamp/ || line =~ /^use/` (sqa.rb:149). */
  predicate IsDirective(line: string) {
    MatchesLineStart(line, SET_TIMESTAMP) || MatchesLineStart(line, USE)
  }

  /** A line the program dies on: it carries the metadata tag but `parse` finds no match. */
  predicate IsMalformed(line: string, parse: string -> Option<Meta>) {
    Contains(line, QUERY_TIME) && parse(line).None?
  }

  /**
   * `processLine` on values. `parse` stands for the metadata regular
   * expression with `to_f` / `to_i` on its four groups, `hash` for Ruby's
   * `hash` of the SQL text (or of `nil`).
   */
  function Step(st: State, line: string, parse: string -> Option<Meta>, hash: Option<string> -> int): (r: Result<State, LineError>)
    requires AllCounted(st.summaries)
    ensures r.Failure? <==> IsMalformed(line, parse)
    ensures r.Success? ==> AllCounted(r.value.summaries)
  {
    NoMarkerNoMetadata(line);
    if MARKER in line then
      if Contains(line, QUERY_TIME) then
        match parse(line)
        case None => Failure(MalformedMetadata(line))
        case Some(m) => Success(State(Some(QueryData(m, None)), st.summaries))
      else if st.query.Some? then
        Success(State(None, MergeAt(st.summaries, hash(st.query.value.sql), st.query.value)))
      else
        Success(State(None, st.summaries))
    else if st.query.Some? && !IsDirective(line) then
      var q := st.query.value;
      Success(st.(query := Some(q.(sql := AppendSql(q.sql, line)))))
    else
      Success(st)
  }

  /** A line without the comment marker can never be a metadata line. */
  lemma NoMarkerNoMetadata(line: string)
    ensures MARKER !in line ==> !Contains(line, QUERY_TIME)
  {
    if Contains(line, QUERY_TIME) {
      MetadataLineIsComment(line);
    }
  }

  /** The lines of one or more files fed to `processLine` in order; the first malformed metadata line ends the run. */
  function Run(st: State, lines: seq<string>, parse: string -> Option<Meta>, hash: Option<string> -> int): (r: Result<State, LineError>)
    requires AllCounted(st.summaries)
    ensures r.Success? ==> AllCounted(r.value.summaries)
    decreases |lines|
  {
    if lines == [] then Success(st)
    else
      match Run(st, lines[..|lines| - 1], parse, hash)
      case Failure(e) => Failure(e)
      case Success(s) => Step(s, lines[|lines| - 1], parse, hash)
  }

  /**
   * A line never removes a summary or a call from one, and summaries stay
   * filed under the hash of their own SQL text.
   */
  lemma StepGrows(st: State, line: string, parse: string -> Option<Meta>, hash: Option<string> -> int)
    requires AllCounted(st.summaries) && Step(st, line, parse, hash).Success?
    ensures var m := Step(st, line, parse, hash).value.summaries;
      && st.summaries.Keys <= m.Keys
      && (forall k | k in st.summaries :: m[k].calls >= st.summaries[k].calls)
      && (KeyedBy(st.summaries, hash) ==> KeyedBy(m, hash))
  {
    NoMarkerNoMetadata(line);
  }

  /** A run fails exactly when one of its lines is a malformed metadata line. */
  lemma {:induction false} RunFailsIff(st: State, lines: seq<string>, parse: string -> Option<Meta>, hash: Option<string> -> int)
    requires AllCounted(st.summaries)
    ensures Run(st, lines, parse, hash).Failure? <==> exists i :: 0 <= i < |lines| && IsMalformed(lines[i], parse)
    decreases |lines|
  {
    if lines != [] {
      var init := lines[..|lines| - 1];
      RunFailsIff(st, init, parse, hash);
      assert forall i | 0 <= i < |init| :: init[i] == lines[i];
    }
  }

  /** What a single line keeps, a whole run keeps (`StepGrows` line by line). */
  lemma {:induction false} RunGrows(st: State, lines: seq<string>, parse: string -> Option<Meta>, hash: Option<string> -> int)
    requires AllCounted(st.summaries) && Run(st, lines, parse, hash).Success?
    ensures var m := Run(st, lines, parse, hash).value.summaries;
      && st.summaries.Keys <= m.Keys
      && (forall k | k in st.summaries :: m[k].calls >= st.summaries[k].calls)
      && (KeyedBy(st.summaries, hash) ==> KeyedBy(m, hash))
    decreases |lines|
  {
    if lines != [] {
      var init := lines[..|lines| - 1];
      RunGrows(st, init, parse, hash);
      StepGrows(Run(st, init, parse, hash).value, lines[|lines| - 1], parse, hash);
    }
  }

  /**
   * A line carrying `# Query_time:` either kills the run or opens a fresh
   * record with no SQL text; the summaries are untouched, and a record that
   * was open is dropped without being merged.
   */
  lemma StepMetadata(st: State, line: string, parse: string -> Option<Meta>, hash: Option<string> -> int)
    requires AllCounted(st.summaries)
    requires Contains(line, QUERY_TIME)
    ensures parse(line).None? ==> Step(st, line, parse, hash) == Failure(MalformedMetadata(line))
    ensures parse(line).Some? ==> Step(st, line, parse, hash) == Success(State(Some(QueryData(parse(line).value, None)), st.summaries))
  {
    MetadataLineIsComment(line);
  }

  /**
   * Any other comment line closes the record: an open query adds exactly one
   * call under the hash of its SQL text (a new summary or one more merge),
   * every other summary stays as it was, and no record is open afterwards.
   */
  lemma StepBoundary(st: State, line: string, parse: string -> Option<Meta>, hash: Option<string> -> int)
    requires AllCounted(st.summaries)
    requires MARKER in line && !Contains(line, QUERY_TIME)
    ensures Step(st, line, parse, hash).Success?
    ensures Step(st, line, parse, hash).value.query.None?
    ensures st.query.None? ==> Step(st, line, parse, hash).value.summaries == st.summaries
    ensures st.query.Some? ==>
      Step(st, line, parse, hash).value.summaries == MergeAt(st.summaries, hash(st.query.value.sql), st.query.value)
    ensures st.query.Some? ==>
      var q, m, m' := st.query.value, st.summaries, Step(st, line, parse, hash).value.summaries;
      var key := hash(q.sql);
      && m'.Keys == m.Keys + {key}
      && (forall k | k in m && k != key :: m'[k] == m[k])
      && m'[key] == (if key in m then Merge(m[key], q) else Seed(q))
      && m'[key].calls == (if key in m then m[key].calls else 0) + 1
  {
  }

  /** A line without the marker changes nothing when no record is open or when it is a directive. */
  lemma StepSkips(st: State, line: string, parse: string -> Option<Meta>, hash: Option<string> -> int)
    requires AllCounted(st.summaries)
    requires MARKER !in line && (st.query.None? || IsDirective(line))
    ensures Step(st, line, parse, hash) == Success(st)
  {
  }

  /** Any other line without the marker is one more SQL segment of the open record. */
  lemma StepAppends(st: State, line: string, parse: string -> Option<Meta>, hash: Option<string> -> int)
    requires AllCounted(st.summaries)
    requires MARKER !in line && st.query.Some? && !IsDirective(line)
    ensures Step(st, line, parse, hash) == Success(st.(query := Some(st.query.value.(sql := AppendSql(st.query.value.sql, line)))))
  {
  }

  /** A continuation line that happens to start with `use` (say `user_id = 7`) is lost from the SQL text. */
  lemma UserLineIsSkipped(st: State, parse: string -> Option<Meta>, hash: Option<string> -> int)
    requires AllCounted(st.summaries)
    requires st.query.Some?
    ensures Step(st, "user_id = 7", parse, hash) == Success(st)
  {
    UseMatchesUser();
  }

  /**
   * The state carries over from one file to the next (sqa.rb:248, 253):
   * running two files in turn is running their concatenation.
   */
  lemma {:induction false} RunAppend(st: State, a: seq<string>, b: seq<string>, parse: string -> Option<Meta>, hash: Option<string> -> int)
    requires AllCounted(st.summaries)
    ensures Run(st, a + b, parse, hash) ==
      match Run(st, a, parse, hash)
      case Failure(e) => Failure(e)
      case Success(s) => Run(s, b, parse, hash)
    decreases |b|
  {
    if b == [] {
      assert a + b == a;
    } else {
      var b' := b[..|b| - 1];
      assert (a + b)[..|a + b| - 1] == a + b';
      RunAppend(st, a, b', parse, hash);
    }
  }

  /** The lines of `lines` that `processLine` keeps as SQL: those that are not directives. */
  function Kept(lines: seq<string>): (r: seq<string>)
    ensures forall line | line in r :: line in lines && !IsDirective(line)
    decreases |lines|
  {
    if lines == [] then []
    else
      var last := lines[|lines| - 1];
      Kept(lines[..|lines| - 1]) + (if IsDirective(last) then [] else [last])
  }

  /**
   * Inside an open record, a run of lines without the marker adds exactly its
   * non-directive lines to the SQL text, in order, and nothing else changes.
   */
  lemma {:induction false} RunGathersSql(st: State, body: seq<string>, parse: string -> Option<Meta>, hash: Option<string> -> int)
    requires AllCounted(st.summaries)
    requires st.query.Some?
    requires forall line | line in body :: MARKER !in line
    ensures Run(st, body, parse, hash) == Success(st.(query := Some(st.query.value.(sql := AddAll(st.query.value.sql, Kept(body))))))
    decreases |body|
  {
    var q := st.query.value;
    if body != [] {
      var init := body[..|body| - 1];
      var last := body[|body| - 1];
      assert forall line | line in init :: line in body;
      RunGathersSql(st, init, parse, hash);
      var s := st.(query := Some(q.(sql := AddAll(q.sql, Kept(init)))));
      assert Run(st, body, parse, hash) == Step(s, last, parse, hash);
      if IsDirective(last) {
        assert Kept(body) == Kept(init);
        StepSkips(s, last, parse, hash);
      } else {
        assert Kept(body) == Kept(init) + [last];
        AddAllSnoc(q.sql, Kept(init), last);
        StepAppends(s, last, parse, hash);
      }
    }
  }

  /**
   * There is no flush at end of input: lines after the last comment line
   * never reach the summaries, whatever they are.
   */
  lemma {:induction false} RunTailNotFlushed(st: State, tail: seq<string>, parse: string -> Option<Meta>, hash: Option<string> -> int)
    requires AllCounted(st.summaries)
    requires forall line | line in tail :: MARKER !in line
    ensures Run(st, tail, parse, hash).Success?
    ensures Run(st, tail, parse, hash).value.summaries == st.summaries
    decreases |tail|
  {
    if tail != [] {
      var init := tail[..|tail| - 1];
      assert forall line | line in init :: line in tail;
      RunTailNotFlushed(st, init, parse, hash);
      NoMarkerNoMetadata(tail[|tail| - 1]);
    }
  }

  /**
   * One more line of `lines` after the prefix already run; a malformed one
   * stops the whole run.
   */
  lemma RunPrefix(st: State, lines: seq<string>, i: nat, s: State, parse: string -> Option<Meta>, hash: Option<string> -> int)
    requires AllCounted(st.summaries) && i < |lines|
    requires Run(st, lines[..i], parse, hash) == Success(s)
    ensures AllCounted(s.summaries)
    ensures Run(st, lines[..i + 1], parse, hash) == Step(s, lines[i], parse, hash)
    ensures Step(s, lines[i], parse, hash).Failure? ==> Run(st, lines, parse, hash).Failure?
  {
    assert lines[..i] + [lines[i]] == lines[..i + 1];
    RunStep(st, lines[..i], lines[i], s, parse, hash);
    RunFailsIff(st, lines, parse, hash);
  }

  /** One more line after a run that succeeded is one more `Step`. */
  lemma RunStep(st: State, lines: seq<string>, line: string, s: State, parse: string -> Option<Meta>, hash: Option<string> -> int)
    requires AllCounted(st.summaries)
    requires Run(st, lines, parse, hash) == Success(s)
    ensures AllCounted(s.summaries)
    ensures Run(st, lines + [line], parse, hash) == Step(s, line, parse, hash)
  {
    assert (lines + [line])[..|lines|] == lines;
  }

  /**
   * Records that follow each other with no other comment line between them
   * are lost: each `# Query_time:` line replaces the open record, so two
   * complete records leave the summaries exactly as they were.
   */
  lemma BackToBackRecordsDropped(st: State, meta1: string, sql1: string, meta2: string, sql2: string, meta3: string,
                                 parse: string -> Option<Meta>, hash: Option<string> -> int)
    requires AllCounted(st.summaries)
    requires Contains(meta1, QUERY_TIME) && Contains(meta2, QUERY_TIME) && Contains(meta3, QUERY_TIME)
    requires parse(meta1).Some? && parse(meta2).Some? && parse(meta3).Some?
    requires MARKER !in sql1 && MARKER !in sql2
    ensures Run(st, [meta1, sql1, meta2, sql2, meta3], parse, hash)
         == Success(State(Some(QueryData(parse(meta3).value, None)), st.summaries))
  {
    var s1 := State(Some(QueryData(parse(meta1).value, None)), st.summaries);
    StepMetadata(st, meta1, parse, hash);
    RunStep(st, [], meta1, st, parse, hash);
    var s2 := if IsDirective(sql1) then s1 else s1.(query := Some(s1.query.value.(sql := Some(sql1))));
    assert [meta1] + [sql1] == [meta1, sql1];
    RunStep(st, [meta1], sql1, s1, parse, hash);
    var s3 := State(Some(QueryData(parse(meta2).value, None)), st.summaries);
    StepMetadata(s2, meta2, parse, hash);
    assert [meta1, sql1] + [meta2] == [meta1, sql1, meta2];
    RunStep(st, [meta1, sql1], meta2, s2, parse, hash);
    var s4 := if IsDirective(sql2) then s3 else s3.(query := Some(s3.query.value.(sql := Some(sql2))));
    assert [meta1, sql1, meta2] + [sql2] == [meta1, sql1, meta2, sql2];
    RunStep(st, [meta1, sql1, meta2], sql2, s3, parse, hash);
    StepMetadata(s4, meta3, parse, hash);
    assert [meta1, sql1, meta2, sql2] + [meta3] == [meta1, sql1, meta2, sql2, meta3];
    RunStep(st, [meta1, sql1, meta2, sql2], meta3, s4, parse, hash);
  }

  /**
   * Two records of the same statement, each closed by a plain comment line,
   * become one summary of two calls whose averages are the means of the two
   * (query times 1.0 and 3.0, ten rows sent of ten examined each time).
   */
  lemma CommentBoundedRecordsMerge(comment: string, meta1: string, meta2: string, sql: string,
                                   parse: string -> Option<Meta>, hash: Option<string> -> int)
    requires MARKER in comment && !Contains(comment, QUERY_TIME)
    requires parse(meta1) == Some(Meta(1.0, 0.0, 10, 10)) && Contains(meta1, QUERY_TIME)
    requires parse(meta2) == Some(Meta(3.0, 0.0, 10, 10)) && Contains(meta2, QUERY_TIME)
    requires MARKER !in sql && !IsDirective(sql)
    ensures var r := Run(INIT, [comment, meta1, sql, comment, meta2, sql, comment], parse, hash);
      && r.Success?
      && r.value.query.None?
      && r.value.summaries.Keys == {hash(Some(sql))}
      && r.value.summaries[hash(Some(sql))] == SummaryData(2, 2.0, 0.0, 10.0, 10.0, Some(sql))
      && r.value.summaries[hash(Some(sql))].RowEfficiency() == 1.0
  {
    var key := hash(Some(sql));
    var q1 := QueryData(Meta(1.0, 0.0, 10, 10), Some(sql));
    var q2 := QueryData(Meta(3.0, 0.0, 10, 10), Some(sql));
    StepBoundary(INIT, comment, parse, hash);
    RunStep(INIT, [], comment, INIT, parse, hash);
    var s2 := State(Some(q1.(sql := None)), map[]);
    StepMetadata(INIT, meta1, parse, hash);
    assert [comment] + [meta1] == [comment, meta1];
    RunStep(INIT, [comment], meta1, INIT, parse, hash);
    var s3 := State(Some(q1), map[]);
    StepAppends(s2, sql, parse, hash);
    assert [comment, meta1] + [sql] == [comment, meta1, sql];
    RunStep(INIT, [comment, meta1], sql, s2, parse, hash);
    var s4 := State(None, map[key := Seed(q1)]);
    StepBoundary(s3, comment, parse, hash);
    assert [comment, meta1, sql] + [comment] == [comment, meta1, sql, comment];
    RunStep(INIT, [comment, meta1, sql], comment, s3, parse, hash);
    var s5 := State(Some(q2.(sql := None)), s4.summaries);
    StepMetadata(s4, meta2, parse, hash);
    assert [comment, meta1, sql, comment] + [meta2] == [comment, meta1, sql, comment, meta2];
    RunStep(INIT, [comment, meta1, sql, comment], meta2, s4, parse, hash);
    var s6 := State(Some(q2), s4.summaries);
    StepAppends(s5, sql, parse, hash);
    assert [comment, meta1, sql, comment, meta2] + [sql] == [comment, meta1, sql, comment, meta2, sql];
    RunStep(INIT, [comment, meta1, sql, comment, meta2], sql, s5, parse, hash);
    StepBoundary(s6, comment, parse, hash);
    assert [comment, meta1, sql, comment, meta2, sql] + [comment] == [comment, meta1, sql, comment, meta2, sql, comment];
    RunStep(INIT, [comment, meta1, sql, comment, meta2, sql], comment, s6, parse, hash);
    assert Merge(Seed(q1), q2) == SummaryData(2, 2.0, 0.0, 10.0, 10.0, Some(sql));
  }

  /**
   * The state hash of sqa.rb:248 as an object: the open `Query` (or `nil`)
   * and the summaries keyed by hash, both updated in place line by line.
   */
  class Analyzer {
    var query: Query?
    var summaries: map<int, QuerySummary>
    const parse: string -> Option<Meta>
    const hash: Option<string> -> int

    /** Each key owns its own summary object, and every summary has at least one call. */
    ghost predicate Valid()
      reads this`summaries, summaries.Values
    {
      && (forall j, k | j in summaries && k in summaries && j != k :: summaries[j] != summaries[k])
      && (forall k | k in summaries :: summaries[k].calls >= 1)
    }

    /** The values of the summary objects, key by key. */
    function SummaryValues(): (m: map<int, SummaryData>)
      reads this`summaries, summaries.Values
      ensures m.Keys == summaries.Keys
    {
      map k | k in summaries :: summaries[k].Data()
    }

    function Abstract(): State
      reads this, query, summaries.Values
    {
      State(if query == null then None else Some(query.Data()), SummaryValues())
    }

    lemma AbstractCounted()
      requires Valid()
      ensures AllCounted(SummaryValues())
    {
    }

    /** The initial state of sqa.rb:248: no open query and no summaries. */
    constructor (parse: string -> Option<Meta>, hash: Option<string> -> int)
      ensures Valid() && Abstract() == INIT
      ensures this.parse == parse && this.hash == hash
      ensures query == null && summaries == map[]
    {
      query := null;
      summaries := map[];
      this.parse := parse;
      this.hash := hash;
    }

    /**
     * The merge of sqa.rb:138-144: `q` becomes a new summary under the hash
     * of its SQL text, or one more call of the summary already there.
     */
    method MergeQuery(q: Query)
      requires Valid()
      modifies this`summaries, summaries.Values
      ensures Valid()
      ensures AllCounted(old(SummaryValues()))
      ensures SummaryValues() == MergeAt(old(SummaryValues()), hash(q.sql), q.Data())
      ensures forall s | s in summaries.Values :: s in old(summaries.Values) || fresh(s)
    {
      AbstractCounted();
      var key := hash(q.sql);
      if key in summaries {
        AddToSummary(key, q);
      } else {
        NewSummary(key, q);
      }
    }

    /** `summary.add_query(query)` on the summary already under `key` (sqa.rb:143). */
    method AddToSummary(key: int, q: Query)
      requires Valid() && key in summaries
      modifies summaries[key]
      ensures Valid() && summaries == old(summaries)
      ensures SummaryValues() == old(SummaryValues())[key := Merge(old(SummaryValues())[key], q.Data())]
    {
      var summary := summaries[key];
      ghost var before := SummaryValues();
      summary.AddQuery(q);
      assert forall k | k in summaries && k != key :: summaries[k] != summary;
      assert forall k | k in summaries :: SummaryValues()[k] == before[key := Merge(before[key], q.Data())][k];
    }

    /** `QuerySummary.new(query)` stored under a key not seen before (sqa.rb:139-141). */
    method NewSummary(key: int, q: Query)
      requires Valid() && key !in summaries
      modifies this`summaries
      ensures Valid()
      ensures SummaryValues() == old(SummaryValues())[key := Seed(q.Data())]
      ensures fresh(summaries[key])
      ensures forall s | s in summaries.Values :: s in old(summaries.Values) || fresh(s)
    {
      ghost var before := SummaryValues();
      var summary := new QuerySummary(q);
      summaries := summaries[key := summary];
      assert forall k | k in summaries && k != key :: summaries[k] in old(summaries.Values);
      assert forall k | k in summaries :: SummaryValues()[k] == before[key := Seed(q.Data())][k];
    }

    /**
     * The boundary branch of `processLine` (sqa.rb:136-146): an open query
     * is merged, and in every case the record is closed.
     */
    method CloseRecord()
      requires Valid()
      modifies this, summaries.Values
      ensures Valid()
      ensures AllCounted(old(SummaryValues()))
      ensures query == null
      ensures SummaryValues() ==
        if old(query) == null then old(SummaryValues())
        else MergeAt(old(SummaryValues()), hash(old(query.sql)), old(query.Data()))
      ensures forall s | s in summaries.Values :: s in old(summaries.Values) || fresh(s)
    {
      AbstractCounted();
      if query != null {
        ghost var q := query.Data();
        MergeQuery(query);
        assert query.Data() == q;
      }
      query := null;
    }

    /**
     * `processLine` (sqa.rb:129-156). It returns false where the Ruby code
     * raises on a malformed metadata line; the state is then unchanged.
     */
    method ProcessLine(line: string) returns (ok: bool)
      requires Valid()
      modifies this, query, summaries.Values
      ensures Valid()
      ensures AllCounted(old(Abstract()).summaries)
      ensures ok == Step(old(Abstract()), line, parse, hash).Success?
      ensures Abstract() == if ok then Step(old(Abstract()), line, parse, hash).value else old(Abstract())
      ensures query != null ==> query == old(query) || fresh(query)
      ensures forall s | s in summaries.Values :: s in old(summaries.Values) || fresh(s)
    {
      if MARKER in line {
        if Contains(line, QUERY_TIME) {
          ok := OpenRecord(line);
        } else {
          EndRecord(line);
          ok := true;
        }
      } else {
        ContinueRecord(line);
        ok := true;
      }
    }

    /**
     * A `# Query_time:` line (sqa.rb:131-134): a fresh query from the parsed
     * metadata replaces any open one, or the line is malformed.
     */
    method OpenRecord(line: string) returns (ok: bool)
      requires Valid() && Contains(line, QUERY_TIME)
      modifies this`query
      ensures Valid()
      ensures AllCounted(old(Abstract()).summaries)
      ensures ok == Step(old(Abstract()), line, parse, hash).Success?
      ensures Abstract() == if ok then Step(old(Abstract()), line, parse, hash).value else old(Abstract())
      ensures query != null ==> query == old(query) || fresh(query)
    {
      AbstractCounted();
      StepMetadata(Abstract(), line, parse, hash);
      var m := parse(line);
      if m.None? {
        return false;
      }
      query := new Query(m.value);
      ok := true;
    }

    /** Any other comment line (sqa.rb:135-146). */
    method EndRecord(line: string)
      requires Valid() && MARKER in line && !Contains(line, QUERY_TIME)
      modifies this, summaries.Values
      ensures Valid()
      ensures AllCounted(old(Abstract()).summaries)
      ensures Step(old(Abstract()), line, parse, hash) == Success(Abstract())
      ensures query == null
      ensures forall s | s in summaries.Values :: s in old(summaries.Values) || fresh(s)
    {
      AbstractCounted();
      StepBoundary(Abstract(), line, parse, hash);
      CloseRecord();
    }

    /** A line without the marker (sqa.rb:147-155). */
    method ContinueRecord(line: string)
      requires Valid() && MARKER !in line
      modifies query
      ensures Valid()
      ensures AllCounted(old(Abstract()).summaries)
      ensures Step(old(Abstract()), line, parse, hash) == Success(Abstract())
      ensures query == old(query)
    {
      AbstractCounted();
      ghost var before := Abstract();
      if query != null && !IsDirective(line) {
        StepAppends(before, line, parse, hash);
        query.AddSql(line);
        assert SummaryValues() == before.summaries;
        assert Abstract() == before.(query := Some(query.Data()));
      } else {
        StepSkips(before, line, parse, hash);
      }
    }

    /**
     * `processFile` (sqa.rb:123-127) on the lines `each_line` yields: every
     * line goes through `processLine` in order, and the first malformed
     * metadata line ends the run with `false`.
     */
    method ProcessFile(lines: seq<string>) returns (ok: bool)
      requires Valid()
      modifies this, query, summaries.Values
      ensures Valid()
      ensures AllCounted(old(Abstract()).summaries)
      ensures ok == Run(old(Abstract()), lines, parse, hash).Success?
      ensures ok ==> Abstract() == Run(old(Abstract()), lines, parse, hash).value
      ensures query != null ==> query == old(query) || fresh(query)
      ensures forall s | s in summaries.Values :: s in old(summaries.Values) || fresh(s)
    {
      AbstractCounted();
      ghost var start := Abstract();
      ok := true;
      var i := 0;
      while i < |lines| && ok
        invariant 0 <= i <= |lines|
        invariant Valid()
        invariant ok ==> Run(start, lines[..i], parse, hash) == Success(Abstract())
        invariant !ok ==> Run(start, lines, parse, hash).Failure?
        invariant query != null ==> query == old(query) || fresh(query)
        invariant forall s | s in summaries.Values :: s in old(summaries.Values) || fresh(s)
      {
        ghost var before := Abstract();
        RunPrefix(start, lines, i, before, parse, hash);
        ok := ProcessLine(lines[i]);
        i := i + 1;
      }
      if ok {
        assert lines[..i] == lines;
      }
    }
  }
}
