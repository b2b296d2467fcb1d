/**
 * The query record (`class Query`, sqa.rb:74-121): the four numbers of one
 * `# Query_time:` metadata line and the SQL text gathered after it.
 */
module QueryRecord {
  import opened Wrappers
  import opened Text

  /** The four numbers of a metadata line, after Ruby's `to_f` / `to_i`. */
  datatype Meta = Meta(queryTime: real, lockTime: real, rowsSent: int, rowsExamined: int)

  /** The four statistics a query carries and a summary averages. */
  datatype Stat = QueryTime | LockTime | RowsSent | RowsExamined

  /**
   * What `add_sql` puts between two segments: the two characters backslash
   * and `n`, since Ruby reads no escape inside single quotes.
   */
  const SEPARATOR: string := ['\\', 'n']

  /** `rowsSent / rowsExamined`, or 1.0 (fully efficient) when nothing was examined. */
  function Efficiency(sent: real, examined: real): (r: real)
    ensures examined > 0.0 ==> r * examined == sent
    ensures examined <= 0.0 ==> r == 1.0
    ensures 0.0 <= sent && 0.0 <= examined ==> 0.0 <= r
    ensures 0.0 <= sent <= examined ==> r <= 1.0
  {
    if examined > 0.0 then sent / examined else 1.0
  }

  /** The value of a `Query` object: its numbers and its SQL text (`nil` until a segment arrives). */
  datatype QueryData = QueryData(meta: Meta, sql: Option<string>) {

    function Field(f: Stat): real {
      match f
      case QueryTime => meta.queryTime
      case LockTime => meta.lockTime
      case RowsSent => meta.rowsSent as real
      case RowsExamined => meta.rowsExamined as real
    }

    /** `Query#row_efficiency` (sqa.rb:99-104), on the integer row counts. */
    function RowEfficiency(): (r: real)
      ensures meta.rowsExamined > 0 ==> r * (meta.rowsExamined as real) == meta.rowsSent as real
      ensures meta.rowsExamined <= 0 ==> r == 1.0
      ensures 0 <= meta.rowsSent <= meta.rowsExamined ==> 0.0 <= r <= 1.0
    {
      Efficiency(meta.rowsSent as real, meta.rowsExamined as real)
    }
  }

  /** `add_sql` on a value: the first segment becomes the text, later ones are joined with `SEPARATOR`. */
  function AppendSql(sql: Option<string>, line: string): (r: Option<string>)
    ensures r.Some?
  {
    if sql.Some? then Some(sql.value + SEPARATOR + line) else Some(line)
  }

  /**
   * `add_sql` keeps the text it had, then one separator, then the new
   * segment, which ends the text; the first segment is the whole text.
   */
  lemma AppendSqlExtends(sql: Option<string>, line: string)
    ensures sql.None? ==> AppendSql(sql, line).value == line
    ensures sql.Some? ==> StartsWith(AppendSql(sql, line).value, sql.value + SEPARATOR)
    ensures EndsWith(AppendSql(sql, line).value, line)
    ensures sql.Some? ==> |AppendSql(sql, line).value| == |sql.value| + |SEPARATOR| + |line|
  {
    if sql.Some? {
      var r := sql.value + SEPARATOR + line;
      assert r[..|sql.value + SEPARATOR|] == sql.value + SEPARATOR;
      assert r[|r| - |line|..] == line;
    }
  }

  /** `add_sql` applied to each of `lines` in turn. */
  function AddAll(sql: Option<string>, lines: seq<string>): Option<string>
    decreases |lines|
  {
    if lines == [] then sql else AddAll(AppendSql(sql, lines[0]), lines[1..])
  }

  /** Adding one more segment after a run of segments is one more `add_sql`. */
  lemma {:induction false} AddAllSnoc(sql: Option<string>, lines: seq<string>, line: string)
    ensures AddAll(sql, lines + [line]) == AppendSql(AddAll(sql, lines), line)
    decreases |lines|
  {
    if lines != [] {
      assert (lines + [line])[1..] == lines[1..] + [line];
      AddAllSnoc(AppendSql(sql, lines[0]), lines[1..], line);
    }
  }

  /** The segments written one after another with `SEPARATOR` between neighbours. */
  function Joined(lines: seq<string>): string
    requires lines != []
  {
    if |lines| == 1 then lines[0] else lines[0] + SEPARATOR + Joined(lines[1..])
  }

  /** Adding segments to a text that already has some appends the joined segments after one separator. */
  lemma {:induction false} AddAllAfterText(text: string, lines: seq<string>)
    requires lines != []
    ensures AddAll(Some(text), lines) == Some(text + SEPARATOR + Joined(lines))
    decreases |lines|
  {
    var next := text + SEPARATOR + lines[0];
    if |lines| > 1 {
      AddAllAfterText(next, lines[1..]);
      assert next + SEPARATOR + Joined(lines[1..]) == text + SEPARATOR + Joined(lines);
    }
  }

  /**
   * A record's SQL text is its segments joined with `SEPARATOR`, in order,
   * and stays `nil` when there was none.
   */
  lemma {:induction false} AddAllJoins(lines: seq<string>)
    ensures AddAll(None, lines) == if lines == [] then None else Some(Joined(lines))
  {
    if |lines| > 1 {
      AddAllAfterText(lines[0], lines[1..]);
    }
  }

  /** Adding segments never rewrites earlier text: the old text is a prefix of the new. */
  lemma {:induction false} AddAllExtends(text: string, lines: seq<string>)
    ensures AddAll(Some(text), lines).Some?
    ensures StartsWith(AddAll(Some(text), lines).value, text)
  {
    if lines != [] {
      AddAllAfterText(text, lines);
      assert (text + SEPARATOR + Joined(lines))[..|text|] == text;
    }
  }

  /** `class Query`: the numbers are fixed at creation, the SQL text grows with `add_sql`. */
  class Query {
    const queryTime: real
    const lockTime: real
    const rowsSent: int
    const rowsExamined: int
    var sql: Option<string>

    function Data(): QueryData
      reads this
    {
      QueryData(Meta(queryTime, lockTime, rowsSent, rowsExamined), sql)
    }

    /** `Query.new` (sqa.rb:75-81): the numbers of the metadata line and no SQL yet. */
    constructor (m: Meta)
      ensures Data() == QueryData(m, None)
    {
      queryTime := m.queryTime;
      lockTime := m.lockTime;
      rowsSent := m.rowsSent;
      rowsExamined := m.rowsExamined;
      sql := None;
    }

    /** `add_sql` (sqa.rb:110-116). */
    method AddSql(line: string)
      modifies this
      ensures Data() == old(Data()).(sql := AppendSql(old(sql), line))
    {
      if sql.Some? {
        sql := Some(sql.value + SEPARATOR + line);
      } else {
        sql := Some(line);
      }
    }
  }
}
