/**
 * The three regular-expression tests that `processLine` applies to a log
 * line (sqa.rb:130, 131, 149), written out over `string`.
 */
module Text {

  /** The comment marker: `line =~ /\#/` is true when the line holds it anywhere. */
  const MARKER: char := '#'

  /** The metadata tag searched for, unanchored, by `line =~ /\# Query_time:/`. */
  const QUERY_TIME: string := "# Query_time:"

  /** The two directive prefixes skipped inside a record (`/^SET timestamp/`, `/^use/`). */
  const SET_TIMESTAMP: string := "SET timestamp"
  const USE: string := "use"

  predicate StartsWith(s: string, p: string) {
    |p| <= |s| && s[..|p|] == p
  }

  predicate EndsWith(s: string, p: string) {
    |p| <= |s| && s[|s| - |p|..] == p
  }

  /** `p` occurs in `s` starting at index `i`. */
  predicate OccursAt(s: string, p: string, i: int) {
    0 <= i && i + |p| <= |s| && s[i..i + |p|] == p
  }

  /** `s =~ /p/` for a literal pattern `p`: `p` occurs somewhere in `s`. */
  predicate Contains(s: string, p: string) {
    exists i | 0 <= i <= |s| :: OccursAt(s, p, i)
  }

  /** Index `i` starts a line of `s`: it is 0 or follows a newline. */
  predicate LineStart(s: string, i: int) {
    i == 0 || (0 < i <= |s| && s[i - 1] == '\n')
  }

  /**
   * `s =~ /^p/` for a literal pattern `p`. Ruby's `^` is a line anchor, not a
   * string anchor: it matches at the start of `s` and right after every
   * newline inside `s`.
   */
  predicate MatchesLineStart(s: string, p: string) {
    exists i | 0 <= i <= |s| :: LineStart(s, i) && OccursAt(s, p, i)
  }

  /** A text that holds `p ++ q` holds `p`. */
  lemma ContainsPrefixOfPattern(s: string, p: string, q: string)
    requires Contains(s, p + q)
    ensures Contains(s, p)
  {
    var i :| 0 <= i <= |s| && OccursAt(s, p + q, i);
    assert s[i..i + |p|] == (p + q)[..|p|] == p;
    assert OccursAt(s, p, i);
  }

  /** Every line that carries the metadata tag also carries the comment marker. */
  lemma MetadataLineIsComment(line: string)
    requires Contains(line, QUERY_TIME)
    ensures MARKER in line
  {
    assert [MARKER] + QUERY_TIME[1..] == QUERY_TIME;
    ContainsPrefixOfPattern(line, [MARKER], QUERY_TIME[1..]);
    var i :| 0 <= i <= |line| && OccursAt(line, [MARKER], i);
    assert line[i] == line[i..i + 1][0] == MARKER;
  }

  /**
   * For a line as `each_line` yields it (a newline, if any, only at the very
   * end), the line anchor `^` behaves as a string anchor.
   */
  lemma LineStartOfSingleLine(s: string, p: string)
    requires p != []
    requires forall i :: 0 <= i < |s| - 1 ==> s[i] != '\n'
    ensures MatchesLineStart(s, p) <==> StartsWith(s, p)
  {
    assert StartsWith(s, p) ==> LineStart(s, 0) && OccursAt(s, p, 0);
  }

  /** The directive test `/^use/` also fires on a line that starts with `user`. */
  lemma UseMatchesUser()
    ensures MatchesLineStart("user_id = 7", USE)
  {
    assert LineStart("user_id = 7", 0) && OccursAt("user_id = 7", USE, 0);
  }
}
