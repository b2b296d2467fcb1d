# sqa.rb — MySQL slow-query log analyser, modelled in Dafny

`sqa.rb` reads one or more MySQL slow-query logs line by line. It groups the
logged statements by the hash of their SQL text and keeps, for each group, a
call count and the running averages of query time, lock time, rows sent and
rows examined. It then reports the groups that pass six thresholds, ranked by
one attribute. This project models that core:

- **Text** (`text.dfy`): the three regular-expression tests `processLine`
  applies to a line. These are the comment marker `#` anywhere, the metadata
  tag `# Query_time:` anywhere, and `SET timestamp` / `use` at the start of a
  line. Ruby's `^` is a line anchor, so it is modelled as one.
- **QueryRecord** (`query.dfy`): `class Query`, which is the four numbers of a
  metadata line plus the SQL text that `add_sql` builds, and
  `row_efficiency`. Segments are joined with the two characters backslash
  and `n`, because `'\n'` in single quotes is not an escape in Ruby.
- **Config** (`config.dfy`): the options the command line hands to the
  core, and their defaults.
- **Aggregate** (`summary.dfy`): `class QuerySummary`. It covers
  `adjust_average`, `add_query`, the `row_efficiency` that is actually in
  force (the second definition), and `is_valid`. The running mean is proved
  to equal the true arithmetic mean, and to be independent of merge order.
- **LineMachine** (`machine.dfy`): `processLine` / `processFile`.
  - `Step` and `Run` give the value-level meaning.
  - `class Analyzer` holds the state hash (the open query and the summaries). Its open `Query`
    and its `QuerySummary` objects are updated in place, and its methods are
    proved against `Step` and `Run`.
  - Lemmas pin down each transition: metadata, boundary, skip and append.
  - Further lemmas show that SQL segments are gathered in order, that there
    is no final flush, and that records back to back are lost.
- **Report** (`report.dfy`): the selection loop, `sortSummaries`, the
  `reverse!` for descending order, and the `[0..count-1]` truncation. It also
  has `Analyze`, which runs the whole program from the option values and the
  files' lines to the reported summaries.

Two things the core calls but does not define are parameters of the model:
- `parse: string -> Option<Meta>` stands for the metadata regular expression
  followed by `to_f`/`to_i` on its four groups. `None` means "no match".
- `hash: Option<string> -> int` stands for Ruby's `String#hash` (and
  `nil.hash`).

Floats are modelled as `real`, and Ruby's integers as `int`.

Three behaviours of the code that are easy to miss:
- A `# Query_time:` line does **not** merge the open record. It replaces it
  (sqa.rb:131-134). Only a comment line without the tag merges
  (sqa.rb:135-146). `BackToBackRecordsDropped` proves that two records
  separated only by metadata lines leave the summaries unchanged.
  `CommentBoundedRecordsMerge` proves that the same two records, each closed
  by a plain comment line, give one summary with two calls and averages 2.0
  and 10.0.
- A line that carries the tag but does not match the full pattern is not
  treated as a boundary. Indexing `nil` raises, and the program stops. Here
  that is a `Failure` of `Step`/`Run` and a `None` from `Analyze`.
- Truncation takes `selectedSummaries[0..count-1]`. So `count = 0` reports
  every selected summary, and a negative `count` drops entries from the end
  (`RubyTake`). Only `count >= 1` gives `min(count, m)` rows.

## Model

| member | source | states |
|---|---|---|
| Text.Contains | sqa.rb:130-131 | definition of an unanchored `=~` test: the pattern occurs at some position of the line (used for `/\#/` and `/\# Query_time:/`) |
| Text.MatchesLineStart | sqa.rb:149 | definition of a `^`-anchored `=~` test: the pattern occurs at the start of the string or right after a newline |
| Text.MetadataLineIsComment | sqa.rb:130-131 | every line that the metadata test accepts also passes the outer `#` test, so the metadata branch is reachable only inside the comment branch |
| Text.LineStartOfSingleLine | sqa.rb:149 | for a line whose only newline is at the end (as `each_line` yields it), `^p` matches exactly when the line starts with `p` |
| Text.UseMatchesUser | sqa.rb:149 | `/^use/` also accepts a line starting with `user` |
| QueryRecord.Efficiency | sqa.rb:99-104 | with rows examined positive, the result times rows examined is rows sent; otherwise the result is 1.0; it lies in [0, 1] when 0 <= sent <= examined |
| QueryRecord.QueryData.RowEfficiency | sqa.rb:99-104 | `Query#row_efficiency` on the integer counts: the quotient when rows examined > 0, 1.0 otherwise, within [0, 1] for sane counts |
| QueryRecord.AppendSql | sqa.rb:110-116 | `add_sql` on values: after it the SQL is never `nil`; `AppendSqlExtends` gives its exact value |
| QueryRecord.AppendSqlExtends | sqa.rb:110-116 | `add_sql` keeps the old text as a prefix followed by the two-character separator, ends with the new segment and grows by exactly their lengths; the first segment becomes the whole text |
| QueryRecord.AddAllSnoc | sqa.rb:110-116 | one more `add_sql` after a run of them is the run over the extended list |
| QueryRecord.AddAllAfterText | sqa.rb:110-116 | segments added to existing text append one separator and then the segments joined by the separator |
| QueryRecord.AddAllJoins | sqa.rb:110-116 | a record's SQL is `nil` until a segment arrives, then exactly its segments joined by the separator, in order |
| QueryRecord.AddAllExtends | sqa.rb:110-116 | however many segments are added, the earlier text stays a prefix |
| QueryRecord.Query.constructor | sqa.rb:75-81 | a new query carries the parsed numbers and no SQL text |
| QueryRecord.Query.AddSql | sqa.rb:110-116 | the object's value becomes `AppendSql` of its old text; its numbers do not change |
| Aggregate.Seed | sqa.rb:5-12 | `QuerySummary.new` on values: one call, the query's SQL, and each of the four averages equal to the query's own value of that statistic |
| Aggregate.SummaryData.RowEfficiency | sqa.rb:57-62 | the effective `QuerySummary#row_efficiency`: average rows sent over average rows examined when the latter is positive, 1.0 otherwise |
| Aggregate.SummaryData.IsValid | sqa.rb:64-71 | definition of `is_valid`: the six inclusive comparisons (calls and four averages at least their minimums, row efficiency at most its maximum), joined by and |
| Aggregate.AdjustAverage | sqa.rb:45-47 | the adjusted average times `n` equals the old average times `n - 1` plus the new sample |
| Aggregate.Merge | sqa.rb:49-55 | `add_query`: one more call, the same SQL, and for each of the four statistics average times calls grows by exactly the new sample |
| Aggregate.MergeAll | sqa.rb:5-55 | a summary built from a list of queries has as many calls as queries and the SQL of the first |
| Aggregate.AdjustAverageOfMean | sqa.rb:45-47 | folding a sample into the mean of `n` samples gives the mean of `n + 1` samples |
| Aggregate.MergeAverage | sqa.rb:50-54 | each average is adjusted with the count after the increment |
| Aggregate.MergeAllIsMean | sqa.rb:45-55 | each running average equals the arithmetic mean of that statistic over all merged queries |
| Aggregate.SumOfPermutation | sqa.rb:49-55 | the sum of a statistic does not depend on the order of the queries |
| Aggregate.MergeOrderIndependent | sqa.rb:49-55 | the same queries in any order give the same call count and the same four averages |
| Aggregate.MergeAt | sqa.rb:138-144 | the entry under the query's key is exactly `Merge` of the existing summary (`add_query`) or `Seed` of the query (`QuerySummary.new`), so its four averages are fixed as well as its calls and SQL; every other key is untouched and every summary keeps at least one call |
| Aggregate.IsValidMonotone | sqa.rb:64-71 | `is_valid` is monotone: tighter thresholds never admit a summary that looser ones reject |
| Aggregate.DefaultsAdmit | sqa.rb:170-178 | under the default options (at least one call, zero minimums, efficiency ceiling 1.0), `is_valid` holds exactly for a summary with a call, non-negative averages, and no more rows sent than examined whenever any rows are examined |
| Aggregate.QuerySummary.constructor | sqa.rb:5-12 | a new summary has one call, the query's four numbers as averages and its SQL |
| Aggregate.QuerySummary.AddQuery | sqa.rb:49-55 | the object's new value is `Merge` of its old value and the query |
| LineMachine.IsDirective | sqa.rb:149 | definition of the directive test: the line matches `^SET timestamp` or `^use` at a line start |
| LineMachine.IsMalformed | sqa.rb:131-134 | definition of the crash condition: the line contains `# Query_time:` but the metadata pattern finds no match, so `matches[1]` fails on `nil` |
| LineMachine.Step | sqa.rb:129-156 | one line fails exactly when it carries the metadata tag and does not parse; success keeps every summary counted |
| LineMachine.NoMarkerNoMetadata | sqa.rb:130-131 | a line without `#` never reaches the metadata branch |
| LineMachine.StepGrows | sqa.rb:129-156 | no line removes a summary or lowers a call count, and summaries stay filed under the hash of their own SQL |
| LineMachine.Run | sqa.rb:123-127 | lines processed in order keep every summary counted |
| LineMachine.RunFailsIff | sqa.rb:131-134 | a run stops exactly when one of its lines is a malformed metadata line |
| LineMachine.RunGrows | sqa.rb:123-156 | the growth and keying facts hold for a whole run |
| LineMachine.StepMetadata | sqa.rb:131-134 | a tagged line either stops the run or opens a fresh record with no SQL; the summaries are unchanged and an open record is discarded |
| LineMachine.StepBoundary | sqa.rb:135-146 | any other comment line closes the record; an open query is merged under the hash of its SQL exactly as `MergeAt` says; nothing changes otherwise |
| LineMachine.StepSkips | sqa.rb:147-150 | a line without `#` changes nothing when no record is open or when it is a `SET timestamp` / `use` directive |
| LineMachine.StepAppends | sqa.rb:151-155 | any other line without `#` is appended to the open record's SQL |
| LineMachine.UserLineIsSkipped | sqa.rb:149 | a continuation line such as `user_id = 7` is dropped from the SQL |
| LineMachine.RunAppend | sqa.rb:248-253 | state carries over between files: running two line lists in turn is running their concatenation |
| LineMachine.RunGathersSql | sqa.rb:147-155 | within an open record, a stretch of lines without `#` adds exactly its non-directive lines to the SQL, in order |
| LineMachine.RunTailNotFlushed | sqa.rb:123-156 | there is no flush at end of input: lines after the last comment line never reach the summaries |
| LineMachine.BackToBackRecordsDropped | sqa.rb:131-134 | two records separated only by metadata lines leave the summaries unchanged, and only the last metadata line's query is open |
| LineMachine.CommentBoundedRecordsMerge | sqa.rb:129-156 | two comment-closed records of one statement (query times 1.0 and 3.0, 10 of 10 rows each) give one summary with 2 calls, averages 2.0 / 0.0 / 10.0 / 10.0 and efficiency 1.0 |
| LineMachine.Analyzer.constructor | sqa.rb:248 | the analyzer starts with no open query and no summaries |
| LineMachine.Analyzer.MergeQuery | sqa.rb:138-144 | the summary objects' values become `MergeAt` of their old values; objects stay distinct and counted |
| LineMachine.Analyzer.AddToSummary | sqa.rb:143 | `add_query` on the object under an existing key changes that entry to `Merge` and no other |
| LineMachine.Analyzer.NewSummary | sqa.rb:139-141 | a key not seen before gets a fresh summary object seeded from the query |
| LineMachine.Analyzer.CloseRecord | sqa.rb:136-146 | the open query, if any, is merged; afterwards no query is open |
| LineMachine.Analyzer.OpenRecord | sqa.rb:131-134 | the object state after a tagged line is the one `Step` gives, or unchanged when the line is malformed |
| LineMachine.Analyzer.EndRecord | sqa.rb:135-146 | the object state after any other comment line is the one `Step` gives |
| LineMachine.Analyzer.ContinueRecord | sqa.rb:147-155 | the object state after a line without `#` is the one `Step` gives |
| LineMachine.Analyzer.ProcessLine | sqa.rb:129-156 | the in-place update agrees with `Step` on every line, and reports failure exactly when `Step` fails |
| LineMachine.Analyzer.ProcessFile | sqa.rb:123-127 | after a file's lines the object state is `Run` of the old state; it reports failure exactly when `Run` fails |
| Report.Key | sqa.rb:158-160 | definition of `x.send(method)`: the number a summary is ranked by (calls, one of the four averages, or row efficiency) |
| Report.Insert | sqa.rb:158-160 | inserting into an ascending list keeps it ascending and adds exactly that element |
| Report.SortSummaries | sqa.rb:158-160 | the result is ascending in the chosen attribute and a permutation of the input |
| Report.Reversed | sqa.rb:265-267 | `reverse!`: the same length, element `i` is element `n - 1 - i` of the input |
| Report.ReversedIsDescending | sqa.rb:264-267 | reversing the sorted list gives a descending list of the same summaries |
| Report.RubyTake | sqa.rb:272-274 | `xs[0..count-1]`: the first `min(count, n)` entries for `count >= 1`; for `count <= 0` all but the last `-count` entries (all of them when `count = 0`) |
| Report.AscendingUnique | sqa.rb:158-160 | without ties in the sort attribute, any two ascending arrangements of the same summaries are equal |
| Report.DescendingIsReversedAscending | sqa.rb:264-267 | without ties, a descending arrangement is exactly the reverse of the ascending one |
| Report.EnumerationSize | sqa.rb:258-262 | a duplicate-free list of all valid keys has one entry per valid summary |
| Report.SelectValid | sqa.rb:258-262 | the selection holds every summary that passes `is_valid`, each once, and no other |
| Report.Rank | sqa.rb:258-274 | the report is the first `count` (in Ruby's range sense) of an ordering of exactly the valid summaries, ascending or descending as asked; every reported entry is a stored summary that passes `is_valid` |
| Report.Flatten | sqa.rb:253 | definition of `ARGV.each`: the files' lines one file after another, as one stream for the shared state |
| Report.Analyze | sqa.rb:248-274 | the whole run: no report exactly when some line of some file is a malformed metadata line; otherwise the ranked, truncated valid summaries of `Run` over all files' lines in turn, each one of that run's summaries and each passing `is_valid` |

## Left out

- Option parsing (`OptionParser`, sqa.rb:165-243) is out of scope. `Config.Options` is the record it produces, and `Config.DEFAULTS` holds its defaults.
- File I/O and `each_line` are out of scope: a file is the sequence of lines it yields.
- Printing and formatting of the report (sqa.rb:273-283) are not modelled. The model ends with the list of summaries that would be printed.
- The metadata regular expression and `to_f`/`to_i` are the uninterpreted parameter `parse`. The model therefore does not say which exact spellings match.
- Ruby's `String#hash` is the uninterpreted parameter `hash`. Two different SQL texts may share a key, as they can in Ruby, and then the second is merged into the first group.
- IEEE double arithmetic is modelled as exact `real` arithmetic. Rounding in `adjust_average` is not captured, so `MergeAllIsMean` holds exactly here and only approximately in Ruby.
- Report.SortSummaries: `sort!` is not stable and its tie order is not specified. The model uses one particular sort (insertion sort), but `Analyze` and `Rank` promise only "ordered and a permutation", so the tie order stays open.
- Report.SelectValid: the iteration order of a Ruby `Hash` (insertion order) is not modelled. The method picks keys in an unspecified order and records it in `keys`.
- The `row_efficiency` defined at sqa.rb:34-39 is not modelled: the one at sqa.rb:57-62 replaces it before it can be called.
- `Query#to_s` and the plain attribute readers are not modelled separately. They are the fields of `QueryData` and `SummaryData`.
- A metadata line that does not parse stops the model's run with no partial report, as the exception does in Ruby. The Ruby message and stack trace are not modelled.
- Report.Analyze: lines are taken as already-decoded text (`seq<char>`). In Ruby, a line whose bytes are not valid in its encoding (for example binary BLOB values in a slow log) makes the `=~` match at sqa.rb:130 raise `ArgumentError`, and the run ends with no output. That failure is not modelled, so `Analyze` returns `None` only for a malformed metadata line.
