# Slow-query analysis: problem detection and optimization suggestions

This project models the decision logic of a StarRocks slow-query analyzer
in Dafny and proves properties of the model.

- **The query record** (`SlowQueryInfo`) carries the query text and the
  execution metrics.
- **The problem detector** (`QueryAnalyzer`) runs four passes over one
  record: execution time, scan volume, the SQL text, and the optional
  execution plan. Their problems come out in that order.
- **The suggestion generator** (`OptimizationSuggester`) maps each problem
  to at most one suggestion. Seven of the fourteen problem types have a
  builder.
- **The collector's pure parts**: the severity bucket, the rendering of
  small scan counts, the statistics over a list of records, and the
  pattern filter.

Every regular expression the core uses is written out as a scan over the
text. Each scan keeps Python `re`'s leftmost, greedy or lazy semantics, and
`re.IGNORECASE` where the source gives it. The expressions are `\bOR\b`,
`LIKE\s+['"]%[^%]`, `KW\s+([^;]+)`, `[A-Z_]+\([^)]+\)`,
`FROM\s*\([^)]+SELECT`, `(COUNT|SUM|AVG|MAX|MIN)\(`, `KW\s+([^\s,;]+)`,
`\b([a-zA-Z_][a-zA-Z0-9_]*)\s*[=<>!]`, `\b([a-zA-Z_][a-zA-Z0-9_]*)\b`, `ON\s+([^;]+?)(?:JOIN|WHERE|GROUP BY|ORDER BY|$)`, the
split on `ORDER BY|GROUP BY`, and the `re.sub` of the LIKE rewrite.

Where the source changes a list step by step, the model is a method: each
pass, `analyze_query`, `generate_suggestions`, each column extractor, the
table-name loops and the statistics loop. Each method is proved equal to a
specification function, or to the properties the source promises. Lemmas
then state what those functions mean.

Modules:

- `Util`: `Option`, duplicate-free lists, `list(set(...))`, `str.join`.
- `Text`: character classes, `str.upper`, `str.strip`, `in`, and
  case-insensitive matching.
- `Patterns`: the searches the analyzer and the suggester share, and table
  names.
- `SlowQuery`: the record, severity, `str(int)`, statistics and the filter.
- `QueryAnalyzer`: the detector.
- `OptimizationSuggester`: the suggestion generator.

## Model

| member | source | states |
|---|---|---|
| Util.Dedup | query_analyzer.py:330-331 | `list(set(xs))`: no duplicates, exactly the input's elements, never longer than the input |
| Util.Join | optimization_suggester.py:127 | `sep.join(parts)` is as long as the parts plus one separator per gap, and starts with the first part |
| Util.JoinAppend | optimization_suggester.py:138 | joining one more part appends the separator and that part |
| Util.LeftmostStartsDisjoint | query_analyzer.py:320 | the matches `re.findall` takes do not overlap: each ends at or before the next one starts |
| Util.LeftmostStartsComplete | query_analyzer.py:320 | every match the text holds is taken, or starts inside a match already taken |
| Util.LeftmostStartsNone | query_analyzer.py:320 | a text with no match gives no match |
| Util.LeftmostGroupsAtStarts | query_analyzer.py:320 | `re.findall` returns, in order, the groups of the matches taken, one per match |
| Text.Upper | query_analyzer.py:165 | `upper()` keeps the length and upper-cases each character in place |
| Text.ContainsFound | query_analyzer.py:171 | `p in s` holds exactly when `p` occurs at some position |
| Text.MatchesAtUpperText | query_analyzer.py:230 | on upper-cased text, case-insensitive matching of an upper-case keyword is plain matching |
| Text.StripBy | query_analyzer.py:273 | `strip()` drops the stripped characters at both ends: the result is empty or starts and ends with a kept character |
| Text.StripByExact | query_analyzer.py:323 | `strip(chars)` keeps one contiguous piece of the text, and everything before and after that piece is a stripped character |
| Text.DropWhileRemovesLeadingRun | query_analyzer.py:273 | the left strip removes exactly the leading run of stripped characters |
| Text.DropWhileEndRemovesTrailingRun | query_analyzer.py:273 | the right strip removes only stripped characters |
| Text.StripNewlines | optimization_suggester.py:125-136 | `strip()` of a template written between two newlines gives the template without those newlines |
| Text.StripFinalNewline | optimization_suggester.py:186-201 | `strip()` of a template that ends with one newline drops exactly that newline |
| Patterns.ClauseSpanAtShape | query_analyzer.py:201 | a match of `KW\s+([^;]+)` is the keyword, at least one whitespace character, then a non-empty `;`-free group that runs to the next `;` or the end |
| Patterns.ClauseSpanFromLeftmost | query_analyzer.py:201 | `re.search` gives the leftmost match; when it gives nothing, no position matches |
| Patterns.KeywordClauseShape | optimization_suggester.py:282-284 | group 1 of the search exists exactly when a match exists; it is non-empty and `;`-free, and the keyword matches nowhere before it |
| Patterns.KeywordTargetsExactly | query_analyzer.py:319-321 | the k-th `re.findall` group of `KW\s+([^\s,;]+)` is the group of the k-th match taken; the matches do not overlap; every match is taken or lies inside one taken |
| Patterns.KeywordTargetsAreTargets | query_analyzer.py:320-321 | every `re.findall` group of `KW\s+([^\s,;]+)` is a non-empty run of characters that are not whitespace, `,` or `;` |
| Patterns.StripTableQuotes | query_analyzer.py:323 | `strip('`"[]')` leaves no quote character at either end |
| Patterns.StripTableQuotesExact | query_analyzer.py:323 | the stripped name is the piece of the match left once the quote characters at both ends are gone |
| Patterns.CleanTable | query_analyzer.py:323-325 | a match is kept, as its stripped text, exactly when it is non-empty after stripping and is not WHERE, ON, SELECT or AS in any case |
| Patterns.TableNames | query_analyzer.py:319-331 | the table names have no duplicates, are exactly the kept matches after the five keywords, and each is a valid name |
| Patterns.NoTablesInBlankText | query_analyzer.py:318-321 | blank text holds no table name |
| Patterns.CleanMatches | query_analyzer.py:321-325 | the loop over one keyword's matches keeps exactly the cleaned names, in order |
| Patterns.CollectTableNames | query_analyzer.py:318-331 | the nested loops over keywords and matches, then `list(set(...))`, give exactly the table names |
| SlowQuery.SeverityOf | slow_query_collector.py:61-70 | CRITICAL iff at least 10 s, HIGH iff in [5, 10), MEDIUM iff in [1, 5), LOW iff below 1 s |
| SlowQuery.SeverityMonotone | slow_query_collector.py:61-70 | a longer execution time never gives a lower severity |
| SlowQuery.NatDecimalRoundTrip | slow_query_collector.py:48 | `str(n)` of a natural number is a non-empty digit string with no leading zero, and reads back as `n` |
| SlowQuery.DecimalRoundTrip | slow_query_collector.py:48 | `int(str(n)) == n` for every integer |
| SlowQuery.ScanRowsFormatted | slow_query_collector.py:41-48 | below 10 000 the count is rendered as `str(n)` and reads back as itself; from 10 000 it is scaled by 10^4; from 10^8 it is scaled by 10^8 |
| SlowQuery.ScanRowsText | slow_query_collector.py:41-48 | the printed text: the count itself below 10 000; otherwise the two-decimal rendering of the count over 10^4 (a value in [1, 10 000)) followed by ` 万`, or over 10^8 (at least 1) followed by ` 亿` |
| SlowQuery.ScanBytesText | slow_query_collector.py:50-59 | `str(n) + " B"` below 1024, reading back as the count; otherwise the two-decimal rendering in KB, MB or GB, the largest unit the count reaches, scaled to at least 1 and, except in GB, below 1024 |
| SlowQuery.MaxExecutionTime | slow_query_collector.py:190 | `max(...)` is at least every record's time and equal to some record's time |
| SlowQuery.SeverityCountsAddUp | slow_query_collector.py:194-197 | the four bucket counts add up to the number of records |
| SlowQuery.HistogramTotal | slow_query_collector.py:194-197 | the counts of a severity histogram add up to the number of records |
| SlowQuery.HistogramStep | slow_query_collector.py:195-197 | `d[s] = d.get(s, 0) + 1` turns the histogram of the records seen into the histogram with one record more |
| SlowQuery.CountSeverities | slow_query_collector.py:194-197 | the loop builds the severity histogram: a key for exactly the buckets that occur, each with its count, all counts positive |
| SlowQuery.GetQueryStatistics | slow_query_collector.py:169-206 | no records give the zero statistics; otherwise the count, the two sums, the maximum time and the histogram, whose counts add up to the count |
| SlowQuery.FilterByPattern | slow_query_collector.py:208-225 | every kept record's upper-cased text contains the upper-cased pattern; never more records than given |
| SlowQuery.FilterMembership | slow_query_collector.py:219-223 | a record is kept exactly when it is given and matches |
| SlowQuery.FilterAppend | slow_query_collector.py:220-223 | the filter of a concatenation is the concatenation of the filters, so the input order is kept |
| SlowQuery.FilterIdempotent | slow_query_collector.py:219-223 | filtering twice with the same pattern is filtering once |
| SlowQuery.FilterEmptyPatternKeepsAll | slow_query_collector.py:219-223 | the empty pattern keeps every record |
| QueryAnalyzer.NewThresholds | query_analyzer.py:71-73 | each scan limit comes from the configuration when the key is present, else it is 10 000 000 rows or 1 GiB |
| QueryAnalyzer.ExecutionTimeProblems | query_analyzer.py:103-124 | the time pass reports at most one problem, exactly for CRITICAL and HIGH queries, as a FULL_TABLE_SCAN with the query's own severity |
| QueryAnalyzer.AnalyzeExecutionTime | query_analyzer.py:103-124 | the pass's appends give the time pass's problems |
| QueryAnalyzer.ScanDataProblems | query_analyzer.py:126-160 | the scan pass reports at most three problems |
| QueryAnalyzer.ScanDataFindings | query_analyzer.py:126-160 | one TOO_MANY_ROWS per exceeded limit (strictly above), one MEDIUM MEMORY_INTENSIVE above 512 MiB, nothing else, in the order rows, bytes, memory; the rows and bytes problems are HIGH and their evidence is `扫描行数: ` or `扫描字节数: ` with the exact count |
| QueryAnalyzer.AnalyzeScanData | query_analyzer.py:126-160 | the three guarded appends give the scan pass's problems |
| QueryAnalyzer.HasStandaloneOrFound | query_analyzer.py:181 | the search for `\bOR\b` succeeds exactly when OR stands between non-word characters somewhere |
| QueryAnalyzer.HasLikePrefixWildcardFound | query_analyzer.py:191 | the search succeeds exactly when LIKE, whitespace, a quote, `%` and a non-`%` occur somewhere |
| QueryAnalyzer.HasFunctionCallFound | query_analyzer.py:204 | the search succeeds exactly when a name character, `(`, a non-`)` and a later `)` occur somewhere |
| QueryAnalyzer.HasFromSubqueryFound | query_analyzer.py:230 | the search succeeds exactly when FROM, optional whitespace, `(` and a SELECT before the next `)` occur somewhere |
| QueryAnalyzer.CheckProblem | query_analyzer.py:170-237 | the problem of the check at position k has rank k in the pass's check order |
| QueryAnalyzer.ChecksListIsPartialChecks | query_analyzer.py:170-237 | the six guarded appends are the fold over the six checks in order |
| QueryAnalyzer.PartialChecksCount | query_analyzer.py:170-237 | among the first n checks, each check that fires contributes its problem exactly once |
| QueryAnalyzer.PartialChecksOrdered | query_analyzer.py:170-237 | the first n checks' problems come in check order |
| QueryAnalyzer.SqlStructureProblems | query_analyzer.py:167-168 | text the parser rejects (blank text) reports no structure problem |
| QueryAnalyzer.SqlStructureCount | query_analyzer.py:162-242 | the text pass reports a type once when the text parses and that type's check fires on the upper-cased text, otherwise never |
| QueryAnalyzer.SqlStructureOrdered | query_analyzer.py:162-242 | the text pass's problems follow the order of its checks, each type at most once, only of its six types |
| QueryAnalyzer.WhereClauseImpliesWhere | query_analyzer.py:201-214 | a `WHERE\s+...` match on upper-cased text means the text contains WHERE |
| QueryAnalyzer.MissingWhereExcludesWhereChecks | query_analyzer.py:181-218 | a query flagged for a missing WHERE is never also flagged for OR in WHERE or for a function in WHERE |
| QueryAnalyzer.AnalyzeSqlStructure | query_analyzer.py:162-242 | nothing when the parse raises, otherwise the six checks' problems |
| QueryAnalyzer.CheckStructure | query_analyzer.py:170-198 | the first three checks' appends, followed by the last three |
| QueryAnalyzer.CheckClauses | query_analyzer.py:200-237 | the function-in-WHERE, missing-WHERE and subquery checks append in that order |
| QueryAnalyzer.ExecutionPlanProblems | query_analyzer.py:244-261 | the plan pass reports one MEDIUM FULL_TABLE_SCAN exactly when the upper-cased plan text contains OLAP_SCAN or FULL_SCAN, and nothing else |
| QueryAnalyzer.AnalyzeExecutionPlan | query_analyzer.py:244-261 | the guarded append gives the plan pass's problems |
| QueryAnalyzer.AnalyzeQuery | query_analyzer.py:75-101 | the problems are the four passes' problems in pass order; the plan pass runs only for a non-empty plan |
| QueryAnalyzer.DetectedProblems | query_analyzer.py:86-124 | a query of at least 10 s has the CRITICAL time problem first, one of 5 to 10 s the HIGH one, each with the time in its texts |
| QueryAnalyzer.TooManyRowsReported | query_analyzer.py:75-160 | over all passes, one TOO_MANY_ROWS per exceeded scan limit, none from any other pass |
| QueryAnalyzer.QuietQueryJudgedOnText | query_analyzer.py:75-101 | a query under all limits, under 5 s and without a plan is judged by its text alone; blank text reports nothing |
| QueryAnalyzer.FirstKind | query_analyzer.py:275-294 | a kind whose keyword starts the text; OTHER iff no keyword starts it |
| QueryAnalyzer.FirstKindIsFirst | query_analyzer.py:275-294 | the kind found is the first in test order whose keyword starts the text: no earlier kind matches |
| QueryAnalyzer.GetQueryType | query_analyzer.py:263-294 | the kind whose keyword starts the stripped, upper-cased text; OTHER iff none does |
| QueryAnalyzer.StatementKeywordsExclusive | query_analyzer.py:275-294 | no text starts with two of the nine keywords, so the order of the tests does not change the answer |
| QueryAnalyzer.ExtractTables | query_analyzer.py:296-331 | no names for text the parser rejects; otherwise the names have no duplicates, are exactly the kept matches in the upper-cased text, and are valid names |
| OptimizationSuggester.IdentTokensExactly | optimization_suggester.py:301 | `re.findall(r'\b([a-zA-Z_][a-zA-Z0-9_]*)\b')` gives exactly the whole words that start with a letter or `_` |
| OptimizationSuggester.IdentTokensAreIdentifiers | optimization_suggester.py:301 | each such word is an identifier |
| OptimizationSuggester.IdentOpTokensExactly | optimization_suggester.py:289 | `\b([a-zA-Z_][a-zA-Z0-9_]*)\s*[=<>!]` gives exactly the whole words followed, after optional whitespace, by a comparison character |
| OptimizationSuggester.IdentOpTokensAreIdentifiers | optimization_suggester.py:289 | each compared word is an identifier |
| OptimizationSuggester.SeparatorIndex | optimization_suggester.py:286 | the split point is the end of the text or a place where ORDER BY or GROUP BY starts |
| OptimizationSuggester.SeparatorIndexIsFirst | optimization_suggester.py:286 | the split point is the first ORDER BY or GROUP BY, in any case |
| OptimizationSuggester.SplitHeadHasNoSeparator | optimization_suggester.py:286 | `re.split(...)[0]` is the prefix of the clause up to its first ORDER BY or GROUP BY, or the whole clause when there is none |
| OptimizationSuggester.WhereColumnsExactly | optimization_suggester.py:278-292 | no WHERE clause gives no columns; otherwise the columns are exactly the compared words of the clause's prefix that ends at its first ORDER BY or GROUP BY, or at its end |
| OptimizationSuggester.ExtractWhereColumns | optimization_suggester.py:278-292 | the method returns the WHERE columns |
| OptimizationSuggester.OrderColumnsExactly | optimization_suggester.py:294-304 | no ORDER BY clause gives no columns; otherwise the columns are exactly the clause's words |
| OptimizationSuggester.ExtractOrderColumns | optimization_suggester.py:294-304 | the method returns the ORDER BY columns |
| OptimizationSuggester.TerminatorAt | optimization_suggester.py:309 | a terminator (JOIN, WHERE, GROUP BY, ORDER BY, end of text) lies within the text |
| OptimizationSuggester.FirstTerminatorIsFirst | optimization_suggester.py:309 | the lazy group stops at the first terminator: none lies before it |
| OptimizationSuggester.JoinMatchAt | optimization_suggester.py:309 | a match is ON, whitespace, then a non-empty group that stops before any `;` at a terminator |
| OptimizationSuggester.JoinGroupAfterShape | optimization_suggester.py:309 | after `ON\s+`, the group starts where the whitespace ends or is its last character; no terminator lies strictly inside it; the search goes on right after the terminator that ends it |
| OptimizationSuggester.JoinMatchAtShape | optimization_suggester.py:309 | only whitespace lies between ON and the group, no terminator lies strictly inside the group, and the search goes on right after the terminator that ends it |
| OptimizationSuggester.JoinClausesExactly | optimization_suggester.py:309 | the k-th `re.findall` group is the group of the k-th match taken; each search resumes at or before the next match; every match is taken or lies inside one taken |
| OptimizationSuggester.JoinClausesShape | optimization_suggester.py:309 | every `re.findall` group of the ON pattern is non-empty and `;`-free |
| OptimizationSuggester.ClauseTokensExactly | optimization_suggester.py:310-313 | the join columns are exactly the words of the groups |
| OptimizationSuggester.ClauseTokensAreIdentifiers | optimization_suggester.py:310-313 | each join column is an identifier |
| OptimizationSuggester.ExtractJoinColumns | optimization_suggester.py:306-315 | the loop over the groups returns the join columns |
| OptimizationSuggester.ExtractTableNames | optimization_suggester.py:317-330 | no duplicates, exactly the kept matches after the five keywords (case-insensitive), each a valid name |
| OptimizationSuggester.IndexColumnsUnion | optimization_suggester.py:111-123 | the index columns have no duplicates and are the union of the WHERE, ORDER BY and JOIN columns, or only the placeholder when all three are empty |
| OptimizationSuggester.IndexColumnsAreIdentifiers | optimization_suggester.py:111-123 | every index column is an identifier or the placeholder |
| OptimizationSuggester.StripIndexTemplate | optimization_suggester.py:125-136 | stripping the CREATE INDEX template removes only its two surrounding newlines, whatever the column list |
| OptimizationSuggester.IndexSuggestion | optimization_suggester.py:106-139 | a HIGH INDEX suggestion for the query, whose statement is CREATE INDEX over the index columns joined by `, `, without the template's surrounding newlines |
| OptimizationSuggester.StripSelectTemplate | optimization_suggester.py:147-159 | `strip()` leaves the SELECT * replacement unchanged, whatever the table |
| OptimizationSuggester.SpecificColumnsSuggestion | optimization_suggester.py:141-162 | a MEDIUM QUERY suggestion for the query whose statement is the SELECT * replacement naming the chosen table |
| OptimizationSuggester.SpecificColumnsNamesTable | optimization_suggester.py:141-162 | the table named is one of the query's table names, or `your_table` when there is none |
| OptimizationSuggester.LikeRewriteNoLonger | optimization_suggester.py:168-173 | `re.sub` never lengthens the text |
| OptimizationSuggester.LikeRewriteCopiesUpTo | optimization_suggester.py:168-173 | `re.sub` copies a stretch of text in which the pattern matches nowhere character for character |
| OptimizationSuggester.LikeRewriteUpToMatch | optimization_suggester.py:168-173 | `re.sub` copies the text before the first match, writes `LIKE '` for the match, and goes on right after the match's `%` |
| OptimizationSuggester.LikeRewriteCopies | optimization_suggester.py:168-173 | `re.sub` copies the text unchanged when the pattern matches nowhere |
| OptimizationSuggester.LikeRewriteShortens | optimization_suggester.py:168-173 | one match makes the result strictly shorter |
| OptimizationSuggester.LikeRewriteUnchanged | optimization_suggester.py:168-173 | the rewrite leaves the text unchanged exactly when the pattern matches nowhere |
| OptimizationSuggester.LikeSuggestion | optimization_suggester.py:164-184 | a HIGH QUERY suggestion for the query whose statement is the rewritten query: never longer, and equal to the query exactly when the pattern matches nowhere |
| OptimizationSuggester.LikeProblemIsRewritten | optimization_suggester.py:164-184 | when the analyzer's LIKE check fires on the upper-cased text, the suggested statement differs from the query |
| OptimizationSuggester.FixedStatementsStripped | optimization_suggester.py:186-276 | the OR, function and CTE templates each end with one newline, which `strip()` removes and nothing else |
| OptimizationSuggester.OrSuggestion | optimization_suggester.py:186-206 | a LOW QUERY suggestion for the query |
| OptimizationSuggester.FunctionSuggestion | optimization_suggester.py:208-226 | a MEDIUM QUERY suggestion for the query |
| OptimizationSuggester.StripRowsTemplate | optimization_suggester.py:232-247 | `strip()` removes only the final newline of the row-reduction template, whatever the count shown |
| OptimizationSuggester.RowReductionSuggestion | optimization_suggester.py:228-250 | a HIGH QUERY suggestion for the query whose description and statement show the count as `scan_rows_formatted` prints it |
| OptimizationSuggester.CteOrJoinSuggestion | optimization_suggester.py:252-276 | a MEDIUM QUERY suggestion for the query |
| OptimizationSuggester.SuggestionFor | optimization_suggester.py:68-104 | a suggestion exactly for the seven handled types, carrying the query text, with each type's fixed priority and category |
| OptimizationSuggester.SuggestionsFollowProblems | optimization_suggester.py:59-66 | one suggestion per handled problem, in the problems' order; the k-th is built for the k-th handled problem |
| OptimizationSuggester.SuggestionsKeepQueryText | optimization_suggester.py:59-66 | every suggestion refers to the query's own text |
| OptimizationSuggester.GenerateSuggestions | optimization_suggester.py:42-66 | the loop over the problems, appending each built suggestion, returns the suggestions for the problems |

## Left out

- The data source is not part of this model: `collect_slow_queries`, the connector and the report generator. So are logging (`logger.warning` and `logger.info`) and `group_by_table`.
- `sqlparse` is not part of this model. `sqlparse.parse(text)[0]` raises only when the text holds no statement, that is when it is blank, so the parse is modelled as `ParseFails` (blank text). The token loop in `extract_tables` (query_analyzer.py:312-315) does nothing and is left out.
- Floating-point formatting (`:.2f`) is not modelled: a parameter `twoDecimals: real -> string` stands for it wherever a number is printed with two decimals (the analyzer's time, row, byte and memory texts, the index suggestion's description and the row-reduction texts). Execution times and memory are `real` divisions, so the model has no rounding.
- `SlowQuery.ScanRowsFormatted`: the two scaled branches (`万`, `亿`) are kept as the count they scale. `FormattedText` prints them through `twoDecimals`, as `scan_rows_formatted` does.
- `execution_time_ms` is left out. Nothing in the core reads it.
- `SlowQuery.GetQueryStatistics`: does not compute `avg_execution_time`, which is a floating-point division. Its `severity_distribution` is a `map`, which has no order, so the insertion order of the Python dict (first occurrence of each severity) is not kept.
- Timestamps are `int`s. The execution plan is given as its entry count and its `str()` rendering.
- `str.upper()` and the word characters of `\w` and `\b` are modelled on ASCII only. Non-ASCII letters are neither upper-cased nor word characters. The special folds of `re.IGNORECASE` for non-ASCII characters are left out. `\s` and `str.strip()` use Python's full whitespace set.
- `Util.Dedup`: Python's `set` order is not specified. The model keeps the last occurrence of each name, but the contracts state only that there are no duplicates and that the elements are the same. `SpecificColumnsNamesTable` therefore states only that the named table is one of the query's table names.
- The `table_schema` argument of `generate_suggestions`, and the suggester's `config`, are never read by the source, and are left out.
- The fixed statements of the OR, function and CTE suggestions are written without their final newline, which `FixedStatementsStripped` shows is all `strip()` removes.

## Notes on what the code does

- query_analyzer.py:141-148: the bytes check also reports TOO_MANY_ROWS, so a query under the rows limit can still have that type (`TooManyRowsReported`).
- query_analyzer.py:181: the OR check tests WHERE as a plain substring of the upper-cased text, so `NOWHERE` counts too.
- query_analyzer.py:230: the subquery pattern ends the parenthesised part at the first `)`, not at the matching one.
- optimization_suggester.py:294-304: the ORDER BY columns keep the direction words (`ASC`, `DESC`) and every other word of the clause; the comment at line 300 says direction is removed, the code keeps it.
- optimization_suggester.py:309: the JOIN pattern finds `ON` anywhere, also inside a word such as `JSON` or `CONDITION`, because the pattern has no `\b`.
