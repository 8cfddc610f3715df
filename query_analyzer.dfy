/**
 * The query analyzer: four passes over a slow query (execution time,
 * scan volume, SQL text, execution plan) that each report a list of
 * problems, the statement classifier and the table-name extractor.
 *
 * Each pass is given twice: as a function that says which problems it
 * reports, and as the method with the source's step-by-step appends,
 * proved equal to the function.
 */
module QueryAnalyzer {
  import opened Util
  import opened Text
  import opened Patterns
  import opened SlowQuery

  datatype QueryType = Select | Insert | Update | Delete | Create | Alter | Drop | Show | Explain | Other

  datatype ProblemType =
    | FullTableScan
    | NoIndex
    | TooManyRows
    | MemoryIntensive
    | JoinInefficient
    | SubqueryInefficient
    | OrderByExpensive
    | GroupByExpensive
    | LargeResultSet
    | NoWhereClause
    | SelectStar
    | OrCondition
    | LikePrefixWildcard
    | FunctionInWhere

  /** One detected problem; `severity` is one of the four levels. */
  datatype QueryProblem = QueryProblem(
    problemType: ProblemType,
    severity: Severity,
    description: string,
    suggestion: string,
    evidence: string)

  /** The analyzer's configuration: the two scan limits. */
  datatype Thresholds = Thresholds(maxScanRows: int, maxScanBytes: int)

  const DefaultMaxScanRows: int := 10000000
  const DefaultMaxScanBytes: int := 1073741824

  /** The memory use above which a query is memory intensive (512 MB). */
  const MemoryLimit: int := 536870912

  /** `QueryAnalyzer(config)`: each limit from the config when given there, otherwise the default. */
  function NewThresholds(config: Option<map<string, int>>): (th: Thresholds)
    ensures config.None? ==> th == Thresholds(DefaultMaxScanRows, DefaultMaxScanBytes)
    ensures config.Some? && "max_scan_rows" in config.value ==> th.maxScanRows == config.value["max_scan_rows"]
    ensures config.Some? && "max_scan_rows" !in config.value ==> th.maxScanRows == DefaultMaxScanRows
    ensures config.Some? && "max_scan_bytes" in config.value ==> th.maxScanBytes == config.value["max_scan_bytes"]
    ensures config.Some? && "max_scan_bytes" !in config.value ==> th.maxScanBytes == DefaultMaxScanBytes
  {
    var c := if config.Some? then config.value else map[];
    Thresholds(
      if "max_scan_rows" in c then c["max_scan_rows"] else DefaultMaxScanRows,
      if "max_scan_bytes" in c then c["max_scan_bytes"] else DefaultMaxScanBytes)
  }

  /** How many problems of type `t` the list holds. */
  function CountType(ps: seq<QueryProblem>, t: ProblemType): nat {
    if ps == [] then 0
    else (if ps[0].problemType == t then 1 else 0) + CountType(ps[1..], t)
  }

  lemma {:induction false} CountTypeAppend(a: seq<QueryProblem>, b: seq<QueryProblem>, t: ProblemType)
    ensures CountType(a + b, t) == CountType(a, t) + CountType(b, t)
  {
    if a == [] {
      assert a + b == b;
    } else {
      assert (a + b)[0] == a[0];
      assert (a + b)[1..] == a[1..] + b;
      CountTypeAppend(a[1..], b, t);
    }
  }

  lemma {:induction false} CountTypeAbsent(ps: seq<QueryProblem>, t: ProblemType)
    requires forall i | 0 <= i < |ps| :: ps[i].problemType != t
    ensures CountType(ps, t) == 0
  {
    if ps != [] {
      CountTypeAbsent(ps[1..], t);
    }
  }

  /** `[p]` when `c` holds, otherwise nothing: one guarded `append`. */
  function When(c: bool, p: QueryProblem): (r: seq<QueryProblem>)
    ensures |r| <= 1
  {
    if c then [p] else []
  }

  lemma WhenCount(c: bool, p: QueryProblem, t: ProblemType)
    ensures CountType(When(c, p), t) == if c && p.problemType == t then 1 else 0
  {
    if c {
      assert When(c, p)[1..] == [];
    }
  }

  // ----- The execution-time pass -----

  // `twoDecimals` stands for Python's two-decimal rendering `f"{x:.2f}"`,
  // which the model takes as a parameter.

  /** The problem reported for ten seconds or more. */
  function VeryLongRunning(q: SlowQueryInfo, twoDecimals: real -> string): QueryProblem {
    QueryProblem(
      FullTableScan, Critical, "查询执行时间过长: " + twoDecimals(q.executionTime) + " 秒",
      "检查是否有全表扫描，考虑添加索引或优化查询逻辑", "执行时间: " + twoDecimals(q.executionTime) + "s")
  }

  /** The problem reported for five to ten seconds. */
  function LongRunning(q: SlowQueryInfo, twoDecimals: real -> string): QueryProblem {
    QueryProblem(
      FullTableScan, High, "查询执行时间较长: " + twoDecimals(q.executionTime) + " 秒",
      "分析查询计划，检查是否需要优化", "执行时间: " + twoDecimals(q.executionTime) + "s")
  }

  /**
   * The time pass agrees with the record's own severity: it reports
   * exactly the CRITICAL and HIGH queries, under that severity, as a
   * full table scan.
   */
  function ExecutionTimeProblems(q: SlowQueryInfo, twoDecimals: real -> string): (r: seq<QueryProblem>)
    ensures |r| <= 1
    ensures r != [] <==> Rank(SeverityOf(q)) >= 2
    ensures r != [] ==> r[0].severity == SeverityOf(q) && r[0].problemType == FullTableScan
  {
    if q.executionTime >= 10.0 then [VeryLongRunning(q, twoDecimals)]
    else if q.executionTime >= 5.0 then [LongRunning(q, twoDecimals)]
    else []
  }

  method AnalyzeExecutionTime(q: SlowQueryInfo, twoDecimals: real -> string) returns (problems: seq<QueryProblem>)
    ensures problems == ExecutionTimeProblems(q, twoDecimals)
  {
    problems := [];
    if q.executionTime >= 10.0 {
      problems := problems + [VeryLongRunning(q, twoDecimals)];
    } else if q.executionTime >= 5.0 {
      problems := problems + [LongRunning(q, twoDecimals)];
    }
  }

  // ----- The scan-volume pass -----

  /** The fixed part of the rows and bytes evidence, which ends with the exact count. */
  const RowsEvidenceHead := "扫描行数: "
  const BytesEvidenceHead := "扫描字节数: "

  function RowsProblem(q: SlowQueryInfo, twoDecimals: real -> string): QueryProblem {
    QueryProblem(
      TooManyRows, High, "扫描行数过多: " + FormattedText(ScanRowsFormatted(q.scanRows), twoDecimals),
      "考虑添加合适的 WHERE 条件或索引，减少扫描行数", RowsEvidenceHead + Decimal(q.scanRows))
  }

  function BytesProblem(q: SlowQueryInfo, twoDecimals: real -> string): QueryProblem {
    QueryProblem(
      TooManyRows, High, "扫描数据量过大: " + ScanBytesFormatted(q.scanBytes, twoDecimals),
      "只查询需要的列，避免 SELECT *，考虑分区裁剪", BytesEvidenceHead + Decimal(q.scanBytes))
  }

  function MemoryProblem(q: SlowQueryInfo, twoDecimals: real -> string): QueryProblem {
    var megabytes := twoDecimals(q.memoryUsed as real / 1048576.0) + " MB";
    QueryProblem(
      MemoryIntensive, Medium, "内存使用较高: " + megabytes,
      "考虑增加内存限制、优化查询或调整执行引擎参数", "内存使用: " + megabytes)
  }

  function ScanDataProblems(q: SlowQueryInfo, th: Thresholds, twoDecimals: real -> string): (r: seq<QueryProblem>)
    ensures |r| <= 3
  {
    When(q.scanRows > th.maxScanRows, RowsProblem(q, twoDecimals))
    + When(q.scanBytes > th.maxScanBytes, BytesProblem(q, twoDecimals))
    + When(q.memoryUsed > MemoryLimit, MemoryProblem(q, twoDecimals))
  }

  /**
   * The scan pass reports one TOO_MANY_ROWS problem per exceeded limit
   * (rows, bytes; strictly above), one MEDIUM MEMORY_INTENSIVE problem
   * above 512 MB, and nothing else, in the order rows, bytes, memory; the
   * rows and bytes problems are HIGH and carry the exact count.
   */
  lemma ScanDataFindings(q: SlowQueryInfo, th: Thresholds, twoDecimals: real -> string)
    ensures CountType(ScanDataProblems(q, th, twoDecimals), TooManyRows)
            == (if q.scanRows > th.maxScanRows then 1 else 0) + (if q.scanBytes > th.maxScanBytes then 1 else 0)
    ensures CountType(ScanDataProblems(q, th, twoDecimals), MemoryIntensive) == if q.memoryUsed > MemoryLimit then 1 else 0
    ensures |ScanDataProblems(q, th, twoDecimals)| == CountType(ScanDataProblems(q, th, twoDecimals), TooManyRows)
                                                  + CountType(ScanDataProblems(q, th, twoDecimals), MemoryIntensive)
    ensures q.scanRows > th.maxScanRows ==>
              var p := ScanDataProblems(q, th, twoDecimals)[0];
              p.problemType == TooManyRows && p.severity == High && p.evidence == RowsEvidenceHead + Decimal(q.scanRows)
    ensures q.scanBytes > th.maxScanBytes ==>
              var p := ScanDataProblems(q, th, twoDecimals)[if q.scanRows > th.maxScanRows then 1 else 0];
              p.problemType == TooManyRows && p.severity == High && p.evidence == BytesEvidenceHead + Decimal(q.scanBytes)
    ensures q.memoryUsed > MemoryLimit ==>
              var p := ScanDataProblems(q, th, twoDecimals)[|ScanDataProblems(q, th, twoDecimals)| - 1];
              p.problemType == MemoryIntensive && p.severity == Medium
    ensures q.scanRows <= th.maxScanRows && q.scanBytes <= th.maxScanBytes && q.memoryUsed <= MemoryLimit
            ==> ScanDataProblems(q, th, twoDecimals) == []
  {
    var rows := When(q.scanRows > th.maxScanRows, RowsProblem(q, twoDecimals));
    var bytes := When(q.scanBytes > th.maxScanBytes, BytesProblem(q, twoDecimals));
    var memory := When(q.memoryUsed > MemoryLimit, MemoryProblem(q, twoDecimals));
    assert ScanDataProblems(q, th, twoDecimals) == rows + bytes + memory;
    CountTypeAppend(rows + bytes, memory, TooManyRows);
    CountTypeAppend(rows, bytes, TooManyRows);
    CountTypeAppend(rows + bytes, memory, MemoryIntensive);
    CountTypeAppend(rows, bytes, MemoryIntensive);
  }

  method AnalyzeScanData(q: SlowQueryInfo, th: Thresholds, twoDecimals: real -> string) returns (problems: seq<QueryProblem>)
    ensures problems == ScanDataProblems(q, th, twoDecimals)
  {
    problems := [];
    if q.scanRows > th.maxScanRows {
      problems := problems + [RowsProblem(q, twoDecimals)];
    }
    if q.scanBytes > th.maxScanBytes {
      problems := problems + [BytesProblem(q, twoDecimals)];
    }
    if q.memoryUsed > MemoryLimit {
      problems := problems + [MemoryProblem(q, twoDecimals)];
    }
  }

  // ----- The SQL-text pass -----

  /** `sqlparse.parse(text)[0]` raises exactly when the text is blank (the parse yields no statement). */
  predicate ParseFails(text: string) {
    AllSpace(text)
  }

  /** `\bOR\b` matches at `i` (`\b` with ASCII word characters). */
  predicate StandaloneOrAt(t: string, i: nat) {
    && i + 2 <= |t|
    && t[i] == 'O' && t[i + 1] == 'R'
    && (i == 0 || !IsWordChar(t[i - 1]))
    && (i + 2 == |t| || !IsWordChar(t[i + 2]))
  }

  /** `re.search(r'\bOR\b', t)`: the search from `i` on. */
  predicate HasStandaloneOrFrom(t: string, i: nat)
    decreases |t| - i
  {
    i < |t| && (StandaloneOrAt(t, i) || HasStandaloneOrFrom(t, i + 1))
  }

  /** The search finds a match exactly when one starts at or after `i`. */
  lemma {:induction false} HasStandaloneOrFound(t: string, i: nat)
    ensures HasStandaloneOrFrom(t, i) <==> exists j: nat | i <= j < |t| :: StandaloneOrAt(t, j)
    decreases |t| - i
  {
    if i < |t| {
      HasStandaloneOrFound(t, i + 1);
      if !StandaloneOrAt(t, i) && HasStandaloneOrFrom(t, i) {
        var j: nat :| i + 1 <= j < |t| && StandaloneOrAt(t, j);
      }
    }
  }

  predicate HasStandaloneOr(t: string) {
    HasStandaloneOrFrom(t, 0)
  }

  predicate IsQuoteChar(c: char) {
    c == '\'' || c == '"'
  }

  /** `LIKE\s+['"]%[^%]` matches at `i`. */
  predicate LikePrefixWildcardAt(t: string, i: nat) {
    && ContainsAt(t, "LIKE", i)
    && var e := SpaceEnd(t, i + 4);
       && e > i + 4
       && e + 2 < |t|
       && IsQuoteChar(t[e]) && t[e + 1] == '%' && t[e + 2] != '%'
  }

  /** `re.search(r'LIKE\s+[\'"]%[^%]', t)`: the search from `i` on. */
  predicate HasLikePrefixWildcardFrom(t: string, i: nat)
    decreases |t| - i
  {
    i < |t| && (LikePrefixWildcardAt(t, i) || HasLikePrefixWildcardFrom(t, i + 1))
  }

  /** The search finds a match exactly when one starts at or after `i`. */
  lemma {:induction false} HasLikePrefixWildcardFound(t: string, i: nat)
    ensures HasLikePrefixWildcardFrom(t, i) <==> exists j: nat | i <= j < |t| :: LikePrefixWildcardAt(t, j)
    decreases |t| - i
  {
    if i < |t| {
      HasLikePrefixWildcardFound(t, i + 1);
      if !LikePrefixWildcardAt(t, i) && HasLikePrefixWildcardFrom(t, i) {
        var j: nat :| i + 1 <= j < |t| && LikePrefixWildcardAt(t, j);
      }
    }
  }

  predicate HasLikePrefixWildcard(t: string) {
    HasLikePrefixWildcardFrom(t, 0)
  }

  predicate IsFunctionNameChar(c: char) {
    IsAsciiUpper(c) || c == '_'
  }

  /**
   * `[A-Z_]+\([^)]+\)` matches ending its name at `p`: a name character,
   * `(`, at least one character that is not `)`, then a `)`.
   */
  predicate FunctionCallAt(c: string, p: nat) {
    && p + 2 < |c|
    && IsFunctionNameChar(c[p]) && c[p + 1] == '('
    && c[p + 2] != ')'
    && CharIndex(c, ')', p + 2) < |c|
  }

  /** `re.search(r'[A-Z_]+\([^)]+\)', c)`: the search from `i` on. */
  predicate HasFunctionCallFrom(c: string, i: nat)
    decreases |c| - i
  {
    i < |c| && (FunctionCallAt(c, i) || HasFunctionCallFrom(c, i + 1))
  }

  /** The search finds a match exactly when one starts at or after `i`. */
  lemma {:induction false} HasFunctionCallFound(c: string, i: nat)
    ensures HasFunctionCallFrom(c, i) <==> exists j: nat | i <= j < |c| :: FunctionCallAt(c, j)
    decreases |c| - i
  {
    if i < |c| {
      HasFunctionCallFound(c, i + 1);
      if !FunctionCallAt(c, i) && HasFunctionCallFrom(c, i) {
        var j: nat :| i + 1 <= j < |c| && FunctionCallAt(c, j);
      }
    }
  }

  predicate HasFunctionCall(c: string) {
    HasFunctionCallFrom(c, 0)
  }

  /** The text after WHERE (up to the first `;`) calls a function. */
  predicate WhereCallsFunction(t: string) {
    match KeywordClause(t, "WHERE")
    case Some(clause) => HasFunctionCall(clause)
    case None => false
  }

  /** `(COUNT|SUM|AVG|MAX|MIN)\(`. */
  predicate HasAggregateCall(t: string) {
    Contains(t, "COUNT(") || Contains(t, "SUM(") || Contains(t, "AVG(") || Contains(t, "MAX(") || Contains(t, "MIN(")
  }

  /** A SELECT without WHERE, JOIN or an aggregate. */
  predicate MissingWhere(t: string) {
    StartsWith(t, "SELECT") && !Contains(t, "WHERE") && !Contains(t, "JOIN") && !HasAggregateCall(t)
  }

  /**
   * `FROM\s*\([^)]+SELECT` matches at `i`: FROM, optional whitespace, `(`,
   * then SELECT after at least one character and before the first `)`.
   */
  predicate FromSubqueryAt(t: string, i: nat) {
    && MatchesAt(t, "FROM", i)
    && var e := SpaceEnd(t, i + 4);
       && e < |t| && t[e] == '('
       && var close := CharIndex(t, ')', e + 1);
          exists j: nat | e + 2 <= j <= close :: MatchesAt(t, "SELECT", j)
  }

  /** `re.search(r'FROM\s*\([^)]+SELECT', t, re.IGNORECASE)`: the search from `i` on. */
  predicate HasFromSubqueryFrom(t: string, i: nat)
    decreases |t| - i
  {
    i < |t| && (FromSubqueryAt(t, i) || HasFromSubqueryFrom(t, i + 1))
  }

  /** The search finds a match exactly when one starts at or after `i`. */
  lemma {:induction false} HasFromSubqueryFound(t: string, i: nat)
    ensures HasFromSubqueryFrom(t, i) <==> exists j: nat | i <= j < |t| :: FromSubqueryAt(t, j)
    decreases |t| - i
  {
    if i < |t| {
      HasFromSubqueryFound(t, i + 1);
      if !FromSubqueryAt(t, i) && HasFromSubqueryFrom(t, i) {
        var j: nat :| i + 1 <= j < |t| && FromSubqueryAt(t, j);
      }
    }
  }

  predicate HasFromSubquery(t: string) {
    HasFromSubqueryFrom(t, 0)
  }

  const SelectStarProblem := QueryProblem(
    SelectStar, Medium, "使用 SELECT * 可能会返回不必要的列",
    "明确指定需要的列，减少数据传输和内存使用", "SELECT *")

  const OrProblem := QueryProblem(
    OrCondition, Low, "使用 OR 条件可能导致索引失效",
    "考虑使用 UNION ALL 代替 OR，或优化查询逻辑", "发现 OR 条件")

  const LikeProblem := QueryProblem(
    LikePrefixWildcard, High, "LIKE 使用前缀通配符 %... 无法使用索引",
    "避免前缀通配符，考虑使用全文索引或倒排索引", "LIKE '%...'")

  const FunctionProblem := QueryProblem(
    FunctionInWhere, Medium, "WHERE 子句中使用函数可能导致索引失效",
    "将函数移到比较符号的另一侧，或使用计算列索引", "WHERE 子句包含函数")

  const NoWhereProblem := QueryProblem(
    NoWhereClause, High, "SELECT 查询缺少 WHERE 条件",
    "添加 WHERE 条件限制数据范围，避免全表扫描", "缺少 WHERE 条件")

  const SubqueryProblem := QueryProblem(
    SubqueryInefficient, Medium, "发现子查询，可能影响性能",
    "考虑使用 CTE (WITH 子句) 或 JOIN 替代子查询", "发现子查询")

  /** The position of each structure problem in the pass's order of checks; -1 for the others. */
  function StructureRank(t: ProblemType): int {
    match t
    case SelectStar => 0
    case OrCondition => 1
    case LikePrefixWildcard => 2
    case FunctionInWhere => 3
    case NoWhereClause => 4
    case SubqueryInefficient => 5
    case _ => -1
  }

  /** The problems come in the pass's order of checks, each type at most once. */
  predicate InCheckOrder(ps: seq<QueryProblem>) {
    forall i, j | 0 <= i < j < |ps| :: StructureRank(ps[i].problemType) < StructureRank(ps[j].problemType)
  }

  predicate RanksBelow(ps: seq<QueryProblem>, k: int) {
    forall i | 0 <= i < |ps| :: 0 <= StructureRank(ps[i].problemType) < k
  }

  /** Read from the back: each rank lies in `[0, k)` and below the rank after it. */
  predicate RankedBelow(ps: seq<QueryProblem>, k: int) {
    || ps == []
    || var last := StructureRank(ps[|ps| - 1].problemType);
       0 <= last < k && RankedBelow(ps[..|ps| - 1], last)
  }

  /** A ranked list is in check order, with every rank in `[0, k)`. */
  lemma {:induction false} RankedBelowOrdered(ps: seq<QueryProblem>, k: int)
    requires RankedBelow(ps, k)
    ensures InCheckOrder(ps) && RanksBelow(ps, k)
  {
    if ps != [] {
      var init := ps[..|ps| - 1];
      var last := StructureRank(ps[|ps| - 1].problemType);
      RankedBelowOrdered(init, last);
      assert forall i | 0 <= i < |init| :: ps[i] == init[i];
    }
  }

  /** Appending the next check's problem, if it fires, keeps the list ranked. */
  lemma AppendRanked(ps: seq<QueryProblem>, c: bool, p: QueryProblem, k: nat)
    requires StructureRank(p.problemType) == k && RankedBelow(ps, k)
    ensures RankedBelow(ps + When(c, p), k + 1)
  {
    if c {
      assert (ps + [p])[..|ps|] == ps;
    } else {
      assert ps + When(c, p) == ps;
    }
  }

  /** The outcome of the pass's six checks. */
  datatype Checks = Checks(selectStar: bool, orCondition: bool, likePrefix: bool,
                           functionInWhere: bool, missingWhere: bool, subquery: bool)

  /** The six checks on the upper-cased text `sql`, as the pass writes them. */
  function ChecksOf(sql: string): Checks {
    Checks(
      Contains(sql, "SELECT *"),
      HasStandaloneOr(sql) && Contains(sql, "WHERE"),
      HasLikePrefixWildcard(sql),
      WhereCallsFunction(sql),
      MissingWhere(sql),
      HasFromSubquery(sql))
  }

  /** The problem the check at position `k` of the pass reports. */
  function CheckProblem(k: nat): (p: QueryProblem)
    requires k < 6
    ensures StructureRank(p.problemType) == k
  {
    match k
    case 0 => SelectStarProblem
    case 1 => OrProblem
    case 2 => LikeProblem
    case 3 => FunctionProblem
    case 4 => NoWhereProblem
    case _ => SubqueryProblem
  }

  /** Whether the check for problem type `t` fired (never, for a type the pass does not check). */
  function Fired(ch: Checks, t: ProblemType): bool {
    match t
    case SelectStar => ch.selectStar
    case OrCondition => ch.orCondition
    case LikePrefixWildcard => ch.likePrefix
    case FunctionInWhere => ch.functionInWhere
    case NoWhereClause => ch.missingWhere
    case SubqueryInefficient => ch.subquery
    case _ => false
  }

  /** Each of the six checked types is reported by the check at its rank. */
  lemma CheckedTypeAtItsRank(t: ProblemType)
    requires StructureRank(t) >= 0
    ensures StructureRank(t) < 6 && CheckProblem(StructureRank(t)).problemType == t
  {
  }

  /** The problems of the first `n` checks, given which checks fire, appended in the order of the checks. */
  function PartialChecks(ch: Checks, n: nat): seq<QueryProblem>
    requires n <= 6
  {
    if n == 0 then []
    else
      var p := CheckProblem(n - 1);
      PartialChecks(ch, n - 1) + When(Fired(ch, p.problemType), p)
  }

  /** The six guarded appends of the pass, written out. */
  function ChecksList(ch: Checks): seq<QueryProblem> {
    When(ch.selectStar, SelectStarProblem)
    + When(ch.orCondition, OrProblem)
    + When(ch.likePrefix, LikeProblem)
    + When(ch.functionInWhere, FunctionProblem)
    + When(ch.missingWhere, NoWhereProblem)
    + When(ch.subquery, SubqueryProblem)
  }

  /** Writing the appends out is the same as folding over the check positions. */
  lemma ChecksListIsPartialChecks(ch: Checks)
    ensures ChecksList(ch) == PartialChecks(ch, 6)
  {
    var w1 := When(ch.selectStar, SelectStarProblem);
    assert PartialChecks(ch, 1) == [] + w1 == w1;
    assert PartialChecks(ch, 2) == w1 + When(ch.orCondition, OrProblem);
    assert PartialChecks(ch, 3) == PartialChecks(ch, 2) + When(ch.likePrefix, LikeProblem);
    assert PartialChecks(ch, 4) == PartialChecks(ch, 3) + When(ch.functionInWhere, FunctionProblem);
    assert PartialChecks(ch, 5) == PartialChecks(ch, 4) + When(ch.missingWhere, NoWhereProblem);
    assert PartialChecks(ch, 6) == PartialChecks(ch, 5) + When(ch.subquery, SubqueryProblem);
  }

  function SqlStructureProblems(text: string): (r: seq<QueryProblem>)
    ensures ParseFails(text) ==> r == []
  {
    if ParseFails(text) then [] else ChecksList(ChecksOf(Upper(text)))
  }

  function Indicator(c: bool): nat {
    if c then 1 else 0
  }

  /** Among the first `n` checks, each fired check contributes its own problem, once. */
  lemma {:induction false} PartialChecksCount(ch: Checks, n: nat, t: ProblemType)
    requires n <= 6
    ensures CountType(PartialChecks(ch, n), t) == Indicator(Fired(ch, t) && 0 <= StructureRank(t) < n)
  {
    if n > 0 {
      var p := CheckProblem(n - 1);
      PartialChecksCount(ch, n - 1, t);
      CountTypeAppend(PartialChecks(ch, n - 1), When(Fired(ch, p.problemType), p), t);
      WhenCount(Fired(ch, p.problemType), p, t);
      if StructureRank(t) >= 0 {
        CheckedTypeAtItsRank(t);
      }
    }
  }

  /** The first `n` checks' problems come in the order of the checks, ranks below `n`. */
  lemma {:induction false} PartialChecksOrdered(ch: Checks, n: nat)
    requires n <= 6
    ensures RankedBelow(PartialChecks(ch, n), n)
  {
    if n > 0 {
      var p := CheckProblem(n - 1);
      PartialChecksOrdered(ch, n - 1);
      AppendRanked(PartialChecks(ch, n - 1), Fired(ch, p.problemType), p, n - 1);
    }
  }

  /** WHERE found case-insensitively in upper-cased text is a plain WHERE. */
  lemma WhereClauseImpliesWhere(sql: string)
    requires IsUpperText(sql) && KeywordClause(sql, "WHERE").Some?
    ensures Contains(sql, "WHERE")
  {
    KeywordClauseShape(sql, "WHERE");
    var k := ClauseSpanFrom(sql, "WHERE", 0).value.keyword;
    MatchesAtUpperText(sql, "WHERE", k);
    ContainsFound(sql, "WHERE", 0);
  }

  /**
   * The SQL-text pass reports a problem of type `t` once when the text
   * parses and the check for `t` fires on the upper-cased text, and
   * otherwise not at all; blank text reports nothing.
   */
  lemma SqlStructureCount(text: string, t: ProblemType)
    ensures CountType(SqlStructureProblems(text), t) == Indicator(!ParseFails(text) && Fired(ChecksOf(Upper(text)), t))
  {
    if !ParseFails(text) {
      ChecksListIsPartialChecks(ChecksOf(Upper(text)));
      PartialChecksCount(ChecksOf(Upper(text)), 6, t);
    }
  }

  /** The pass's problems come in the order of its checks, and are only of its six types. */
  lemma SqlStructureOrdered(text: string)
    ensures InCheckOrder(SqlStructureProblems(text))
    ensures RanksBelow(SqlStructureProblems(text), 6)
  {
    if !ParseFails(text) {
      var ch := ChecksOf(Upper(text));
      ChecksListIsPartialChecks(ch);
      PartialChecksOrdered(ch, 6);
      RankedBelowOrdered(PartialChecks(ch, 6), 6);
    }
  }

  /**
   * A query flagged for its missing WHERE is never also flagged for an OR
   * condition in its WHERE clause or for a function in its WHERE clause.
   */
  lemma MissingWhereExcludesWhereChecks(text: string)
    ensures var ch := ChecksOf(Upper(text));
            ch.missingWhere ==> !ch.orCondition && !ch.functionInWhere
  {
    var sql := Upper(text);
    if WhereCallsFunction(sql) {
      UpperIsUpperText(text);
      WhereClauseImpliesWhere(sql);
    }
  }

  /** `_analyze_sql_structure`: nothing when the text does not parse, otherwise the six checks. */
  method AnalyzeSqlStructure(q: SlowQueryInfo) returns (problems: seq<QueryProblem>)
    ensures problems == SqlStructureProblems(q.queryText)
  {
    problems := [];
    var sql := Upper(q.queryText);
    if ParseFails(q.queryText) {
      // The parse raised: the handler logs a warning and the pass reports nothing.
      return;
    }
    problems := CheckStructure(sql);
  }

  /**
   * The six checks of `_analyze_sql_structure` on the upper-cased text,
   * appending in order: first the three operator checks, then the three
   * clause checks.
   */
  method CheckStructure(sql: string) returns (problems: seq<QueryProblem>)
    ensures problems == ChecksList(ChecksOf(sql))
  {
    ghost var ch := ChecksOf(sql);
    problems := [];
    if Contains(sql, "SELECT *") {
      problems := problems + [SelectStarProblem];
    }
    if HasStandaloneOr(sql) && Contains(sql, "WHERE") {
      problems := problems + [OrProblem];
    }
    if HasLikePrefixWildcard(sql) {
      problems := problems + [LikeProblem];
    }
    assert problems == When(ch.selectStar, SelectStarProblem) + When(ch.orCondition, OrProblem) + When(ch.likePrefix, LikeProblem);
    problems := CheckClauses(sql, problems);
  }

  /** The last three checks: a function call after WHERE, a missing WHERE, a subquery after FROM. */
  method CheckClauses(sql: string, before: seq<QueryProblem>) returns (problems: seq<QueryProblem>)
    ensures problems == before + When(WhereCallsFunction(sql), FunctionProblem)
                              + When(MissingWhere(sql), NoWhereProblem)
                              + When(HasFromSubquery(sql), SubqueryProblem)
  {
    problems := before;
    var whereMatch := KeywordClause(sql, "WHERE");
    if whereMatch.Some? {
      var whereClause := whereMatch.value;
      if HasFunctionCall(whereClause) {
        problems := problems + [FunctionProblem];
      }
    }
    var hasWhere := Contains(sql, "WHERE");
    var hasJoin := Contains(sql, "JOIN");
    var isSelect := StartsWith(sql, "SELECT");
    if isSelect && !hasWhere && !hasJoin {
      if !HasAggregateCall(sql) {
        problems := problems + [NoWhereProblem];
      }
    }
    if HasFromSubquery(sql) {
      problems := problems + [SubqueryProblem];
    }
  }

  // ----- The execution-plan pass -----

  /**
   * An execution plan: how many entries the dictionary has (an empty one
   * is skipped like a missing one) and its `str()` rendering.
   */
  datatype ExecutionPlan = ExecutionPlan(entryCount: nat, rendered: string)

  /** `if execution_plan:` */
  predicate PlanSupplied(plan: Option<ExecutionPlan>) {
    plan.Some? && plan.value.entryCount > 0
  }

  const PlanScanProblem := QueryProblem(
    FullTableScan, Medium, "执行计划显示可能存在全表扫描",
    "检查是否可以利用索引或分区裁剪", "执行计划包含全表扫描")

  function ExecutionPlanProblems(plan: ExecutionPlan): (r: seq<QueryProblem>)
    ensures r == [] || r == [PlanScanProblem]
    ensures r != [] <==> Contains(Upper(plan.rendered), "OLAP_SCAN") || Contains(Upper(plan.rendered), "FULL_SCAN")
  {
    var planText := Upper(plan.rendered);
    When(Contains(planText, "OLAP_SCAN") || Contains(planText, "FULL_SCAN"), PlanScanProblem)
  }

  method AnalyzeExecutionPlan(plan: ExecutionPlan) returns (problems: seq<QueryProblem>)
    ensures problems == ExecutionPlanProblems(plan)
  {
    problems := [];
    var planText := Upper(plan.rendered);
    if Contains(planText, "OLAP_SCAN") || Contains(planText, "FULL_SCAN") {
      problems := problems + [PlanScanProblem];
    }
  }

  // ----- analyze_query -----

  function PlanProblems(plan: Option<ExecutionPlan>): seq<QueryProblem> {
    if PlanSupplied(plan) then ExecutionPlanProblems(plan.value) else []
  }

  /** Every problem `analyze_query` reports, pass by pass. */
  function DetectedProblems(q: SlowQueryInfo, plan: Option<ExecutionPlan>, th: Thresholds, twoDecimals: real -> string): (r: seq<QueryProblem>)
    ensures q.executionTime >= 10.0 ==> |r| > 0 && r[0] == VeryLongRunning(q, twoDecimals)
    ensures 5.0 <= q.executionTime < 10.0 ==> |r| > 0 && r[0] == LongRunning(q, twoDecimals)
  {
    ExecutionTimeProblems(q, twoDecimals) + ScanDataProblems(q, th, twoDecimals) + SqlStructureProblems(q.queryText) + PlanProblems(plan)
  }

  method AnalyzeQuery(q: SlowQueryInfo, plan: Option<ExecutionPlan>, th: Thresholds, twoDecimals: real -> string)
    returns (problems: seq<QueryProblem>)
    ensures problems == DetectedProblems(q, plan, th, twoDecimals)
  {
    problems := [];
    var timeProblems := AnalyzeExecutionTime(q, twoDecimals);
    problems := problems + timeProblems;
    assert problems == timeProblems;
    var scanProblems := AnalyzeScanData(q, th, twoDecimals);
    problems := problems + scanProblems;
    var structureProblems := AnalyzeSqlStructure(q);
    problems := problems + structureProblems;
    if PlanSupplied(plan) {
      var planProblems := AnalyzeExecutionPlan(plan.value);
      problems := problems + planProblems;
    } else {
      assert problems == problems + PlanProblems(plan);
    }
  }

  /** Only the scan pass reports TOO_MANY_ROWS: once per exceeded scan limit. */
  lemma TooManyRowsReported(q: SlowQueryInfo, plan: Option<ExecutionPlan>, th: Thresholds, twoDecimals: real -> string)
    ensures CountType(DetectedProblems(q, plan, th, twoDecimals), TooManyRows)
            == (if q.scanRows > th.maxScanRows then 1 else 0) + (if q.scanBytes > th.maxScanBytes then 1 else 0)
  {
    var a := ExecutionTimeProblems(q, twoDecimals);
    var b := ScanDataProblems(q, th, twoDecimals);
    var c := SqlStructureProblems(q.queryText);
    var d := PlanProblems(plan);
    CountTypeAppend(a + b + c, d, TooManyRows);
    CountTypeAppend(a + b, c, TooManyRows);
    CountTypeAppend(a, b, TooManyRows);
    CountTypeAbsent(a, TooManyRows);
    SqlStructureCount(q.queryText, TooManyRows);
    CountTypeAbsent(d, TooManyRows);
    ScanDataFindings(q, th, twoDecimals);
  }

  /**
   * A query under all limits, shorter than five seconds and without a
   * plan is judged on its SQL text alone; if that text is blank, nothing
   * is reported.
   */
  lemma QuietQueryJudgedOnText(q: SlowQueryInfo, th: Thresholds, twoDecimals: real -> string)
    requires q.executionTime < 5.0
    requires q.scanRows <= th.maxScanRows && q.scanBytes <= th.maxScanBytes && q.memoryUsed <= MemoryLimit
    ensures DetectedProblems(q, None, th, twoDecimals) == SqlStructureProblems(q.queryText)
    ensures ParseFails(q.queryText) ==> DetectedProblems(q, None, th, twoDecimals) == []
  {
    ScanDataFindings(q, th, twoDecimals);
    assert DetectedProblems(q, None, th, twoDecimals) == [] + [] + SqlStructureProblems(q.queryText) + [];
  }

  // ----- get_query_type -----

  /** The statement kinds in the order `get_query_type` tests them. */
  const StatementKinds: seq<QueryType> := [Select, Insert, Update, Delete, Create, Alter, Drop, Show, Explain]

  /** The keyword a statement of kind `k` starts with. */
  function Keyword(k: QueryType): string {
    match k
    case Select => "SELECT"
    case Insert => "INSERT"
    case Update => "UPDATE"
    case Delete => "DELETE"
    case Create => "CREATE"
    case Alter => "ALTER"
    case Drop => "DROP"
    case Show => "SHOW"
    case Explain => "EXPLAIN"
    case Other => ""
  }

  /** The first of `kinds` whose keyword `text` starts with, or OTHER. */
  function FirstKind(text: string, kinds: seq<QueryType>): (r: QueryType)
    ensures r != Other ==> r in kinds && StartsWith(text, Keyword(r))
    ensures r == Other <==> forall k | k in kinds && k != Other :: !StartsWith(text, Keyword(k))
  {
    if kinds == [] then Other
    else if kinds[0] != Other && StartsWith(text, Keyword(kinds[0])) then kinds[0]
    else FirstKind(text, kinds[1..])
  }

  /** The kind found is the first in test order whose keyword starts the text: no earlier kind matches. */
  lemma {:induction false} FirstKindIsFirst(text: string, kinds: seq<QueryType>)
    ensures FirstKind(text, kinds) != Other ==>
              exists n | 0 <= n < |kinds| ::
                && kinds[n] == FirstKind(text, kinds)
                && forall m | 0 <= m < n :: kinds[m] == Other || !StartsWith(text, Keyword(kinds[m]))
  {
    if kinds == [] {
    } else if kinds[0] != Other && StartsWith(text, Keyword(kinds[0])) {
      assert kinds[0] == FirstKind(text, kinds);
    } else {
      var rest := kinds[1..];
      FirstKindIsFirst(text, rest);
      assert FirstKind(text, kinds) == FirstKind(text, rest);
      if FirstKind(text, rest) != Other {
        var n :| 0 <= n < |rest| && rest[n] == FirstKind(text, rest)
                 && forall m | 0 <= m < n :: rest[m] == Other || !StartsWith(text, Keyword(rest[m]));
        assert kinds[n + 1] == rest[n];
        forall m | 0 <= m < n + 1
          ensures kinds[m] == Other || !StartsWith(text, Keyword(kinds[m]))
        {
          if m > 0 {
            assert kinds[m] == rest[m - 1];
          }
        }
      }
    }
  }

  /**
   * `get_query_type`: the statement kind whose keyword the stripped,
   * upper-cased text starts with, tested in the order of `StatementKinds`.
   */
  function GetQueryType(queryText: string): (r: QueryType)
    ensures r != Other ==> r in StatementKinds && StartsWith(Upper(Strip(queryText)), Keyword(r))
    ensures r == Other <==> forall k | k in StatementKinds :: !StartsWith(Upper(Strip(queryText)), Keyword(k))
  {
    FirstKind(Upper(Strip(queryText)), StatementKinds)
  }

  /** No text starts with two of the keywords, so the order of the tests does not matter. */
  lemma StatementKeywordsExclusive(text: string, k1: QueryType, k2: QueryType)
    requires k1 in StatementKinds && k2 in StatementKinds
    requires StartsWith(text, Keyword(k1)) && StartsWith(text, Keyword(k2))
    ensures k1 == k2
  {
    assert text[0] == Keyword(k1)[0] == Keyword(k2)[0];
    assert text[1] == Keyword(k1)[1] == Keyword(k2)[1];
  }

  // ----- extract_tables -----

  /**
   * `extract_tables`: the names after FROM, JOIN, INTO, UPDATE and TABLE
   * in the upper-cased text, quotes stripped, keywords dropped, each
   * once. Text the parser rejects gives no names, which is also what the
   * scan would have found.
   */
  method ExtractTables(queryText: string) returns (tables: seq<string>)
    ensures ParseFails(queryText) ==> tables == []
    ensures NoDuplicates(tables)
    ensures forall t :: t in tables <==> t in TableCandidates(Upper(queryText))
    ensures forall t | t in tables :: IsTableName(t)
  {
    tables := [];
    if ParseFails(queryText) {
      // The parse raised: the handler logs a warning; `list(set([]))` is empty.
      assert AllSpace(Upper(queryText));
      NoTablesInBlankText(Upper(queryText));
      return;
    }
    tables := CollectTableNames(Upper(queryText));
  }
}
