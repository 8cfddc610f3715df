/**
 * The query record (`SlowQueryInfo`) and the parts of the collector that
 * are pure computation over records: the severity bucket, the plain
 * rendering of small scan counts, the statistics and the pattern filter.
 */
module SlowQuery {
  import opened Text

  datatype Severity = Critical | High | Medium | Low

  /** CRITICAL > HIGH > MEDIUM > LOW. */
  function Rank(s: Severity): nat {
    match s
    case Low => 0
    case Medium => 1
    case High => 2
    case Critical => 3
  }

  /**
   * One executed query. Times are in seconds; `startTime` and `endTime`
   * stand for the record's timestamps.
   */
  datatype SlowQueryInfo = SlowQueryInfo(
    queryId: string,
    queryText: string,
    database: string,
    user: string,
    executionTime: real,
    scanRows: int,
    scanBytes: int,
    memoryUsed: int,
    cpuTime: real,
    startTime: int,
    endTime: int,
    peakMemory: int,
    rowsReturned: int)

  /** The `severity` property: a bucket of the execution time. */
  function SeverityOf(q: SlowQueryInfo): (s: Severity)
    ensures s == Critical <==> q.executionTime >= 10.0
    ensures s == High <==> 5.0 <= q.executionTime < 10.0
    ensures s == Medium <==> 1.0 <= q.executionTime < 5.0
    ensures s == Low <==> q.executionTime < 1.0
  {
    if q.executionTime >= 10.0 then Critical
    else if q.executionTime >= 5.0 then High
    else if q.executionTime >= 1.0 then Medium
    else Low
  }

  /** A longer-running query is never rated less severe. */
  lemma SeverityMonotone(q1: SlowQueryInfo, q2: SlowQueryInfo)
    requires q1.executionTime <= q2.executionTime
    ensures Rank(SeverityOf(q1)) <= Rank(SeverityOf(q2))
  {
  }

  // ----- Decimal rendering of integers (Python's `str(int)`) -----

  function DigitChar(d: nat): (c: char)
    requires d < 10
    ensures IsDigit(c)
  {
    ('0' as int + d) as char
  }

  function DigitValue(c: char): nat
    requires IsDigit(c)
  {
    c as int - '0' as int
  }

  predicate AllDigits(s: string) {
    forall i | 0 <= i < |s| :: IsDigit(s[i])
  }

  function NatDecimal(n: nat): (r: string)
    decreases n
  {
    if n < 10 then [DigitChar(n)] else NatDecimal(n / 10) + [DigitChar(n % 10)]
  }

  /** `str(n)` for a Python `int`. */
  function Decimal(n: int): string {
    if n < 0 then "-" + NatDecimal(-n) else NatDecimal(n)
  }

  function ParseNat(s: string): nat
    requires AllDigits(s)
  {
    if s == [] then 0 else 10 * ParseNat(s[..|s| - 1]) + DigitValue(s[|s| - 1])
  }

  /** `int(s)` on what `str` produces. */
  function ParseDecimal(s: string): int {
    if |s| > 0 && s[0] == '-' && AllDigits(s[1..]) then -(ParseNat(s[1..]) as int)
    else if AllDigits(s) then ParseNat(s)
    else 0
  }

  lemma {:induction false} NatDecimalRoundTrip(n: nat)
    ensures |NatDecimal(n)| > 0
    ensures AllDigits(NatDecimal(n))
    ensures NatDecimal(n)[0] != '0' || n == 0
    ensures ParseNat(NatDecimal(n)) == n
    decreases n
  {
    if n >= 10 {
      NatDecimalRoundTrip(n / 10);
      var s := NatDecimal(n);
      assert s[..|s| - 1] == NatDecimal(n / 10);
    }
  }

  /** Reading back the decimal rendering gives the number. */
  lemma DecimalRoundTrip(n: int)
    ensures ParseDecimal(Decimal(n)) == n
  {
    if n < 0 {
      NatDecimalRoundTrip(-n);
      assert Decimal(n)[1..] == NatDecimal(-n);
    } else {
      NatDecimalRoundTrip(n);
    }
  }

  /** A scan count as shown: its decimal text, or the count to show in units of 10^4 or of 10^8. */
  datatype FormattedCount = Plain(text: string) | TenThousands(count: int) | HundredMillions(count: int)

  /**
   * `scan_rows_formatted`. Counts below 10000 are rendered in decimal;
   * the two larger branches are represented by the count they scale.
   */
  function ScanRowsFormatted(scanRows: int): (r: FormattedCount)
    ensures scanRows < 10000 ==> r == Plain(Decimal(scanRows)) && ParseDecimal(r.text) == scanRows
    ensures 10000 <= scanRows < 100000000 ==> r == TenThousands(scanRows)
    ensures 100000000 <= scanRows ==> r == HundredMillions(scanRows)
  {
    if scanRows >= 100000000 then HundredMillions(scanRows)
    else if scanRows >= 10000 then TenThousands(scanRows)
    else DecimalRoundTrip(scanRows); Plain(Decimal(scanRows))
  }

  /**
   * The text a report shows for a formatted count. `twoDecimals` stands
   * for Python's two-decimal rendering `f"{x:.2f}"`, which the model takes
   * as a parameter.
   */
  function FormattedText(f: FormattedCount, twoDecimals: real -> string): string {
    match f
    case Plain(t) => t
    case TenThousands(n) => twoDecimals(n as real / 10000.0) + " 万"
    case HundredMillions(n) => twoDecimals(n as real / 100000000.0) + " 亿"
  }

  /**
   * What `scan_rows_formatted` prints: the count itself below 10000, read
   * back as that count; otherwise the count in units of 10^4 (a value in
   * [1, 10000)) or of 10^8 (a value of at least 1), with two decimals and
   * the unit's name.
   */
  lemma ScanRowsText(n: int, twoDecimals: real -> string)
    ensures n < 10000 ==> ParseDecimal(FormattedText(ScanRowsFormatted(n), twoDecimals)) == n
    ensures 10000 <= n < 100000000 ==>
              && FormattedText(ScanRowsFormatted(n), twoDecimals) == twoDecimals(n as real / 10000.0) + " 万"
              && 1.0 <= n as real / 10000.0 < 10000.0
    ensures 100000000 <= n ==>
              && FormattedText(ScanRowsFormatted(n), twoDecimals) == twoDecimals(n as real / 100000000.0) + " 亿"
              && 1.0 <= n as real / 100000000.0
  {
  }

  /** `scan_bytes_formatted`: the count itself in bytes, or scaled to GB, MB or KB with two decimals. */
  function ScanBytesFormatted(n: int, twoDecimals: real -> string): string {
    if n >= 1073741824 then twoDecimals(n as real / 1073741824.0) + " GB"
    else if n >= 1048576 then twoDecimals(n as real / 1048576.0) + " MB"
    else if n >= 1024 then twoDecimals(n as real / 1024.0) + " KB"
    else Decimal(n) + " B"
  }

  /**
   * What `scan_bytes_formatted` prints: the count itself with `B` below
   * 1024, read back as that count; otherwise the count in the largest of
   * KB, MB and GB that it reaches, a value of at least 1 and below 1024
   * except in GB, with two decimals.
   */
  lemma ScanBytesText(n: int, twoDecimals: real -> string)
    ensures n < 1024 ==>
              && ScanBytesFormatted(n, twoDecimals) == Decimal(n) + " B"
              && ParseDecimal(Decimal(n)) == n
    ensures 1024 <= n < 1048576 ==>
              && ScanBytesFormatted(n, twoDecimals) == twoDecimals(n as real / 1024.0) + " KB"
              && 1.0 <= n as real / 1024.0 < 1024.0
    ensures 1048576 <= n < 1073741824 ==>
              && ScanBytesFormatted(n, twoDecimals) == twoDecimals(n as real / 1048576.0) + " MB"
              && 1.0 <= n as real / 1048576.0 < 1024.0
    ensures 1073741824 <= n ==>
              && ScanBytesFormatted(n, twoDecimals) == twoDecimals(n as real / 1073741824.0) + " GB"
              && 1.0 <= n as real / 1073741824.0
  {
    DecimalRoundTrip(n);
  }

  // ----- Statistics -----

  datatype Statistics = Statistics(
    totalQueries: nat,
    maxExecutionTime: real,
    totalScanRows: int,
    totalScanBytes: int,
    severityDistribution: map<Severity, nat>)

  /** `sum(q.scan_rows for q in qs)`. */
  function SumScanRows(qs: seq<SlowQueryInfo>): int {
    if qs == [] then 0 else SumScanRows(qs[..|qs| - 1]) + qs[|qs| - 1].scanRows
  }

  /** `sum(q.scan_bytes for q in qs)`. */
  function SumScanBytes(qs: seq<SlowQueryInfo>): int {
    if qs == [] then 0 else SumScanBytes(qs[..|qs| - 1]) + qs[|qs| - 1].scanBytes
  }

  /** `max(q.execution_time for q in qs)`. */
  function MaxExecutionTime(qs: seq<SlowQueryInfo>): (m: real)
    requires |qs| > 0
    ensures forall i | 0 <= i < |qs| :: qs[i].executionTime <= m
    ensures exists i | 0 <= i < |qs| :: qs[i].executionTime == m
  {
    if |qs| == 1 then qs[0].executionTime
    else
      var rest := MaxExecutionTime(qs[1..]);
      assert forall i | 1 <= i < |qs| :: qs[i] == qs[1..][i - 1];
      if qs[0].executionTime >= rest then qs[0].executionTime else rest
  }

  /** How many records fall in bucket `s`. */
  function SeverityCount(qs: seq<SlowQueryInfo>, s: Severity): nat {
    if qs == [] then 0
    else SeverityCount(qs[..|qs| - 1], s) + (if SeverityOf(qs[|qs| - 1]) == s then 1 else 0)
  }

  lemma {:induction false} SeverityCountZero(qs: seq<SlowQueryInfo>, s: Severity)
    requires forall i | 0 <= i < |qs| :: SeverityOf(qs[i]) != s
    ensures SeverityCount(qs, s) == 0
  {
    if qs != [] {
      var init := qs[..|qs| - 1];
      assert forall i | 0 <= i < |init| :: init[i] == qs[i];
      SeverityCountZero(init, s);
    }
  }

  lemma {:induction false} SeverityCountsAddUp(qs: seq<SlowQueryInfo>)
    ensures SeverityCount(qs, Critical) + SeverityCount(qs, High)
          + SeverityCount(qs, Medium) + SeverityCount(qs, Low) == |qs|
  {
    if qs != [] {
      SeverityCountsAddUp(qs[..|qs| - 1]);
    }
  }

  /** The sum of a distribution's counts over the four buckets. */
  function DistributionTotal(d: map<Severity, nat>): nat {
    (if Critical in d then d[Critical] else 0)
    + (if High in d then d[High] else 0)
    + (if Medium in d then d[Medium] else 0)
    + (if Low in d then d[Low] else 0)
  }

  /** `d` is the severity histogram of `qs`: one key per bucket that occurs, with its count. */
  predicate IsSeverityHistogram(qs: seq<SlowQueryInfo>, d: map<Severity, nat>) {
    && (forall s :: s in d <==> exists i | 0 <= i < |qs| :: SeverityOf(qs[i]) == s)
    && (forall s | s in d :: d[s] == SeverityCount(qs, s))
  }

  /** The histogram's counts add up to the number of records. */
  lemma HistogramTotal(qs: seq<SlowQueryInfo>, d: map<Severity, nat>)
    requires IsSeverityHistogram(qs, d)
    ensures DistributionTotal(d) == |qs|
  {
    SeverityCountsAddUp(qs);
    forall s | s !in d
      ensures SeverityCount(qs, s) == 0
    {
      SeverityCountZero(qs, s);
    }
  }

  /** The distribution after counting one more record of bucket `s`. */
  function AddToHistogram(d: map<Severity, nat>, s: Severity): map<Severity, nat> {
    d[s := (if s in d then d[s] else 0) + 1]
  }

  /** Counting the next record keeps the distribution a histogram of the records seen. */
  lemma HistogramStep(before: seq<SlowQueryInfo>, q: SlowQueryInfo, d: map<Severity, nat>)
    requires IsSeverityHistogram(before, d)
    requires forall s | s in d :: d[s] > 0
    ensures IsSeverityHistogram(before + [q], AddToHistogram(d, SeverityOf(q)))
    ensures forall s | s in AddToHistogram(d, SeverityOf(q)) :: AddToHistogram(d, SeverityOf(q))[s] > 0
  {
    var after := before + [q];
    var severity := SeverityOf(q);
    var d' := AddToHistogram(d, severity);
    assert after[..|before|] == before;
    if severity !in d {
      SeverityCountZero(before, severity);
    }
    forall s
      ensures s in d' <==> exists j | 0 <= j < |after| :: SeverityOf(after[j]) == s
    {
      if s in d && s != severity {
        var j :| 0 <= j < |before| && SeverityOf(before[j]) == s;
        assert after[j] == before[j];
      }
      if s == severity {
        assert SeverityOf(after[|before|]) == s;
      }
    }
  }

  /** The counting loop of `get_query_statistics`: one increment per record. */
  method CountSeverities(qs: seq<SlowQueryInfo>) returns (distribution: map<Severity, nat>)
    ensures IsSeverityHistogram(qs, distribution)
    ensures forall s | s in distribution :: distribution[s] > 0
  {
    distribution := map[];
    var i := 0;
    while i < |qs|
      invariant 0 <= i <= |qs|
      invariant IsSeverityHistogram(qs[..i], distribution)
      invariant forall s | s in distribution :: distribution[s] > 0
    {
      var severity := SeverityOf(qs[i]);
      HistogramStep(qs[..i], qs[i], distribution);
      assert qs[..i + 1] == qs[..i] + [qs[i]];
      distribution := distribution[severity := (if severity in distribution then distribution[severity] else 0) + 1];
      i := i + 1;
    }
    assert qs[..|qs|] == qs;
  }

  /** `get_query_statistics` without the average. */
  method GetQueryStatistics(qs: seq<SlowQueryInfo>) returns (stats: Statistics)
    ensures qs == [] ==> stats == Statistics(0, 0.0, 0, 0, map[])
    ensures stats.totalQueries == |qs|
    ensures stats.totalScanRows == SumScanRows(qs)
    ensures stats.totalScanBytes == SumScanBytes(qs)
    ensures forall i | 0 <= i < |qs| :: qs[i].executionTime <= stats.maxExecutionTime
    ensures qs != [] ==> exists i | 0 <= i < |qs| :: qs[i].executionTime == stats.maxExecutionTime
    ensures IsSeverityHistogram(qs, stats.severityDistribution)
    ensures DistributionTotal(stats.severityDistribution) == stats.totalQueries
    ensures forall s | s in stats.severityDistribution :: stats.severityDistribution[s] > 0
  {
    if qs == [] {
      return Statistics(0, 0.0, 0, 0, map[]);
    }
    var maxTime := MaxExecutionTime(qs);
    var distribution := CountSeverities(qs);
    HistogramTotal(qs, distribution);
    stats := Statistics(|qs|, maxTime, SumScanRows(qs), SumScanBytes(qs), distribution);
  }

  // ----- Pattern filter -----

  /** The text of `q` contains `pattern`, both upper-cased. */
  predicate MatchesPattern(q: SlowQueryInfo, pattern: string) {
    Contains(Upper(q.queryText), Upper(pattern))
  }

  /** `filter_by_pattern`: the records whose upper-cased text contains the upper-cased pattern. */
  function FilterByPattern(qs: seq<SlowQueryInfo>, pattern: string): (r: seq<SlowQueryInfo>)
    ensures |r| <= |qs|
    ensures forall i | 0 <= i < |r| :: MatchesPattern(r[i], pattern)
  {
    if qs == [] then []
    else (if MatchesPattern(qs[0], pattern) then [qs[0]] else []) + FilterByPattern(qs[1..], pattern)
  }

  /** A record is kept exactly when it is in the input and matches. */
  lemma {:induction false} FilterMembership(qs: seq<SlowQueryInfo>, pattern: string, q: SlowQueryInfo)
    ensures q in FilterByPattern(qs, pattern) <==> q in qs && MatchesPattern(q, pattern)
  {
    if qs != [] {
      FilterMembership(qs[1..], pattern, q);
      assert qs == [qs[0]] + qs[1..];
    }
  }

  /** Filtering a concatenation filters each part in turn, so the input order is kept. */
  lemma {:induction false} FilterAppend(a: seq<SlowQueryInfo>, b: seq<SlowQueryInfo>, pattern: string)
    ensures FilterByPattern(a + b, pattern) == FilterByPattern(a, pattern) + FilterByPattern(b, pattern)
  {
    if a != [] {
      assert (a + b)[1..] == a[1..] + b;
      FilterAppend(a[1..], b, pattern);
    } else {
      assert a + b == b;
    }
  }

  /** Filtering twice with the same pattern changes nothing. */
  lemma {:induction false} FilterIdempotent(qs: seq<SlowQueryInfo>, pattern: string)
    ensures FilterByPattern(FilterByPattern(qs, pattern), pattern) == FilterByPattern(qs, pattern)
  {
    if qs != [] {
      var head := if MatchesPattern(qs[0], pattern) then [qs[0]] else [];
      FilterAppend(head, FilterByPattern(qs[1..], pattern), pattern);
      FilterIdempotent(qs[1..], pattern);
      if MatchesPattern(qs[0], pattern) {
        assert FilterByPattern(head, pattern) == [qs[0]] + FilterByPattern([], pattern);
      }
    }
  }

  /** Every text contains the empty pattern, so it keeps every record. */
  lemma {:induction false} FilterEmptyPatternKeepsAll(qs: seq<SlowQueryInfo>)
    ensures FilterByPattern(qs, "") == qs
  {
    if qs != [] {
      assert ContainsAt(Upper(qs[0].queryText), Upper(""), 0);
      FilterEmptyPatternKeepsAll(qs[1..]);
      assert qs == [qs[0]] + qs[1..];
    }
  }
}
