/**
 * The regular expressions that the analyzer and the suggester share, each
 * written out as a scan over the text with the leftmost/greedy semantics
 * of Python's `re`, and the table-name extraction built on them.
 * Keywords are given upper case and matched case-insensitively
 * (`re.IGNORECASE`); on upper-cased text that is plain matching.
 */
module Patterns {
  import opened Util
  import opened Text

  // ----- `KW\s+([^;]+)`, searched (re.search) -----

  /** Where group 1 of a match lies: the keyword at `keyword`, the group is `s[start..end]`. */
  datatype Span = Span(keyword: nat, start: nat, end: nat)

  /**
   * The match of `KW\s+([^;]+)` that starts at `i`, if there is one. The
   * greedy `\s+` takes the whole whitespace run; when no non-`;` character
   * follows it, it gives back its last character to the group.
   */
  function ClauseSpanAt(s: string, kw: string, i: nat): (r: Option<Span>)
    requires i <= |s|
    ensures r.Some? ==> r.value.keyword == i
  {
    if !MatchesAt(s, kw, i) then None
    else
      var b := i + |kw|;
      var e := SpaceEnd(s, b);
      if e == b then None
      else if e < |s| && s[e] != ';' then Some(Span(i, e, CharIndex(s, ';', e)))
      else if e - b >= 2 then Some(Span(i, e - 1, e))
      else None
  }

  /**
   * A match is the keyword, then at least one whitespace character, then
   * a group of non-`;` characters that runs up to the next `;` or the end.
   */
  lemma ClauseSpanAtShape(s: string, kw: string, i: nat)
    requires i <= |s| && ClauseSpanAt(s, kw, i).Some?
    ensures var span := ClauseSpanAt(s, kw, i).value;
            && MatchesAt(s, kw, i)
            && i + |kw| < span.start < span.end <= |s|
            && (forall j | i + |kw| <= j < span.start :: IsSpace(s[j]))
            && (forall j | span.start <= j < span.end :: s[j] != ';')
            && (span.end == |s| || s[span.end] == ';')
  {
    var e := SpaceEnd(s, i + |kw|);
    SpaceEndSkipsSpace(s, i + |kw|);
    if e < |s| && s[e] != ';' {
      CharIndexIsFirst(s, ';', e);
    }
  }

  /** No match starts in `[lo, hi)`. */
  predicate NoClauseBetween(s: string, kw: string, lo: nat, hi: nat)
    requires hi <= |s| + 1
  {
    forall k | lo <= k < hi :: ClauseSpanAt(s, kw, k).None?
  }

  /** The leftmost match at or after `i`. */
  function ClauseSpanFrom(s: string, kw: string, i: nat): (r: Option<Span>)
    requires i <= |s|
    ensures r.Some? ==> i <= r.value.keyword <= |s| && r == ClauseSpanAt(s, kw, r.value.keyword)
    decreases |s| - i
  {
    var here := ClauseSpanAt(s, kw, i);
    if here.Some? then here
    else if i == |s| then None
    else
      ClauseSpanFrom(s, kw, i + 1)
  }

  /** The search is leftmost: no match starts before the one it finds, and when it finds none there is none. */
  lemma {:induction false} ClauseSpanFromLeftmost(s: string, kw: string, i: nat)
    requires i <= |s|
    ensures ClauseSpanFrom(s, kw, i).Some? ==> NoClauseBetween(s, kw, i, ClauseSpanFrom(s, kw, i).value.keyword)
    ensures ClauseSpanFrom(s, kw, i).None? ==> NoClauseBetween(s, kw, i, |s| + 1)
    decreases |s| - i
  {
    if ClauseSpanAt(s, kw, i).None? && i < |s| {
      ClauseSpanFromLeftmost(s, kw, i + 1);
      var r := ClauseSpanFrom(s, kw, i + 1);
      assert ClauseSpanFrom(s, kw, i) == r;
      var hi := if r.Some? then r.value.keyword else |s| + 1;
      NoClauseExtend(s, kw, i, hi);
    }
  }

  /** No match in `[i + 1, hi)` and none at `i` is none in `[i, hi)`. */
  lemma NoClauseExtend(s: string, kw: string, i: nat, hi: nat)
    requires i < hi <= |s| + 1 && i <= |s|
    requires ClauseSpanAt(s, kw, i).None? && NoClauseBetween(s, kw, i + 1, hi)
    ensures NoClauseBetween(s, kw, i, hi)
  {
  }

  /** Group 1 of `re.search(KW + r'\s+([^;]+)', s, re.IGNORECASE)`, or `None` when there is no match. */
  function KeywordClause(s: string, kw: string): Option<string> {
    match ClauseSpanFrom(s, kw, 0)
    case None => None
    case Some(span) =>
      ClauseSpanAtShape(s, kw, span.keyword);
      Some(s[span.start..span.end])
  }

  /**
   * The search gives the group of the leftmost match: the keyword matches
   * there and nowhere before, and the group is non-empty and free of `;`.
   * When it gives nothing, the keyword is followed by a group nowhere.
   */
  lemma KeywordClauseShape(s: string, kw: string)
    ensures var span := ClauseSpanFrom(s, kw, 0);
            KeywordClause(s, kw).Some? <==> span.Some?
    ensures var span := ClauseSpanFrom(s, kw, 0);
            span.Some? ==>
              && MatchesAt(s, kw, span.value.keyword)
              && NoClauseBetween(s, kw, 0, span.value.keyword)
              && |KeywordClause(s, kw).value| > 0
              && forall j | 0 <= j < |KeywordClause(s, kw).value| :: KeywordClause(s, kw).value[j] != ';'
    ensures ClauseSpanFrom(s, kw, 0).None? ==> NoClauseBetween(s, kw, 0, |s| + 1)
  {
    ClauseSpanFromLeftmost(s, kw, 0);
    var span := ClauseSpanFrom(s, kw, 0);
    if span.Some? {
      ClauseSpanAtShape(s, kw, span.value.keyword);
    }
  }

  // ----- `KW\s+([^\s,;]+)`, all matches (re.findall) -----

  /** A character of the group `[^\s,;]`. */
  predicate IsTargetChar(c: char) {
    !IsSpace(c) && c != ',' && c != ';'
  }

  /** The end of the run of target characters that starts at `k`. */
  function TargetEnd(s: string, k: nat): (r: nat)
    requires k <= |s|
    ensures k <= r <= |s|
    ensures r == |s| || !IsTargetChar(s[r])
    decreases |s| - k
  {
    if k == |s| || !IsTargetChar(s[k]) then k else TargetEnd(s, k + 1)
  }

  /** Everything `TargetEnd` passes over is a target character. */
  lemma {:induction false} TargetEndRun(s: string, k: nat)
    requires k <= |s|
    ensures forall j | k <= j < TargetEnd(s, k) :: IsTargetChar(s[j])
    decreases |s| - k
  {
    if k < |s| && IsTargetChar(s[k]) {
      TargetEndRun(s, k + 1);
    }
  }

  /** The match of `KW\s+([^\s,;]+)` at `i`: the group's bounds. */
  function TargetAt(s: string, kw: string, i: nat): (r: Option<(nat, nat)>)
    requires i <= |s|
    ensures r.Some? ==> MatchesAt(s, kw, i) && i + |kw| < r.value.0 < r.value.1 <= |s|
  {
    if !MatchesAt(s, kw, i) then None
    else
      var b := i + |kw|;
      var e := SpaceEnd(s, b);
      var f := TargetEnd(s, e);
      if e == b || f == e then None else Some((e, f))
  }

  /** Where the scan goes on after a match at `p`: the end of that match, or `p` itself when none starts there. */
  function TargetMatchEnd(s: string, kw: string, p: nat): nat {
    if p <= |s| && TargetAt(s, kw, p).Some? then TargetAt(s, kw, p).value.1 else p
  }

  /** `TargetMatchEnd` as a function value, for the scan of `Util`. */
  function TargetResume(s: string, kw: string): nat -> nat {
    p => TargetMatchEnd(s, kw, p)
  }

  /** Where the matches that `KeywordTargetsFrom` takes start, left to right. */
  function TargetStartsFrom(s: string, kw: string, i: nat): seq<nat>
    requires i <= |s|
  {
    assert forall j | i <= j < |s| :: TargetResume(s, kw)(j) <= |s|;
    LeftmostStarts(TargetResume(s, kw), |s|, i)
  }

  /** The group of the match at `p`, if one starts there. */
  function TargetGroup(s: string, kw: string, p: nat): string {
    if p <= |s| && TargetAt(s, kw, p).Some? then s[TargetAt(s, kw, p).value.0..TargetAt(s, kw, p).value.1] else ""
  }

  /** `TargetGroup` as a function value, for the scan of `Util`. */
  function TargetGroupOf(s: string, kw: string): nat -> string {
    (p: nat) => TargetGroup(s, kw, p)
  }

  /** The groups of the non-overlapping matches at or after `i`, left to right. */
  function KeywordTargetsFrom(s: string, kw: string, i: nat): seq<string>
    requires i <= |s|
  {
    assert forall j | i <= j < |s| :: TargetResume(s, kw)(j) <= |s|;
    LeftmostGroups(TargetResume(s, kw), TargetGroupOf(s, kw), |s|, i)
  }

  /**
   * `re.findall` takes the matches left to right without overlap: the k-th
   * group is the group of the match at the k-th start, each match taken
   * ends at or before the next one starts, and every match at or after `i`
   * is taken unless it starts inside a match already taken.
   */
  lemma KeywordTargetsExactly(s: string, kw: string, i: nat)
    requires i <= |s|
    ensures |TargetStartsFrom(s, kw, i)| == |KeywordTargetsFrom(s, kw, i)|
    ensures forall k | 0 <= k < |TargetStartsFrom(s, kw, i)| ::
              && i <= TargetStartsFrom(s, kw, i)[k] < |s|
              && TargetAt(s, kw, TargetStartsFrom(s, kw, i)[k]).Some?
              && KeywordTargetsFrom(s, kw, i)[k]
                 == s[TargetAt(s, kw, TargetStartsFrom(s, kw, i)[k]).value.0..TargetMatchEnd(s, kw, TargetStartsFrom(s, kw, i)[k])]
    ensures forall k | 0 < k < |TargetStartsFrom(s, kw, i)| ::
              TargetMatchEnd(s, kw, TargetStartsFrom(s, kw, i)[k - 1]) <= TargetStartsFrom(s, kw, i)[k]
    ensures forall j | i <= j < |s| && TargetAt(s, kw, j).Some? ::
              Covered(TargetResume(s, kw), TargetStartsFrom(s, kw, i), j)
  {
    assert forall j | i <= j < |s| :: TargetResume(s, kw)(j) <= |s|;
    LeftmostGroupsAtStarts(TargetResume(s, kw), TargetGroupOf(s, kw), |s|, i);
    LeftmostStartsDisjoint(TargetResume(s, kw), |s|, i);
    LeftmostStartsComplete(TargetResume(s, kw), |s|, i);
    forall j | i <= j < |s| && TargetAt(s, kw, j).Some?
      ensures TargetResume(s, kw)(j) > j
    {
    }
  }

  /** Every group found is a non-empty run of characters other than whitespace, `,` and `;`. */
  lemma KeywordTargetsAreTargets(s: string, kw: string, i: nat)
    requires i <= |s|
    ensures var r := KeywordTargetsFrom(s, kw, i);
            forall k | 0 <= k < |r| :: |r[k]| > 0 && forall j | 0 <= j < |r[k]| :: IsTargetChar(r[k][j])
  {
    KeywordTargetsExactly(s, kw, i);
    var r := KeywordTargetsFrom(s, kw, i);
    forall k | 0 <= k < |r|
      ensures |r[k]| > 0 && forall j | 0 <= j < |r[k]| :: IsTargetChar(r[k][j])
    {
      var p := TargetStartsFrom(s, kw, i)[k];
      var e := TargetAt(s, kw, p).value.0;
      TargetEndRun(s, e);
      assert r[k] == s[e..TargetEnd(s, e)];
    }
  }

  /** `re.findall(KW + r'\s+([^\s,;]+)', s, re.IGNORECASE)`. */
  function KeywordTargets(s: string, kw: string): seq<string> {
    KeywordTargetsFrom(s, kw, 0)
  }

  /** Text made only of whitespace holds no keyword that starts with a letter. */
  lemma NoTargetsInBlankText(s: string, kw: string, i: nat)
    requires AllSpace(s) && |kw| > 0 && IsAsciiUpper(kw[0]) && i <= |s|
    ensures KeywordTargetsFrom(s, kw, i) == []
  {
    forall p | i <= p < |s|
      ensures TargetResume(s, kw)(p) <= p
    {
      assert UpperChar(s[p]) == s[p];
    }
    LeftmostStartsNone(TargetResume(s, kw), |s|, i);
    LeftmostGroupsCount(TargetResume(s, kw), TargetGroupOf(s, kw), |s|, i);
  }

  // ----- Table names -----

  /** The characters `strip('`"[]')` removes. */
  predicate IsTableQuote(c: char) {
    c == '`' || c == '"' || c == '[' || c == ']'
  }

  /** `m.strip('`"[]')`. */
  function StripTableQuotes(m: string): (t: string)
    ensures t == [] || (!IsTableQuote(t[0]) && !IsTableQuote(t[|t| - 1]))
  {
    StripBy(m, IsTableQuote)
  }

  /** The stripped name is the piece of the match left once the quote characters at both ends are gone. */
  lemma StripTableQuotesExact(m: string)
    ensures var t := StripTableQuotes(m);
            var a := |m| - |DropWhile(m, IsTableQuote)|;
            && a + |t| <= |m|
            && t == m[a..a + |t|]
            && (forall j | 0 <= j < a :: IsTableQuote(m[j]))
            && (forall j | a + |t| <= j < |m| :: IsTableQuote(m[j]))
  {
    StripByExact(m, IsTableQuote);
  }

  const ExcludedNames: seq<string> := ["WHERE", "ON", "SELECT", "AS"]

  const TableKeywords: seq<string> := ["FROM", "JOIN", "INTO", "UPDATE", "TABLE"]

  /** `t.upper() in ['WHERE', 'ON', 'SELECT', 'AS']`. */
  predicate IsExcludedName(t: string) {
    Upper(t) in ExcludedNames
  }

  /** What a kept table name looks like. */
  predicate IsTableName(t: string) {
    && t != ""
    && !IsTableQuote(t[0])
    && !IsTableQuote(t[|t| - 1])
    && !IsExcludedName(t)
  }

  /** One match with its quotes stripped, unless it is then empty or a keyword. */
  function CleanTable(m: string): (r: seq<string>)
    ensures |r| <= 1
    ensures forall t | t in r :: IsTableName(t)
    ensures r != [] <==> StripTableQuotes(m) != "" && !IsExcludedName(StripTableQuotes(m))
    ensures r != [] ==> r[0] == StripTableQuotes(m)
  {
    var t := StripTableQuotes(m);
    if t != "" && !IsExcludedName(t) then [t] else []
  }

  /** The names kept from the matches `ms`, in order. */
  function CleanTables(ms: seq<string>): (r: seq<string>)
    ensures forall t | t in r :: IsTableName(t)
  {
    if ms == [] then []
    else CleanTables(ms[..|ms| - 1]) + CleanTable(ms[|ms| - 1])
  }

  /** The candidates for the keywords `kws`, keyword by keyword. */
  function CandidatesFor(s: string, kws: seq<string>): (r: seq<string>)
    ensures forall t | t in r :: IsTableName(t)
  {
    if kws == [] then []
    else CandidatesFor(s, kws[..|kws| - 1]) + CleanTables(KeywordTargets(s, kws[|kws| - 1]))
  }

  /** Every name after FROM, JOIN, INTO, UPDATE or TABLE, duplicates included. */
  function TableCandidates(s: string): seq<string> {
    CandidatesFor(s, TableKeywords)
  }

  /** The extracted table names: the candidates, each once. */
  function TableNames(s: string): (r: seq<string>)
    ensures NoDuplicates(r)
    ensures forall t :: t in r <==> t in TableCandidates(s)
    ensures forall t | t in r :: IsTableName(t)
  {
    Dedup(TableCandidates(s))
  }

  lemma {:induction false} NoCandidatesInBlankText(s: string, kws: seq<string>)
    requires AllSpace(s)
    requires forall k | 0 <= k < |kws| :: |kws[k]| > 0 && IsAsciiUpper(kws[k][0])
    ensures CandidatesFor(s, kws) == []
  {
    if kws != [] {
      NoCandidatesInBlankText(s, kws[..|kws| - 1]);
      NoTargetsInBlankText(s, kws[|kws| - 1], 0);
    }
  }

  /** Blank text has no table names. */
  lemma NoTablesInBlankText(s: string)
    requires AllSpace(s)
    ensures TableCandidates(s) == []
  {
    NoCandidatesInBlankText(s, TableKeywords);
  }

  lemma CandidatesStep(s: string, kws: seq<string>, k: nat)
    requires k < |kws|
    ensures CandidatesFor(s, kws[..k + 1]) == CandidatesFor(s, kws[..k]) + CleanTables(KeywordTargets(s, kws[k]))
  {
    assert kws[..k + 1][..k] == kws[..k];
  }

  lemma CleanTablesStep(ms: seq<string>, j: nat)
    requires j < |ms|
    ensures CleanTables(ms[..j + 1]) == CleanTables(ms[..j]) + CleanTable(ms[j])
  {
    assert ms[..j + 1][..j] == ms[..j];
  }

  /** The inner loop of the table extraction: strip each match and keep it unless it is then empty or a keyword. */
  method CleanMatches(matches: seq<string>) returns (kept: seq<string>)
    ensures kept == CleanTables(matches)
  {
    kept := [];
    for j := 0 to |matches|
      invariant kept == CleanTables(matches[..j])
    {
      var table := StripTableQuotes(matches[j]);
      CleanTablesStep(matches, j);
      if table != "" && !IsExcludedName(table) {
        assert CleanTable(matches[j]) == [table];
        kept := kept + [table];
      } else {
        assert CleanTable(matches[j]) == [];
      }
    }
    assert matches[..|matches|] == matches;
  }

  /**
   * The loops shared by `extract_tables` and `_extract_table_names`: for
   * each keyword, for each match, strip and filter, then `list(set(...))`.
   */
  method CollectTableNames(s: string) returns (tables: seq<string>)
    ensures tables == TableNames(s)
  {
    var keywords := TableKeywords;
    var found: seq<string> := [];
    for k := 0 to |keywords|
      invariant found == CandidatesFor(s, keywords[..k])
    {
      var kept := CleanMatches(KeywordTargets(s, keywords[k]));
      CandidatesStep(s, keywords, k);
      found := found + kept;
    }
    assert keywords[..|keywords|] == keywords;
    tables := Dedup(found);
  }
}
