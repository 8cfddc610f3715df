/**
 * The suggestion generator: for each detected problem of a type it knows,
 * one concrete suggestion (title, priority, category, a suggested
 * statement), built from the query record and from what a few lexical
 * scrapers find in its text (WHERE, ORDER BY and JOIN columns, table
 * names, a rewrite of `LIKE '%`).
 *
 * The scrapers are written as scans with the semantics of Python's `re`;
 * `\w` and `\b` see ASCII word characters only.
 */
module OptimizationSuggester {
  import opened Util
  import opened Text
  import opened Patterns
  import SlowQuery
  import opened QueryAnalyzer

  datatype Priority = High | Medium | Low

  datatype Category = Index | Query | Schema | Config

  /** One suggestion; the three optional texts are `None` when not given. */
  datatype OptimizationSuggestion = OptimizationSuggestion(
    title: string,
    description: string,
    priority: Priority,
    category: Category,
    originalSql: string,
    suggestedSql: Option<string>,
    estimatedImprovement: Option<string>,
    implementationNotes: Option<string>)

  // ----- Identifiers: `\b([a-zA-Z_][a-zA-Z0-9_]*)` -----

  /** The end of the run of word characters from `k` (the greedy `[a-zA-Z0-9_]*`). */
  function WordEnd(c: string, k: nat): (r: nat)
    requires k <= |c|
    ensures k <= r <= |c|
    ensures r == |c| || !IsWordChar(c[r])
    decreases |c| - k
  {
    if k == |c| || !IsWordChar(c[k]) then k else WordEnd(c, k + 1)
  }

  lemma {:induction false} WordEndRun(c: string, k: nat)
    requires k <= |c|
    ensures forall j | k <= j < WordEnd(c, k) :: IsWordChar(c[j])
    decreases |c| - k
  {
    if k < |c| && IsWordChar(c[k]) {
      WordEndRun(c, k + 1);
    }
  }

  /** `\b[a-zA-Z_]` matches at `i`: an identifier starts there and not inside a word. */
  predicate IdentStartsAt(c: string, i: nat) {
    i < |c| && IsIdentStart(c[i]) && (i == 0 || !IsWordChar(c[i - 1]))
  }

  /** A text of the form `[a-zA-Z_][a-zA-Z0-9_]*`. */
  predicate IsIdentifier(t: string) {
    |t| > 0 && IsIdentStart(t[0]) && forall j | 0 <= j < |t| :: IsWordChar(t[j])
  }

  /** The word that starts at an identifier start is an identifier. */
  lemma IdentifierAt(c: string, i: nat)
    requires IdentStartsAt(c, i)
    ensures IsIdentifier(c[i..WordEnd(c, i)])
  {
    WordEndRun(c, i);
  }

  /**
   * `re.findall(r'\b([a-zA-Z_][a-zA-Z0-9_]*)\b', c)` from `i` on. The
   * closing `\b` always holds after the greedy run, so each match is a
   * whole word that starts with a letter or `_`.
   */
  function IdentTokensFrom(c: string, i: nat): seq<string>
    requires i <= |c|
    decreases |c| - i
  {
    if i == |c| then []
    else if IdentStartsAt(c, i) then [c[i..WordEnd(c, i)]] + IdentTokensFrom(c, WordEnd(c, i))
    else IdentTokensFrom(c, i + 1)
  }

  function IdentTokens(c: string): seq<string> {
    IdentTokensFrom(c, 0)
  }

  /** The tokens are exactly the words that start at an identifier start at or after `i`. */
  lemma {:induction false} IdentTokensExactly(c: string, i: nat)
    requires i <= |c|
    ensures forall t | t in IdentTokensFrom(c, i) :: exists j | i <= j < |c| :: IdentStartsAt(c, j) && t == c[j..WordEnd(c, j)]
    ensures forall j | i <= j < |c| && IdentStartsAt(c, j) :: c[j..WordEnd(c, j)] in IdentTokensFrom(c, i)
    decreases |c| - i
  {
    if i < |c| {
      if IdentStartsAt(c, i) {
        var e := WordEnd(c, i);
        IdentTokensExactly(c, e);
        WordEndRun(c, i);
        assert forall j | i < j < e :: !IdentStartsAt(c, j) by {
          forall j | i < j < e ensures !IdentStartsAt(c, j) {
            assert IsWordChar(c[j - 1]);
          }
        }
        assert IdentTokensFrom(c, i) == [c[i..e]] + IdentTokensFrom(c, e);
      } else {
        IdentTokensExactly(c, i + 1);
        assert IdentTokensFrom(c, i) == IdentTokensFrom(c, i + 1);
      }
    }
  }

  /** Every token is an identifier. */
  lemma IdentTokensAreIdentifiers(c: string)
    ensures forall t | t in IdentTokens(c) :: IsIdentifier(t)
  {
    IdentTokensExactly(c, 0);
    forall t | t in IdentTokens(c) ensures IsIdentifier(t) {
      var j :| 0 <= j < |c| && IdentStartsAt(c, j) && t == c[j..WordEnd(c, j)];
      IdentifierAt(c, j);
    }
  }

  // ----- Compared identifiers: `\b([a-zA-Z_][a-zA-Z0-9_]*)\s*[=<>!]` -----

  predicate IsComparisonChar(ch: char) {
    ch == '=' || ch == '<' || ch == '>' || ch == '!'
  }

  /**
   * The pattern matches at `i`: an identifier, optional whitespace, then
   * one of `=<>!`. Giving back characters of the greedy runs cannot help,
   * since a word or whitespace character would then come next.
   */
  predicate IdentOpAt(c: string, i: nat) {
    && IdentStartsAt(c, i)
    && var f := SpaceEnd(c, WordEnd(c, i));
       f < |c| && IsComparisonChar(c[f])
  }

  /** `re.findall(r'\b([a-zA-Z_][a-zA-Z0-9_]*)\s*[=<>!]', c)` from `i` on. */
  function IdentOpTokensFrom(c: string, i: nat): seq<string>
    requires i <= |c|
    decreases |c| - i
  {
    if i == |c| then []
    else if IdentOpAt(c, i) then [c[i..WordEnd(c, i)]] + IdentOpTokensFrom(c, SpaceEnd(c, WordEnd(c, i)) + 1)
    else IdentOpTokensFrom(c, i + 1)
  }

  function IdentOpTokens(c: string): seq<string> {
    IdentOpTokensFrom(c, 0)
  }

  /** No match starts inside a match: past its start come word characters, whitespace and the comparison character. */
  lemma NoIdentOpInside(c: string, i: nat)
    requires i < |c| && IdentOpAt(c, i)
    ensures forall j | i < j <= SpaceEnd(c, WordEnd(c, i)) :: !IdentOpAt(c, j)
  {
    var e := WordEnd(c, i);
    var f := SpaceEnd(c, e);
    WordEndRun(c, i);
    SpaceEndSkipsSpace(c, e);
    forall j | i < j <= f ensures !IdentStartsAt(c, j) {
      if j < e {
        assert IsWordChar(c[j - 1]);
      } else if j < f {
        assert IsSpace(c[j]);
      }
    }
  }

  /** The tokens are exactly the identifiers at or after `i` that are compared with `=<>!`. */
  lemma {:induction false} IdentOpTokensExactly(c: string, i: nat)
    requires i <= |c|
    ensures forall t | t in IdentOpTokensFrom(c, i) :: exists j | i <= j < |c| :: IdentOpAt(c, j) && t == c[j..WordEnd(c, j)]
    ensures forall j | i <= j < |c| && IdentOpAt(c, j) :: c[j..WordEnd(c, j)] in IdentOpTokensFrom(c, i)
    decreases |c| - i
  {
    if i < |c| {
      if IdentOpAt(c, i) {
        var e := WordEnd(c, i);
        var f := SpaceEnd(c, e);
        IdentOpTokensExactly(c, f + 1);
        NoIdentOpInside(c, i);
        assert IdentOpTokensFrom(c, i) == [c[i..e]] + IdentOpTokensFrom(c, f + 1);
      } else {
        IdentOpTokensExactly(c, i + 1);
        assert IdentOpTokensFrom(c, i) == IdentOpTokensFrom(c, i + 1);
      }
    }
  }

  /** Every compared token is an identifier. */
  lemma IdentOpTokensAreIdentifiers(c: string)
    ensures forall t | t in IdentOpTokens(c) :: IsIdentifier(t)
  {
    IdentOpTokensExactly(c, 0);
    forall t | t in IdentOpTokens(c) ensures IsIdentifier(t) {
      var j :| 0 <= j < |c| && IdentOpAt(c, j) && t == c[j..WordEnd(c, j)];
      IdentifierAt(c, j);
    }
  }

  // ----- `_extract_where_columns` -----

  /** `ORDER BY` or `GROUP BY`, in any case, starts at `i`. */
  predicate SeparatorAt(c: string, i: nat) {
    MatchesAt(c, "ORDER BY", i) || MatchesAt(c, "GROUP BY", i)
  }

  /** The first index at or after `i` where a separator starts, or `|c|`. */
  function SeparatorIndex(c: string, i: nat): (r: nat)
    requires i <= |c|
    ensures i <= r <= |c|
    ensures r == |c| || SeparatorAt(c, r)
    decreases |c| - i
  {
    if i == |c| || SeparatorAt(c, i) then i else SeparatorIndex(c, i + 1)
  }

  lemma {:induction false} SeparatorIndexIsFirst(c: string, i: nat)
    requires i <= |c|
    ensures forall j | i <= j < SeparatorIndex(c, i) :: !SeparatorAt(c, j)
    decreases |c| - i
  {
    if i < |c| && !SeparatorAt(c, i) {
      SeparatorIndexIsFirst(c, i + 1);
    }
  }

  /** `re.split(r'ORDER BY|GROUP BY', c, flags=re.IGNORECASE)[0]`. */
  function SplitHead(c: string): string {
    c[..SeparatorIndex(c, 0)]
  }

  /** The head is the prefix of the text up to the first separator, or the whole text when there is none. */
  lemma SplitHeadHasNoSeparator(c: string)
    ensures SplitHead(c) == c[..|SplitHead(c)|]
    ensures forall j | 0 <= j < |SplitHead(c)| :: !SeparatorAt(c, j)
    ensures |SplitHead(c)| == |c| || SeparatorAt(c, |SplitHead(c)|)
  {
    SeparatorIndexIsFirst(c, 0);
  }

  /** The columns `_extract_where_columns` returns. */
  function WhereColumns(sql: string): seq<string> {
    match KeywordClause(sql, "WHERE")
    case None => []
    case Some(w) => IdentOpTokens(SplitHead(w))
  }

  /**
   * With no WHERE clause there are no columns; otherwise the columns are
   * exactly the compared identifiers of the clause's part before the
   * first ORDER BY or GROUP BY, which is the whole clause when it has
   * neither.
   */
  lemma WhereColumnsExactly(sql: string)
    ensures KeywordClause(sql, "WHERE").None? ==> WhereColumns(sql) == []
    ensures KeywordClause(sql, "WHERE").Some? ==>
              var w := KeywordClause(sql, "WHERE").value;
              var h := SplitHead(w);
              && h == w[..|h|]
              && (forall j | 0 <= j < |h| :: !SeparatorAt(w, j))
              && (|h| == |w| || SeparatorAt(w, |h|))
              && (forall t | t in WhereColumns(sql) :: exists j | 0 <= j < |h| :: IdentOpAt(h, j) && t == h[j..WordEnd(h, j)])
              && (forall j | 0 <= j < |h| && IdentOpAt(h, j) :: h[j..WordEnd(h, j)] in WhereColumns(sql))
  {
    if KeywordClause(sql, "WHERE").Some? {
      var w := KeywordClause(sql, "WHERE").value;
      SplitHeadHasNoSeparator(w);
      IdentOpTokensExactly(SplitHead(w), 0);
    }
  }

  method ExtractWhereColumns(sql: string) returns (columns: seq<string>)
    ensures columns == WhereColumns(sql)
  {
    columns := [];
    var whereMatch := KeywordClause(sql, "WHERE");
    if whereMatch.Some? {
      var whereClause := SplitHead(whereMatch.value);
      var tokens := IdentOpTokens(whereClause);
      columns := columns + tokens;
    }
  }

  // ----- `_extract_order_columns` -----

  /** The columns `_extract_order_columns` returns: every word of the ORDER BY clause, direction words included. */
  function OrderColumns(sql: string): seq<string> {
    match KeywordClause(sql, "ORDER BY")
    case None => []
    case Some(o) => IdentTokens(o)
  }

  /** With no ORDER BY clause there are no columns; otherwise they are exactly the clause's words. */
  lemma OrderColumnsExactly(sql: string)
    ensures KeywordClause(sql, "ORDER BY").None? ==> OrderColumns(sql) == []
    ensures KeywordClause(sql, "ORDER BY").Some? ==>
              var o := KeywordClause(sql, "ORDER BY").value;
              && (forall t | t in OrderColumns(sql) :: exists j | 0 <= j < |o| :: IdentStartsAt(o, j) && t == o[j..WordEnd(o, j)])
              && (forall j | 0 <= j < |o| && IdentStartsAt(o, j) :: o[j..WordEnd(o, j)] in OrderColumns(sql))
  {
    if KeywordClause(sql, "ORDER BY").Some? {
      IdentTokensExactly(KeywordClause(sql, "ORDER BY").value, 0);
    }
  }

  method ExtractOrderColumns(sql: string) returns (columns: seq<string>)
    ensures columns == OrderColumns(sql)
  {
    columns := [];
    var orderMatch := KeywordClause(sql, "ORDER BY");
    if orderMatch.Some? {
      var tokens := IdentTokens(orderMatch.value);
      columns := columns + tokens;
    }
  }

  // ----- `_extract_join_columns`: `ON\s+([^;]+?)(?:JOIN|WHERE|GROUP BY|ORDER BY|$)` -----

  /** `$` without MULTILINE matches at `p`: the end of the text, or just before a final newline. */
  predicate EndAt(s: string, p: nat) {
    p == |s| || (p + 1 == |s| && s[p] == '\n')
  }

  /** The length of the terminator that matches at `p`, alternatives tried in the pattern's order. */
  function TerminatorAt(s: string, p: nat): (r: Option<nat>)
    requires p <= |s|
    ensures r.Some? ==> p + r.value <= |s|
  {
    if MatchesAt(s, "JOIN", p) then Some(4)
    else if MatchesAt(s, "WHERE", p) then Some(5)
    else if MatchesAt(s, "GROUP BY", p) then Some(8)
    else if MatchesAt(s, "ORDER BY", p) then Some(8)
    else if EndAt(s, p) then Some(0)
    else None
  }

  /** The lazy group's end: the first `p` in `[k, hi]` where a terminator matches. */
  function FirstTerminator(s: string, k: nat, hi: nat): (r: Option<nat>)
    requires hi <= |s|
    ensures r.Some? ==> k <= r.value <= hi && TerminatorAt(s, r.value).Some?
    decreases hi + 1 - k
  {
    if k > hi then None
    else if TerminatorAt(s, k).Some? then Some(k)
    else FirstTerminator(s, k + 1, hi)
  }

  /** No terminator matches before the one `FirstTerminator` gives, and none at all when it gives none. */
  lemma {:induction false} FirstTerminatorIsFirst(s: string, k: nat, hi: nat)
    requires hi <= |s|
    ensures forall p | k <= p <= hi && (FirstTerminator(s, k, hi).None? || p < FirstTerminator(s, k, hi).value) ::
              TerminatorAt(s, p).None?
    decreases hi + 1 - k
  {
    if k <= hi && TerminatorAt(s, k).None? {
      FirstTerminatorIsFirst(s, k + 1, hi);
    }
  }

  /** A match: the group is `s[groupStart..groupEnd]`, and the search resumes at `next`. */
  datatype JoinMatch = JoinMatch(groupStart: nat, groupEnd: nat, next: nat)

  /**
   * The match at `i`. The greedy `\s+` first takes the whole whitespace
   * run and the lazy group then grows up to the first terminator before
   * any `;`. Failing that, `\s+` gives back one whitespace character,
   * which becomes the group, and only a terminator right after the run
   * can then end it; giving back more cannot succeed either.
   */
  function JoinMatchAt(s: string, i: nat): (r: Option<JoinMatch>)
    requires i <= |s|
    ensures r.Some? ==>
              && MatchesAt(s, "ON", i)
              && i + 2 < r.value.groupStart < r.value.groupEnd <= r.value.next <= |s|
              && r.value.groupEnd <= CharIndex(s, ';', r.value.groupStart)
              && TerminatorAt(s, r.value.groupEnd).Some?
  {
    if !MatchesAt(s, "ON", i) then None
    else
      var e := SpaceEnd(s, i + 2);
      if e == i + 2 then None
      else
        assert IsSpace(s[e - 1]) by { SpaceEndSkipsSpace(s, i + 2); }
        JoinGroupAfter(s, i + 2, e)
  }

  /**
   * The rest of the match once `\s+` has taken the whitespace in
   * `s[b..e]`: the lazy group from `e` on, or else the last whitespace
   * character given back as the group.
   */
  function JoinGroupAfter(s: string, b: nat, e: nat): (r: Option<JoinMatch>)
    requires b < e <= |s| && IsSpace(s[e - 1])
    ensures r.Some? ==>
              && b < r.value.groupStart < r.value.groupEnd <= r.value.next <= |s|
              && r.value.groupEnd <= CharIndex(s, ';', r.value.groupStart)
              && TerminatorAt(s, r.value.groupEnd).Some?
  {
    var semicolon := CharIndex(s, ';', e);
    var lazy := if e < semicolon then FirstTerminator(s, e + 1, semicolon) else None;
    if lazy.Some? then
      Some(JoinMatch(e, lazy.value, lazy.value + TerminatorAt(s, lazy.value).value))
    else if e - b >= 2 && TerminatorAt(s, e).Some? then
      Some(JoinMatch(e - 1, e, e + TerminatorAt(s, e).value))
    else None
  }

  /**
   * The group starts where the whitespace ends, or is its last character;
   * no terminator matches strictly inside it, and the search goes on right
   * after the terminator that ends it.
   */
  lemma JoinGroupAfterShape(s: string, b: nat, e: nat)
    requires b < e <= |s| && IsSpace(s[e - 1])
    requires JoinGroupAfter(s, b, e).Some?
    ensures var m := JoinGroupAfter(s, b, e).value;
            && (m.groupStart == e || m.groupStart + 1 == e == m.groupEnd)
            && (forall p | m.groupStart < p < m.groupEnd :: TerminatorAt(s, p).None?)
            && m.next == m.groupEnd + TerminatorAt(s, m.groupEnd).value
  {
    var semicolon := CharIndex(s, ';', e);
    var lazy := if e < semicolon then FirstTerminator(s, e + 1, semicolon) else None;
    if lazy.Some? {
      FirstTerminatorIsFirst(s, e + 1, semicolon);
      assert JoinGroupAfter(s, b, e).value == JoinMatch(e, lazy.value, lazy.value + TerminatorAt(s, lazy.value).value);
    } else {
      assert JoinGroupAfter(s, b, e).value == JoinMatch(e - 1, e, e + TerminatorAt(s, e).value);
    }
  }

  /**
   * The shape of a match: only whitespace lies between `ON` and the group,
   * no terminator matches strictly inside the group, and the search goes on
   * right after the terminator that ends it.
   */
  lemma JoinMatchAtShape(s: string, i: nat)
    requires i <= |s|
    requires JoinMatchAt(s, i).Some?
    ensures var m := JoinMatchAt(s, i).value;
            && (forall j | i + 2 <= j < m.groupStart :: IsSpace(s[j]))
            && (forall p | m.groupStart < p < m.groupEnd :: TerminatorAt(s, p).None?)
            && m.next == m.groupEnd + TerminatorAt(s, m.groupEnd).value
  {
    var e := SpaceEnd(s, i + 2);
    SpaceEndSkipsSpace(s, i + 2);
    assert JoinMatchAt(s, i) == JoinGroupAfter(s, i + 2, e);
    JoinGroupAfterShape(s, i + 2, e);
  }

  /** Where the search goes on after a match at `p`, or `p` itself when none starts there. */
  function JoinMatchNext(s: string, p: nat): nat {
    if p <= |s| && JoinMatchAt(s, p).Some? then JoinMatchAt(s, p).value.next else p
  }

  /** `JoinMatchNext` as a function value, for the scan of `Util`. */
  function JoinResume(s: string): nat -> nat {
    p => JoinMatchNext(s, p)
  }

  /** Where the matches that `JoinClausesFrom` takes start, left to right. */
  function JoinStartsFrom(s: string, i: nat): seq<nat>
    requires i <= |s|
  {
    assert forall j | i <= j < |s| :: JoinResume(s)(j) <= |s|;
    LeftmostStarts(JoinResume(s), |s|, i)
  }

  /** The group of the match at `p`, if one starts there. */
  function JoinGroup(s: string, p: nat): string {
    if p <= |s| && JoinMatchAt(s, p).Some? then s[JoinMatchAt(s, p).value.groupStart..JoinMatchAt(s, p).value.groupEnd] else ""
  }

  /** `JoinGroup` as a function value, for the scan of `Util`. */
  function JoinGroupOf(s: string): nat -> string {
    (p: nat) => JoinGroup(s, p)
  }

  /** The groups of `re.findall` from `i` on, left to right. */
  function JoinClausesFrom(s: string, i: nat): seq<string>
    requires i <= |s|
  {
    assert forall j | i <= j < |s| :: JoinResume(s)(j) <= |s|;
    LeftmostGroups(JoinResume(s), JoinGroupOf(s), |s|, i)
  }

  function JoinClauses(sql: string): seq<string> {
    JoinClausesFrom(sql, 0)
  }

  /**
   * `re.findall` takes the `ON` matches left to right without overlap: the
   * k-th group is the group of the match at the k-th start, the search
   * after each match goes on at or before the next start, and every match
   * at or after `i` is taken unless it starts inside a match already taken.
   */
  lemma JoinClausesExactly(s: string, i: nat)
    requires i <= |s|
    ensures |JoinStartsFrom(s, i)| == |JoinClausesFrom(s, i)|
    ensures forall k | 0 <= k < |JoinStartsFrom(s, i)| ::
              && i <= JoinStartsFrom(s, i)[k] < |s|
              && JoinMatchAt(s, JoinStartsFrom(s, i)[k]).Some?
              && JoinClausesFrom(s, i)[k]
                 == s[JoinMatchAt(s, JoinStartsFrom(s, i)[k]).value.groupStart..JoinMatchAt(s, JoinStartsFrom(s, i)[k]).value.groupEnd]
    ensures forall k | 0 < k < |JoinStartsFrom(s, i)| ::
              JoinMatchNext(s, JoinStartsFrom(s, i)[k - 1]) <= JoinStartsFrom(s, i)[k]
    ensures forall j | i <= j < |s| && JoinMatchAt(s, j).Some? ::
              Covered(JoinResume(s), JoinStartsFrom(s, i), j)
  {
    assert forall j | i <= j < |s| :: JoinResume(s)(j) <= |s|;
    LeftmostGroupsAtStarts(JoinResume(s), JoinGroupOf(s), |s|, i);
    LeftmostStartsDisjoint(JoinResume(s), |s|, i);
    LeftmostStartsComplete(JoinResume(s), |s|, i);
    forall j | i <= j < |s| && JoinMatchAt(s, j).Some?
      ensures JoinResume(s)(j) > j
    {
    }
  }

  /** The group of a match is non-empty and free of `;`. */
  lemma JoinGroupShape(s: string, p: nat)
    requires p <= |s| && JoinMatchAt(s, p).Some?
    ensures |JoinGroup(s, p)| > 0 && forall j | 0 <= j < |JoinGroup(s, p)| :: JoinGroup(s, p)[j] != ';'
  {
    var m := JoinMatchAt(s, p).value;
    CharIndexIsFirst(s, ';', m.groupStart);
    assert JoinGroup(s, p) == s[m.groupStart..m.groupEnd];
  }

  /** Every group is non-empty and free of `;`. */
  lemma JoinClausesShape(s: string, i: nat)
    requires i <= |s|
    ensures forall k | 0 <= k < |JoinClausesFrom(s, i)| ::
              |JoinClausesFrom(s, i)[k]| > 0 && forall j | 0 <= j < |JoinClausesFrom(s, i)[k]| :: JoinClausesFrom(s, i)[k][j] != ';'
  {
    assert forall j | i <= j < |s| :: JoinResume(s)(j) <= |s|;
    LeftmostGroupsAtStarts(JoinResume(s), JoinGroupOf(s), |s|, i);
    var r := JoinClausesFrom(s, i);
    var starts := JoinStartsFrom(s, i);
    forall k | 0 <= k < |r|
      ensures |r[k]| > 0 && forall j | 0 <= j < |r[k]| :: r[k][j] != ';'
    {
      assert JoinResume(s)(starts[k]) > starts[k];
      JoinGroupShape(s, starts[k]);
      assert r[k] == JoinGroup(s, starts[k]);
    }
  }

  /** The words of each group in turn. */
  function ClauseTokens(ms: seq<string>): seq<string> {
    if ms == [] then [] else ClauseTokens(ms[..|ms| - 1]) + IdentTokens(ms[|ms| - 1])
  }

  /** The columns `_extract_join_columns` returns. */
  function JoinColumns(sql: string): seq<string> {
    ClauseTokens(JoinClauses(sql))
  }

  /** A word is among the groups' tokens exactly when it is a token of one of the groups. */
  lemma {:induction false} ClauseTokensExactly(ms: seq<string>)
    ensures forall t :: t in ClauseTokens(ms) <==> exists k | 0 <= k < |ms| :: t in IdentTokens(ms[k])
  {
    if ms != [] {
      var init := ms[..|ms| - 1];
      ClauseTokensExactly(init);
      assert forall k | 0 <= k < |init| :: init[k] == ms[k];
    }
  }

  /** Every group token is an identifier. */
  lemma ClauseTokensAreIdentifiers(ms: seq<string>)
    ensures forall t | t in ClauseTokens(ms) :: IsIdentifier(t)
  {
    ClauseTokensExactly(ms);
    forall t | t in ClauseTokens(ms) ensures IsIdentifier(t) {
      var k :| 0 <= k < |ms| && t in IdentTokens(ms[k]);
      IdentTokensAreIdentifiers(ms[k]);
    }
  }

  method ExtractJoinColumns(sql: string) returns (columns: seq<string>)
    ensures columns == JoinColumns(sql)
  {
    columns := [];
    var joinMatch := JoinClauses(sql);
    for k := 0 to |joinMatch|
      invariant columns == ClauseTokens(joinMatch[..k])
    {
      assert joinMatch[..k + 1][..k] == joinMatch[..k];
      var tokens := IdentTokens(joinMatch[k]);
      columns := columns + tokens;
    }
    assert joinMatch[..|joinMatch|] == joinMatch;
  }

  // ----- `_extract_table_names` -----

  /**
   * The names after FROM, JOIN, INTO, UPDATE and TABLE, matched in any
   * case on the text as given, quotes stripped, keywords dropped, each once.
   */
  method ExtractTableNames(sql: string) returns (tables: seq<string>)
    ensures NoDuplicates(tables)
    ensures forall t :: t in tables <==> t in TableCandidates(sql)
    ensures forall t | t in tables :: IsTableName(t)
    ensures tables == TableNames(sql)
  {
    tables := CollectTableNames(sql);
  }

  // ----- The builders -----

  // The fixed texts of the seven suggestions.

  const IndexTitle: string := "添加索引优化查询"
  const IndexDescriptionHead: string := "查询执行时间过长（"
  const IndexDescriptionTail: string := "s），建议为相关列添加索引"
  /** The SQL comment marker that opens every suggested statement. */
  const CommentMark: string := "--"

  const IndexStatementHead: string := CommentMark + " 为表添加索引建议\nCREATE INDEX idx_optimization ON your_table ("
  const IndexImprovement: string := "预计可提升 50%-90% 的查询性能"
  const IndexNotesHead: string := "1. 确认 "
  const IndexNotesTail: string := " 列的选择性\n2. 考虑创建复合索引\n3. 分析索引的使用频率"

  const SelectStarTitle: string := "避免使用 SELECT *"
  const SelectStarDescription: string := "SELECT * 会返回所有列，增加 I/O 和网络传输开销"
  const SelectStatementHead: string := CommentMark + " 建议指定具体列名\nSELECT col1, col2, col3 FROM "
  const SelectStarImprovement: string := "减少 30%-70% 的数据传输量"
  const SelectStarNotes: string := "1. 只选择需要的列\n2. 避免返回大字段（如 TEXT/BLOB）\n3. 可以减少内存使用"

  const LikeTitle: string := "优化 LIKE 查询"
  const LikeDescription: string := "LIKE 使用前缀通配符（%xxx）无法使用索引"
  const LikeImprovement: string := "索引命中率从 0% 提升到接近 100%"
  const LikeNotes: string := "1. 使用后缀通配符（xxx%）\n2. 或者考虑全文索引\n3. 或者使用倒排索引"

  const OrTitle: string := "用 UNION ALL 替代 OR"
  const OrDescription: string := "OR 条件可能导致索引失效，使用 UNION ALL 可能更高效"
  const OrImprovement: string := "索引命中率可能提升 20%-50%"
  const OrNotes: string := "1. 测试两种方式的性能\n2. 确保条件互斥时使用 UNION ALL\n3. 条件可能重叠时使用 UNION"

  const FunctionTitle: string := "避免 WHERE 子句中使用函数"
  const FunctionDescription: string := "函数会阻止索引使用，建议改写查询逻辑"
  const FunctionImprovement: string := "索引命中率可从 0% 提升到 100%"
  const FunctionNotes: string := "1. 将函数应用到常量上\n2. 使用范围查询代替函数\n3. 考虑创建计算列索引"

  const RowsTitle: string := "减少扫描行数"
  const RowsDescriptionHead: string := "当前扫描 "
  const RowsDescriptionTail: string := " 行，远超建议阈值"
  const RowsStatementHead: string := CommentMark + " 建议优化查询减少扫描行数\n-- 当前扫描行数: "
  /** The steps that follow the scan count, without the template's final newline. */
  const RowsStatementSteps: string := "\n\n1. 添加更精确的 WHERE 条件\n2. 利用分区裁剪\n3. 使用索引覆盖\n4. 考虑数据分区策略"
  const RowsImprovement: string := "可减少 50%-99% 的扫描行数"
  const RowsNotes: string := "1. 分析查询计划确定瓶颈\n2. 添加合适的 WHERE 条件\n3. 创建复合索引"

  const CteTitle: string := "优化子查询为 CTE 或 JOIN"
  const CteDescription: string := "子查询可能导致性能问题，考虑使用 CTE 或 JOIN"
  const CteImprovement: string := "预计提升 20%-60% 的性能"
  const CteNotes: string := "1. 评估子查询是否可转为 JOIN\n2. 使用 CTE 提高可读性\n3. 测试优化前后性能"

  // The fixed suggested statements, without the final newline of the
  // source's templates (`FixedStatementsStripped`).

  const OrStatement: string :=
    CommentMark + " 建议使用 UNION ALL 替代 OR\n" + "SELECT * FROM table1 WHERE condition1\n"
    + "UNION ALL\n" + "SELECT * FROM table1 WHERE condition2;"

  const FunctionStatement: string :=
    CommentMark + " 示例：将函数移到比较符号另一侧\n" + "-- 原始: WHERE YEAR(created_at) = 2023\n"
    + "-- 优化: WHERE created_at >= '2023-01-01' AND " + "created_at < '2024-01-01'"

  const CteStatement: string :=
    CommentMark + " 建议使用 CTE (WITH 子句) 或 JOIN\n" + "-- CTE 示例:\n"
    + "WITH cte1 AS (\n" + "    SELECT ... FROM table1 WHERE ...\n" + "),\n"
    + "cte2 AS (\n" + "    SELECT ... FROM table2 WHERE ...\n" + ")\n"
    + "SELECT ... FROM cte1 JOIN cte2 ON ...;"

  /** The column named when no WHERE, ORDER BY or JOIN column is found ("relevant columns"). */
  const PlaceholderColumn: string := "相关列"

  /** The index suggestion's columns: the WHERE, ORDER BY and JOIN columns, each once. */
  function IndexColumns(sql: string): seq<string> {
    var columns := Dedup(WhereColumns(sql) + OrderColumns(sql) + JoinColumns(sql));
    if columns == [] then [PlaceholderColumn] else columns
  }

  /** The columns are the duplicate-free union of the three lists, or only the placeholder when all three are empty. */
  lemma IndexColumnsUnion(sql: string)
    ensures NoDuplicates(IndexColumns(sql))
    ensures var all := WhereColumns(sql) + OrderColumns(sql) + JoinColumns(sql);
            && (all == [] ==> IndexColumns(sql) == [PlaceholderColumn])
            && (all != [] ==> forall t :: t in IndexColumns(sql) <==> t in all)
  {
    var all := WhereColumns(sql) + OrderColumns(sql) + JoinColumns(sql);
    if all != [] {
      assert all[0] in Dedup(all);
    }
  }

  /** Every column the index suggestion names is an identifier, unless it is the placeholder. */
  lemma IndexColumnsAreIdentifiers(sql: string)
    ensures forall t | t in IndexColumns(sql) :: t == PlaceholderColumn || IsIdentifier(t)
  {
    IndexColumnsUnion(sql);
    match KeywordClause(sql, "WHERE") {
      case None =>
      case Some(w) => IdentOpTokensAreIdentifiers(SplitHead(w));
    }
    match KeywordClause(sql, "ORDER BY") {
      case None =>
      case Some(o) => IdentTokensAreIdentifiers(o);
    }
    ClauseTokensAreIdentifiers(JoinClauses(sql));
  }

  /** The CREATE INDEX statement over `columns`, before `strip()`. */
  function IndexTemplate(columns: seq<string>): string {
    "\n" + IndexStatementHead + Join(columns, ", ") + ");\n"
  }

  /** `strip()` removes exactly the two newlines around the CREATE INDEX statement, whatever the column list. */
  lemma StripIndexTemplate(list: string)
    ensures Strip("\n" + IndexStatementHead + list + ");\n") == IndexStatementHead + list + ");"
  {
    var front := IndexStatementHead + list;
    var close := ");";
    var body := front + close;
    assert body[0] == front[0] == IndexStatementHead[0] == '-';
    assert close[1] == ';';
    assert body[|body| - 1] == close[1];
    assert "\n" + IndexStatementHead + list + ");\n" == "\n" + body + "\n";
    StripNewlines(body);
  }

  /**
   * `_suggest_index_optimization`: a HIGH index suggestion whose statement
   * is the CREATE INDEX statement over the index columns, without the
   * surrounding newlines. `twoDecimals` renders the execution time in the
   * description.
   */
  function IndexSuggestion(q: SlowQuery.SlowQueryInfo, twoDecimals: real -> string): (r: OptimizationSuggestion)
    ensures r.priority == High && r.category == Index && r.originalSql == q.queryText
    ensures r.suggestedSql == Some(IndexStatementHead + Join(IndexColumns(q.queryText), ", ") + ");")
  {
    var columns := IndexColumns(q.queryText);
    StripIndexTemplate(Join(columns, ", "));
    OptimizationSuggestion(
      IndexTitle,
      IndexDescriptionHead + twoDecimals(q.executionTime) + IndexDescriptionTail,
      High, Index, q.queryText,
      Some(Strip(IndexTemplate(columns))),
      Some(IndexImprovement),
      Some(IndexNotesHead + Join(columns, ", ") + IndexNotesTail))
  }

  /** The SELECT * replacement, naming `table`. */
  function SelectTemplate(table: string): string {
    SelectStatementHead + table + " WHERE ...;"
  }

  /** The table the SELECT * suggestion names: an extracted table name, or `your_table` when there is none. */
  function SuggestedTable(sql: string): string {
    var tables := TableNames(sql);
    if tables != [] then tables[0] else "your_table"
  }

  /** `strip()` leaves the SELECT * replacement as it is, whatever the table. */
  lemma StripSelectTemplate(table: string)
    ensures Strip(SelectTemplate(table)) == SelectTemplate(table)
  {
    var tail := table + " WHERE ...;";
    var s := SelectStatementHead + tail;
    assert s[0] == SelectStatementHead[0] == '-';
    assert s[|s| - 1] == tail[|tail| - 1] == ';';
    StripUnchanged(s);
  }

  /** `_suggest_specific_columns`: a MEDIUM query suggestion naming the table `SuggestedTable` picks. */
  function SpecificColumnsSuggestion(q: SlowQuery.SlowQueryInfo): (r: OptimizationSuggestion)
    ensures r.priority == Medium && r.category == Query && r.originalSql == q.queryText
    ensures r.suggestedSql == Some(SelectTemplate(SuggestedTable(q.queryText)))
  {
    StripSelectTemplate(SuggestedTable(q.queryText));
    OptimizationSuggestion(
      SelectStarTitle, SelectStarDescription, Medium, Query, q.queryText,
      Some(Strip(SelectTemplate(SuggestedTable(q.queryText)))),
      Some(SelectStarImprovement),
      Some(SelectStarNotes))
  }

  /**
   * The table named is one of the query's table names, or `your_table`
   * when no table name is found.
   */
  lemma SpecificColumnsNamesTable(q: SlowQuery.SlowQueryInfo)
    ensures TableCandidates(q.queryText) == [] ==> SuggestedTable(q.queryText) == "your_table"
    ensures TableCandidates(q.queryText) != [] ==>
              SuggestedTable(q.queryText) in TableCandidates(q.queryText) && IsTableName(SuggestedTable(q.queryText))
  {
    var candidates := TableCandidates(q.queryText);
    if candidates != [] {
      assert candidates[0] in TableNames(q.queryText);
    }
  }

  // ----- `re.sub(r"LIKE\s+['\"]%", "LIKE '", sql, flags=re.IGNORECASE)` -----

  /** The pattern matches at `i`: LIKE in any case, whitespace, a quote, then `%`. */
  predicate LikeWildcardAt(s: string, i: nat) {
    && MatchesAt(s, "LIKE", i)
    && var e := SpaceEnd(s, i + 4);
       e > i + 4 && e + 1 < |s| && IsQuoteChar(s[e]) && s[e + 1] == '%'
  }

  /** The substitution from `i` on: each match becomes `LIKE '`, everything else is copied. */
  function LikeRewriteFrom(s: string, i: nat): string
    requires i <= |s|
    decreases |s| - i
  {
    if i == |s| then []
    else if LikeWildcardAt(s, i) then "LIKE '" + LikeRewriteFrom(s, SpaceEnd(s, i + 4) + 2)
    else [s[i]] + LikeRewriteFrom(s, i + 1)
  }

  function LikeRewrite(s: string): string {
    LikeRewriteFrom(s, 0)
  }

  /** One step of `LikeRewriteFrom`. */
  lemma LikeRewriteStep(s: string, i: nat)
    requires i < |s|
    ensures LikeWildcardAt(s, i) ==>
              && i + 7 <= SpaceEnd(s, i + 4) + 2 <= |s|
              && LikeRewriteFrom(s, i) == "LIKE '" + LikeRewriteFrom(s, SpaceEnd(s, i + 4) + 2)
    ensures !LikeWildcardAt(s, i) ==> LikeRewriteFrom(s, i) == [s[i]] + LikeRewriteFrom(s, i + 1)
  {
  }

  /** A character where the pattern does not match is copied. */
  lemma LikeCopyStep(s: string, i: nat)
    requires i < |s| && !LikeWildcardAt(s, i)
    ensures LikeRewriteFrom(s, i) == [s[i]] + LikeRewriteFrom(s, i + 1)
  {
    LikeRewriteStep(s, i);
  }

  /** A match is replaced by `LIKE '` and the rewrite goes on right after its `%`. */
  lemma LikeMatchStep(s: string, i: nat)
    requires i < |s| && LikeWildcardAt(s, i)
    ensures i + 7 <= SpaceEnd(s, i + 4) + 2 <= |s|
    ensures LikeRewriteFrom(s, i) == "LIKE '" + LikeRewriteFrom(s, SpaceEnd(s, i + 4) + 2)
  {
    LikeRewriteStep(s, i);
  }

  /** The result is never longer than the text it rewrites. */
  lemma {:induction false} LikeRewriteNoLonger(s: string, i: nat)
    requires i <= |s|
    ensures |LikeRewriteFrom(s, i)| <= |s| - i
    decreases |s| - i
  {
    if i < |s| {
      LikeRewriteStep(s, i);
      if LikeWildcardAt(s, i) {
        LikeRewriteNoLonger(s, SpaceEnd(s, i + 4) + 2);
      } else {
        LikeRewriteNoLonger(s, i + 1);
      }
    }
  }

  /**
   * Up to the first match at or after `i` the text is copied; that match
   * becomes `LIKE '` and the rewrite goes on right after its `%`.
   */
  lemma LikeRewriteUpToMatch(s: string, i: nat, j: nat)
    requires i <= j < |s| && LikeWildcardAt(s, j)
    requires forall k | i <= k < j :: !LikeWildcardAt(s, k)
    ensures j + 7 <= SpaceEnd(s, j + 4) + 2 <= |s|
    ensures LikeRewriteFrom(s, i) == s[i..j] + "LIKE '" + LikeRewriteFrom(s, SpaceEnd(s, j + 4) + 2)
  {
    LikeRewriteCopiesUpTo(s, i, j);
    LikeMatchStep(s, j);
  }

  /** A stretch without a match is copied as it is. */
  lemma {:induction false} LikeRewriteCopiesUpTo(s: string, i: nat, j: nat)
    requires i <= j <= |s|
    requires forall k | i <= k < j :: !LikeWildcardAt(s, k)
    ensures LikeRewriteFrom(s, i) == s[i..j] + LikeRewriteFrom(s, j)
    decreases j - i
  {
    if i < j {
      LikeCopyStep(s, i);
      LikeRewriteCopiesUpTo(s, i + 1, j);
      assert s[i..j] == [s[i]] + s[i + 1..j];
      AppendAssoc([s[i]], s[i + 1..j], LikeRewriteFrom(s, j));
    }
  }

  /** Without a match the text is copied. */
  lemma {:induction false} LikeRewriteCopies(s: string, i: nat)
    requires i <= |s|
    requires forall j | i <= j < |s| :: !LikeWildcardAt(s, j)
    ensures LikeRewriteFrom(s, i) == s[i..]
    decreases |s| - i
  {
    if i < |s| {
      LikeRewriteStep(s, i);
      LikeRewriteCopies(s, i + 1);
      assert s[i..] == [s[i]] + s[i + 1..];
    }
  }

  /** The first match at or after `i`, given that there is one at `j`. */
  function FirstLikeMatch(s: string, i: nat, j: nat): (f: nat)
    requires i <= j < |s| && LikeWildcardAt(s, j)
    ensures i <= f <= j && LikeWildcardAt(s, f)
    ensures forall k | i <= k < f :: !LikeWildcardAt(s, k)
    decreases j - i
  {
    if LikeWildcardAt(s, i) then i else FirstLikeMatch(s, i + 1, j)
  }

  /** A match at `j` makes the result strictly shorter: each replaced match is longer than `LIKE '`. */
  lemma LikeRewriteShortens(s: string, i: nat, j: nat)
    requires i <= j < |s| && LikeWildcardAt(s, j)
    ensures |LikeRewriteFrom(s, i)| < |s| - i
  {
    var f := FirstLikeMatch(s, i, j);
    var n := SpaceEnd(s, f + 4) + 2;
    LikeRewriteUpToMatch(s, i, f);
    var rest := LikeRewriteFrom(s, n);
    LikeRewriteNoLonger(s, n);
    assert |LikeRewriteFrom(s, i)| == (f - i) + 6 + |rest|;
  }

  /** The rewrite leaves the text unchanged exactly when the pattern matches nowhere, and never lengthens it. */
  lemma LikeRewriteUnchanged(s: string)
    ensures |LikeRewrite(s)| <= |s|
    ensures LikeRewrite(s) == s <==> forall j | 0 <= j < |s| :: !LikeWildcardAt(s, j)
  {
    LikeRewriteNoLonger(s, 0);
    if forall j | 0 <= j < |s| :: !LikeWildcardAt(s, j) {
      LikeRewriteCopies(s, 0);
    }
    forall j | 0 <= j < |s| && LikeWildcardAt(s, j) ensures LikeRewrite(s) != s {
      LikeRewriteShortens(s, 0, j);
    }
  }

  /**
   * Where the analyzer's LIKE check fires on the upper-cased text (a
   * quote and `%` followed by a non-`%`), the rewrite matches on the text
   * as given, so the suggested statement differs from the query.
   */
  lemma LikeProblemIsRewritten(s: string)
    requires HasLikePrefixWildcard(Upper(s))
    ensures LikeRewrite(s) != s
  {
    HasLikePrefixWildcardFound(Upper(s), 0);
    var i: nat :| i < |Upper(s)| && LikePrefixWildcardAt(Upper(s), i);
    MatchesAtUpperText(Upper(s), "LIKE", i) by { UpperIsUpperText(s); }
    MatchesAtUpper(s, "LIKE", i);
    SpaceEndUpper(s, i + 4);
    assert LikeWildcardAt(s, i);
    LikeRewriteShortens(s, 0, i);
  }

  /**
   * `_suggest_like_optimization`: a HIGH query suggestion whose statement
   * is the rewritten query, never longer than the query and equal to it
   * exactly when no prefix wildcard is found.
   */
  function LikeSuggestion(q: SlowQuery.SlowQueryInfo): (r: OptimizationSuggestion)
    ensures r.priority == High && r.category == Query && r.originalSql == q.queryText
    ensures r.suggestedSql.Some? && |r.suggestedSql.value| <= |q.queryText|
    ensures r.suggestedSql == Some(q.queryText) <==> forall j | 0 <= j < |q.queryText| :: !LikeWildcardAt(q.queryText, j)
  {
    LikeRewriteUnchanged(q.queryText);
    OptimizationSuggestion(
      LikeTitle, LikeDescription, High, Query, q.queryText,
      Some(LikeRewrite(q.queryText)),
      Some(LikeImprovement),
      Some(LikeNotes))
  }

  /** The source's fixed templates end with one newline, which `strip()` removes and nothing else. */
  lemma FixedStatementsStripped()
    ensures Strip(OrStatement + "\n") == OrStatement
    ensures Strip(FunctionStatement + "\n") == FunctionStatement
    ensures Strip(CteStatement + "\n") == CteStatement
  {
    assert OrStatement[0] == CommentMark[0] == '-';
    assert OrStatement[|OrStatement| - 1] == ';';
    StripFinalNewline(OrStatement);
    assert FunctionStatement[0] == CommentMark[0] == '-';
    assert FunctionStatement[|FunctionStatement| - 1] == '\'';
    StripFinalNewline(FunctionStatement);
    assert CteStatement[0] == CommentMark[0] == '-';
    assert CteStatement[|CteStatement| - 1] == ';';
    StripFinalNewline(CteStatement);
  }

  /** `_suggest_or_replacement`: a LOW query suggestion with the fixed UNION ALL statement. */
  function OrSuggestion(q: SlowQuery.SlowQueryInfo): (r: OptimizationSuggestion)
    ensures r.priority == Low && r.category == Query && r.originalSql == q.queryText
  {
    OptimizationSuggestion(
      OrTitle, OrDescription, Low, Query, q.queryText,
      Some(OrStatement), Some(OrImprovement), Some(OrNotes))
  }

  /** `_suggest_function_optimization`: a MEDIUM query suggestion with the fixed rewriting example. */
  function FunctionSuggestion(q: SlowQuery.SlowQueryInfo): (r: OptimizationSuggestion)
    ensures r.priority == Medium && r.category == Query && r.originalSql == q.queryText
  {
    OptimizationSuggestion(
      FunctionTitle, FunctionDescription, Medium, Query, q.queryText,
      Some(FunctionStatement), Some(FunctionImprovement), Some(FunctionNotes))
  }

  /** `strip()` removes only the final newline of the row-reduction template, whatever the count shown. */
  lemma StripRowsTemplate(rows: string)
    ensures Strip(RowsStatementHead + rows + RowsStatementSteps + "\n") == RowsStatementHead + rows + RowsStatementSteps
  {
    var front := RowsStatementHead + rows;
    var body := front + RowsStatementSteps;
    assert body[0] == front[0] == RowsStatementHead[0] == CommentMark[0] == '-';
    assert body[|body| - 1] == RowsStatementSteps[|RowsStatementSteps| - 1] == '略';
    StripFinalNewline(body);
  }

  /**
   * `_suggest_row_reduction`: a HIGH query suggestion whose description
   * and statement show the scan count as `scan_rows_formatted` renders it.
   */
  function RowReductionSuggestion(q: SlowQuery.SlowQueryInfo, twoDecimals: real -> string): (r: OptimizationSuggestion)
    ensures r.priority == High && r.category == Query && r.originalSql == q.queryText
    ensures var rows := SlowQuery.FormattedText(SlowQuery.ScanRowsFormatted(q.scanRows), twoDecimals);
            && r.description == RowsDescriptionHead + rows + RowsDescriptionTail
            && r.suggestedSql == Some(RowsStatementHead + rows + RowsStatementSteps)
  {
    var rows := SlowQuery.FormattedText(SlowQuery.ScanRowsFormatted(q.scanRows), twoDecimals);
    StripRowsTemplate(rows);
    OptimizationSuggestion(
      RowsTitle,
      RowsDescriptionHead + rows + RowsDescriptionTail,
      High, Query, q.queryText,
      Some(Strip(RowsStatementHead + rows + RowsStatementSteps + "\n")),
      Some(RowsImprovement),
      Some(RowsNotes))
  }

  /** `_suggest_cte_or_join`: a MEDIUM query suggestion with the fixed CTE example. */
  function CteOrJoinSuggestion(q: SlowQuery.SlowQueryInfo): (r: OptimizationSuggestion)
    ensures r.priority == Medium && r.category == Query && r.originalSql == q.queryText
  {
    OptimizationSuggestion(
      CteTitle, CteDescription, Medium, Query, q.queryText,
      Some(CteStatement), Some(CteImprovement), Some(CteNotes))
  }

  // ----- Dispatch and generation -----

  /** The seven problem types that have a suggestion builder. */
  predicate Handled(t: ProblemType) {
    || t == FullTableScan || t == SelectStar || t == LikePrefixWildcard || t == OrCondition
    || t == FunctionInWhere || t == TooManyRows || t == SubqueryInefficient
  }

  /**
   * `_generate_suggestion_for_problem`: the builder for the problem's type,
   * with the fixed priority and category of that type, or nothing for the
   * other types.
   */
  function SuggestionFor(q: SlowQuery.SlowQueryInfo, p: QueryProblem, twoDecimals: real -> string): (r: Option<OptimizationSuggestion>)
    ensures r.Some? <==> Handled(p.problemType)
    ensures r.Some? ==> r.value.originalSql == q.queryText
    ensures p.problemType == FullTableScan ==> r.Some? && r.value.priority == High && r.value.category == Index
    ensures p.problemType == SelectStar ==> r.Some? && r.value.priority == Medium && r.value.category == Query
    ensures p.problemType == LikePrefixWildcard ==> r.Some? && r.value.priority == High && r.value.category == Query
    ensures p.problemType == OrCondition ==> r.Some? && r.value.priority == Low && r.value.category == Query
    ensures p.problemType == FunctionInWhere ==> r.Some? && r.value.priority == Medium && r.value.category == Query
    ensures p.problemType == TooManyRows ==> r.Some? && r.value.priority == High && r.value.category == Query
    ensures p.problemType == SubqueryInefficient ==> r.Some? && r.value.priority == Medium && r.value.category == Query
  {
    match p.problemType
    case FullTableScan => Some(IndexSuggestion(q, twoDecimals))
    case SelectStar => Some(SpecificColumnsSuggestion(q))
    case LikePrefixWildcard => Some(LikeSuggestion(q))
    case OrCondition => Some(OrSuggestion(q))
    case FunctionInWhere => Some(FunctionSuggestion(q))
    case TooManyRows => Some(RowReductionSuggestion(q, twoDecimals))
    case SubqueryInefficient => Some(CteOrJoinSuggestion(q))
    case NoIndex => None
    case MemoryIntensive => None
    case JoinInefficient => None
    case OrderByExpensive => None
    case GroupByExpensive => None
    case LargeResultSet => None
    case NoWhereClause => None
  }

  /** The suggestions for `ps`, in order. */
  function SuggestionsFor(q: SlowQuery.SlowQueryInfo, ps: seq<QueryProblem>, twoDecimals: real -> string): seq<OptimizationSuggestion> {
    if ps == [] then []
    else
      SuggestionsFor(q, ps[..|ps| - 1], twoDecimals)
      + match SuggestionFor(q, ps[|ps| - 1], twoDecimals)
        case Some(s) => [s]
        case None => []
  }

  /** The problems of a handled type, in order, duplicates kept. */
  function HandledProblems(ps: seq<QueryProblem>): seq<QueryProblem> {
    if ps == [] then []
    else HandledProblems(ps[..|ps| - 1]) + (if Handled(ps[|ps| - 1].problemType) then [ps[|ps| - 1]] else [])
  }

  /**
   * One suggestion per handled problem, in the problems' order: the k-th
   * suggestion is the one built for the k-th handled problem.
   */
  lemma {:induction false} SuggestionsFollowProblems(q: SlowQuery.SlowQueryInfo, ps: seq<QueryProblem>, twoDecimals: real -> string)
    ensures |SuggestionsFor(q, ps, twoDecimals)| == |HandledProblems(ps)| <= |ps|
    ensures forall k | 0 <= k < |HandledProblems(ps)| ::
              SuggestionFor(q, HandledProblems(ps)[k], twoDecimals) == Some(SuggestionsFor(q, ps, twoDecimals)[k])
  {
    if ps != [] {
      var init := ps[..|ps| - 1];
      SuggestionsFollowProblems(q, init, twoDecimals);
      var before := SuggestionsFor(q, init, twoDecimals);
      var handled := HandledProblems(init);
      assert forall k | 0 <= k < |handled| :: HandledProblems(ps)[k] == handled[k];
      assert forall k | 0 <= k < |before| :: SuggestionsFor(q, ps, twoDecimals)[k] == before[k];
    }
  }

  /** Every suggestion carries the query's own text. */
  lemma SuggestionsKeepQueryText(q: SlowQuery.SlowQueryInfo, ps: seq<QueryProblem>, twoDecimals: real -> string)
    ensures forall s | s in SuggestionsFor(q, ps, twoDecimals) :: s.originalSql == q.queryText
  {
    SuggestionsFollowProblems(q, ps, twoDecimals);
    var r := SuggestionsFor(q, ps, twoDecimals);
    forall s | s in r ensures s.originalSql == q.queryText {
      var k :| 0 <= k < |r| && r[k] == s;
      assert SuggestionFor(q, HandledProblems(ps)[k], twoDecimals) == Some(s);
    }
  }

  /**
   * `generate_suggestions`: the loop over the problems, appending each
   * suggestion that is built. The schema argument is not used.
   */
  method GenerateSuggestions(q: SlowQuery.SlowQueryInfo, problems: seq<QueryProblem>, twoDecimals: real -> string)
    returns (suggestions: seq<OptimizationSuggestion>)
    ensures suggestions == SuggestionsFor(q, problems, twoDecimals)
  {
    suggestions := [];
    for i := 0 to |problems|
      invariant suggestions == SuggestionsFor(q, problems[..i], twoDecimals)
    {
      assert problems[..i + 1][..i] == problems[..i];
      var suggestion := SuggestionFor(q, problems[i], twoDecimals);
      if suggestion.Some? {
        suggestions := suggestions + [suggestion.value];
      }
    }
    assert problems[..|problems|] == problems;
  }
}
