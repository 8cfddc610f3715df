/** Small collection helpers shared by the other modules. */
module Util {

  datatype Option<+T> = None | Some(value: T)

  /** No element occurs twice. */
  predicate NoDuplicates<T(==)>(s: seq<T>) {
    forall i, j | 0 <= i < j < |s| :: s[i] != s[j]
  }

  /**
   * The model of Python's `list(set(xs))`: the same elements, each once.
   * Python leaves the order unspecified; this definition keeps the last
   * occurrence of each element, but callers rely only on the contract.
   */
  function Dedup(s: seq<string>): (r: seq<string>)
    ensures NoDuplicates(r)
    ensures forall x :: x in r <==> x in s
    ensures |r| <= |s|
  {
    if s == [] then []
    else if s[0] in s[1..] then Dedup(s[1..])
    else [s[0]] + Dedup(s[1..])
  }

  /** Concatenation is associative. */
  lemma AppendAssoc<T>(a: seq<T>, b: seq<T>, c: seq<T>)
    ensures (a + b) + c == a + (b + c)
  {
  }

  /** The total length of `parts`. */
  function TotalLength(parts: seq<string>): nat {
    if parts == [] then 0 else |parts[0]| + TotalLength(parts[1..])
  }

  /**
   * `sep.join(parts)`: the parts in order with one separator between
   * neighbours, so its length is the parts' length plus one separator per
   * gap; it starts with the first part.
   */
  function Join(parts: seq<string>, sep: string): (r: string)
    ensures parts != [] ==> |r| == TotalLength(parts) + (|parts| - 1) * |sep|
    ensures parts != [] ==> |parts[0]| <= |r| && r[..|parts[0]|] == parts[0]
  {
    if parts == [] then ""
    else if |parts| == 1 then parts[0]
    else parts[0] + sep + Join(parts[1..], sep)
  }

  /**
   * Joining one more part appends the separator and that part. With
   * `Join([], sep) == ""` and `Join([p], sep) == p` this builds the
   * joined text from the back, the other way round from the definition.
   */
  lemma {:induction false} JoinAppend(parts: seq<string>, p: string, sep: string)
    requires parts != []
    ensures Join(parts + [p], sep) == Join(parts, sep) + sep + p
  {
    var all := parts + [p];
    assert all[0] == parts[0] && all[1..] == parts[1..] + [p];
    if |parts| > 1 {
      JoinAppend(parts[1..], p, sep);
    }
  }

  /**
   * The starts of the matches a left-to-right regular-expression scan of a
   * text of length `n` takes from `i` on, when a match starting at `j`
   * exists exactly if `resume(j) > j`, and the scan goes on at `resume(j)`
   * after taking it.
   */
  function LeftmostStarts(resume: nat -> nat, n: nat, i: nat): (r: seq<nat>)
    requires i <= n
    requires forall j | i <= j < n :: resume(j) <= n
    ensures forall k | 0 <= k < |r| :: i <= r[k] < n && resume(r[k]) > r[k]
    decreases n - i
  {
    if i == n then []
    else if resume(i) > i then [i] + LeftmostStarts(resume, n, resume(i))
    else LeftmostStarts(resume, n, i + 1)
  }

  /** Where no match starts, the scan takes none. */
  lemma {:induction false} LeftmostStartsNone(resume: nat -> nat, n: nat, i: nat)
    requires i <= n
    requires forall j | i <= j < n :: resume(j) <= j
    ensures LeftmostStarts(resume, n, i) == []
    decreases n - i
  {
    if i < n {
      LeftmostStartsNone(resume, n, i + 1);
    }
  }

  /** The match taken before the k-th one ends at or before the k-th one starts. */
  lemma {:induction false} LeftmostStartsStep(resume: nat -> nat, n: nat, i: nat, k: nat)
    requires i <= n
    requires forall j | i <= j < n :: resume(j) <= n
    requires 0 < k < |LeftmostStarts(resume, n, i)|
    ensures resume(LeftmostStarts(resume, n, i)[k - 1]) <= LeftmostStarts(resume, n, i)[k]
    decreases n - i
  {
    var starts := LeftmostStarts(resume, n, i);
    if resume(i) > i {
      var rest := LeftmostStarts(resume, n, resume(i));
      assert starts == [i] + rest;
      if k > 1 {
        LeftmostStartsStep(resume, n, resume(i), k - 1);
        assert starts[k - 1] == rest[k - 2] && starts[k] == rest[k - 1];
      } else {
        assert starts[1] == rest[0];
      }
    } else {
      LeftmostStartsStep(resume, n, i + 1, k);
      assert starts == LeftmostStarts(resume, n, i + 1);
    }
  }

  /** Each match taken ends at or before the start of the next: the matches do not overlap. */
  lemma LeftmostStartsDisjoint(resume: nat -> nat, n: nat, i: nat)
    requires i <= n
    requires forall j | i <= j < n :: resume(j) <= n
    ensures forall k | 0 < k < |LeftmostStarts(resume, n, i)| ::
              resume(LeftmostStarts(resume, n, i)[k - 1]) <= LeftmostStarts(resume, n, i)[k]
  {
    forall k | 0 < k < |LeftmostStarts(resume, n, i)|
      ensures resume(LeftmostStarts(resume, n, i)[k - 1]) <= LeftmostStarts(resume, n, i)[k]
    {
      LeftmostStartsStep(resume, n, i, k);
    }
  }

  /** `j` lies in the span of a match taken at one of `starts`, from its start up to where the scan goes on. */
  predicate Covered(resume: nat -> nat, starts: seq<nat>, j: nat) {
    exists k | 0 <= k < |starts| :: starts[k] <= j < resume(starts[k])
  }

  /** A match at `j` is taken, or starts inside a match already taken. */
  lemma {:induction false} LeftmostStartsCover(resume: nat -> nat, n: nat, i: nat, j: nat)
    requires i <= j < n
    requires forall j | i <= j < n :: resume(j) <= n
    requires resume(j) > j
    ensures Covered(resume, LeftmostStarts(resume, n, i), j)
    decreases n - i
  {
    if resume(i) > i {
      var f := resume(i);
      var rest := LeftmostStarts(resume, n, f);
      var starts := LeftmostStarts(resume, n, i);
      assert starts == [i] + rest;
      if j < f {
        assert starts[0] <= j < resume(starts[0]);
      } else {
        LeftmostStartsCover(resume, n, f, j);
        var k :| 0 <= k < |rest| && rest[k] <= j < resume(rest[k]);
        assert starts[k + 1] == rest[k];
      }
    } else {
      LeftmostStartsCover(resume, n, i + 1, j);
      assert LeftmostStarts(resume, n, i) == LeftmostStarts(resume, n, i + 1);
    }
  }

  /** Every match from `i` on is taken, or starts inside a match already taken. */
  lemma LeftmostStartsComplete(resume: nat -> nat, n: nat, i: nat)
    requires i <= n
    requires forall j | i <= j < n :: resume(j) <= n
    ensures forall j | i <= j < n && resume(j) > j :: Covered(resume, LeftmostStarts(resume, n, i), j)
  {
    forall j | i <= j < n && resume(j) > j
      ensures Covered(resume, LeftmostStarts(resume, n, i), j)
    {
      LeftmostStartsCover(resume, n, i, j);
    }
  }

  /**
   * The groups of the matches the same scan takes, `group(j)` being the
   * group of the match at `j`: what `re.findall` returns for a pattern
   * with one group.
   */
  function LeftmostGroups<T>(resume: nat -> nat, group: nat -> T, n: nat, i: nat): seq<T>
    requires i <= n
    requires forall j | i <= j < n :: resume(j) <= n
    decreases n - i
  {
    if i == n then []
    else if resume(i) > i then [group(i)] + LeftmostGroups(resume, group, n, resume(i))
    else LeftmostGroups(resume, group, n, i + 1)
  }

  /** One group is found per match taken. */
  lemma {:induction false} LeftmostGroupsCount<T>(resume: nat -> nat, group: nat -> T, n: nat, i: nat)
    requires i <= n
    requires forall j | i <= j < n :: resume(j) <= n
    ensures |LeftmostGroups(resume, group, n, i)| == |LeftmostStarts(resume, n, i)|
    decreases n - i
  {
    if i < n {
      if resume(i) > i {
        LeftmostGroupsCount(resume, group, n, resume(i));
      } else {
        LeftmostGroupsCount(resume, group, n, i + 1);
      }
    }
  }

  /** The k-th group found is the group of the match at the k-th start. */
  lemma {:induction false} LeftmostGroupAt<T>(resume: nat -> nat, group: nat -> T, n: nat, i: nat, k: nat)
    requires i <= n
    requires forall j | i <= j < n :: resume(j) <= n
    requires k < |LeftmostStarts(resume, n, i)|
    ensures k < |LeftmostGroups(resume, group, n, i)|
    ensures LeftmostGroups(resume, group, n, i)[k] == group(LeftmostStarts(resume, n, i)[k])
    decreases n - i
  {
    LeftmostGroupsCount(resume, group, n, i);
    var starts := LeftmostStarts(resume, n, i);
    var groups := LeftmostGroups(resume, group, n, i);
    if resume(i) > i {
      var f := resume(i);
      assert starts == [i] + LeftmostStarts(resume, n, f);
      assert groups == [group(i)] + LeftmostGroups(resume, group, n, f);
      if k > 0 {
        LeftmostGroupAt(resume, group, n, f, k - 1);
        assert starts[k] == LeftmostStarts(resume, n, f)[k - 1];
        assert groups[k] == LeftmostGroups(resume, group, n, f)[k - 1];
      }
    } else {
      assert starts == LeftmostStarts(resume, n, i + 1);
      assert groups == LeftmostGroups(resume, group, n, i + 1);
      LeftmostGroupAt(resume, group, n, i + 1, k);
    }
  }

  /** The groups found are, in order, the groups of the matches taken. */
  lemma LeftmostGroupsAtStarts<T>(resume: nat -> nat, group: nat -> T, n: nat, i: nat)
    requires i <= n
    requires forall j | i <= j < n :: resume(j) <= n
    ensures |LeftmostGroups(resume, group, n, i)| == |LeftmostStarts(resume, n, i)|
    ensures forall k | 0 <= k < |LeftmostStarts(resume, n, i)| ::
              LeftmostGroups(resume, group, n, i)[k] == group(LeftmostStarts(resume, n, i)[k])
  {
    LeftmostGroupsCount(resume, group, n, i);
    forall k | 0 <= k < |LeftmostStarts(resume, n, i)|
      ensures LeftmostGroups(resume, group, n, i)[k] == group(LeftmostStarts(resume, n, i)[k])
    {
      LeftmostGroupAt(resume, group, n, i, k);
    }
  }
}
