/**
 * The JavaScript array operations the backend relies on, as functions over sequences:
 * `findIndex`/`find` (first element that matches), `reduce` with `+` (a left fold
 * that sums one number per element) and `filter` (keep the matching elements in order).
 */
module Lists {
  import opened Wrappers

  /** `s.findIndex(matches)`: the index of the first matching element, or None for -1. */
  function FindIndex<T>(s: seq<T>, matches: T -> bool): (r: Option<nat>)
    ensures r.Some? ==> r.value < |s| && matches(s[r.value])
    ensures r.Some? ==> forall j :: 0 <= j < r.value ==> !matches(s[j])
    ensures r.None? <==> forall j :: 0 <= j < |s| ==> !matches(s[j])
  {
    if |s| == 0 then None
    else if matches(s[0]) then Some(0)
    else
      match FindIndex(s[1..], matches)
      case None => None
      case Some(k) => Some(k + 1)
  }

  /** The first match is at `k` when `s[k]` matches and nothing before it does. */
  lemma {:induction false} FindIndexIs<T>(s: seq<T>, matches: T -> bool, k: nat)
    requires k < |s| && matches(s[k])
    requires forall j :: 0 <= j < k ==> !matches(s[j])
    ensures FindIndex(s, matches) == Some(k)
  {
    assert FindIndex(s, matches).Some?;
  }

  /** `s.reduce((total, x) => total + f(x), 0)`: a left fold over the elements. */
  function Sum<T>(s: seq<T>, f: T -> int): int
  {
    if |s| == 0 then 0 else Sum(s[..|s| - 1], f) + f(s[|s| - 1])
  }

  /** `s.filter(keep)`: the elements that satisfy `keep`, in their original order. */
  function Filter<T>(s: seq<T>, keep: T -> bool): (r: seq<T>)
    ensures |r| <= |s|
    ensures forall i :: 0 <= i < |r| ==> keep(r[i])
  {
    if |s| == 0 then [] else
      var rest := Filter(s[1..], keep);
      if keep(s[0]) then [s[0]] + rest else rest
  }

  /** The filter keeps exactly the elements of `s` that pass. */
  lemma {:induction false} FilterMembers<T>(s: seq<T>, keep: T -> bool)
    ensures forall i :: 0 <= i < |Filter(s, keep)| ==> Filter(s, keep)[i] in s
    ensures forall i :: 0 <= i < |s| && keep(s[i]) ==> s[i] in Filter(s, keep)
  {
    if |s| > 0 {
      FilterMembers(s[1..], keep);
      assert forall i :: 1 <= i < |s| ==> s[i] == s[1..][i - 1];
    }
  }

  /** No two elements of `s` share a `key`. */
  predicate Distinct<T, K(==)>(s: seq<T>, key: T -> K) {
    forall i, j :: 0 <= i < j < |s| ==> key(s[i]) != key(s[j])
  }

  /** Appending one element adds exactly its own term to the fold. */
  lemma {:induction false} SumAppend<T>(s: seq<T>, x: T, f: T -> int)
    ensures Sum(s + [x], f) == Sum(s, f) + f(x)
  {
    assert (s + [x])[..|s + [x]| - 1] == s;
  }

  /** The fold of a concatenation is the sum of the folds. */
  lemma {:induction false} SumConcat<T>(a: seq<T>, b: seq<T>, f: T -> int)
    ensures Sum(a + b, f) == Sum(a, f) + Sum(b, f)
    decreases |b|
  {
    if |b| == 0 {
      assert a + b == a;
    } else {
      var b' := b[..|b| - 1];
      assert a + b == (a + b') + [b[|b| - 1]];
      SumAppend(a + b', b[|b| - 1], f);
      SumConcat(a, b', f);
      SumAppend(b', b[|b| - 1], f);
      assert b' + [b[|b| - 1]] == b;
    }
  }

  /** Replacing one element changes the fold by the difference of the two terms. */
  lemma {:induction false} SumUpdate<T>(s: seq<T>, k: nat, x: T, f: T -> int)
    requires k < |s|
    ensures Sum(s[k := x], f) == Sum(s, f) - f(s[k]) + f(x)
    decreases |s|
  {
    var n := |s| - 1;
    if k == n {
      assert s[k := x][..n] == s[..n];
    } else {
      assert s[k := x][..n] == s[..n][k := x];
      SumUpdate(s[..n], k, x, f);
    }
  }

  /** When every term is at least `lo`, the fold is at least `lo` times the length. */
  lemma {:induction false} SumAtLeast<T>(s: seq<T>, f: T -> int, lo: int)
    requires forall i :: 0 <= i < |s| ==> f(s[i]) >= lo
    ensures Sum(s, f) >= lo * |s|
  {
    if |s| > 0 {
      var n := |s| - 1;
      assert forall i :: 0 <= i < n ==> s[..n][i] == s[i];
      SumAtLeast(s[..n], f, lo);
    }
  }

  /** When every term is at most `hi`, the fold is at most `hi` times the length. */
  lemma {:induction false} SumAtMost<T>(s: seq<T>, f: T -> int, hi: int)
    requires forall i :: 0 <= i < |s| ==> f(s[i]) <= hi
    ensures Sum(s, f) <= hi * |s|
  {
    if |s| > 0 {
      var n := |s| - 1;
      assert forall i :: 0 <= i < n ==> s[..n][i] == s[i];
      SumAtMost(s[..n], f, hi);
    }
  }

  /** With non-negative terms, no single term exceeds the fold. */
  lemma {:induction false} SumAtLeastTerm<T>(s: seq<T>, k: nat, f: T -> int)
    requires k < |s|
    requires forall i :: 0 <= i < |s| ==> f(s[i]) >= 0
    ensures Sum(s, f) >= f(s[k])
  {
    var n := |s| - 1;
    assert forall i :: 0 <= i < n ==> s[..n][i] == s[i];
    SumAtLeast(s[..n], f, 0);
    if k < n {
      SumAtLeastTerm(s[..n], k, f);
    }
  }

  /** Filtering distributes over concatenation, so the kept elements keep their order. */
  lemma {:induction false} FilterConcat<T>(a: seq<T>, b: seq<T>, keep: T -> bool)
    ensures Filter(a + b, keep) == Filter(a, keep) + Filter(b, keep)
    decreases |a|
  {
    if |a| > 0 {
      assert (a + b)[1..] == a[1..] + b;
      FilterConcat(a[1..], b, keep);
    } else {
      assert a + b == b;
    }
  }

  /** Filtering a sequence none of whose elements passes gives the empty sequence. */
  lemma {:induction false} FilterNoneKept<T>(s: seq<T>, keep: T -> bool)
    requires forall i :: 0 <= i < |s| ==> !keep(s[i])
    ensures Filter(s, keep) == []
  {
    if s != [] {
      FilterNoneKept(s[1..], keep);
    }
  }

  /** Filtering a sequence whose elements all pass returns it unchanged. */
  lemma {:induction false} FilterAllKept<T>(s: seq<T>, keep: T -> bool)
    requires forall i :: 0 <= i < |s| ==> keep(s[i])
    ensures Filter(s, keep) == s
  {
    if |s| > 0 {
      FilterAllKept(s[1..], keep);
    }
  }

  /** Filtering keeps a subsequence, so elements with distinct keys stay distinct. */
  lemma {:induction false} FilterKeepsDistinct<T, K>(s: seq<T>, keep: T -> bool, key: T -> K)
    requires Distinct(s, key)
    ensures Distinct(Filter(s, keep), key)
  {
    if |s| > 0 {
      var rest := Filter(s[1..], keep);
      FilterKeepsDistinct(s[1..], keep, key);
      FilterMembers(s[1..], keep);
      if keep(s[0]) {
        forall i | 0 <= i < |rest| ensures key(s[0]) != key(rest[i]) {
          var j :| 0 <= j < |s[1..]| && s[1..][j] == rest[i];
          assert s[j + 1] == rest[i];
        }
        assert Filter(s, keep) == [s[0]] + rest;
      }
    }
  }

  /** Filtering out exactly the element at `k` leaves the elements before and after it. */
  lemma {:induction false} FilterDropsOne<T>(s: seq<T>, keep: T -> bool, k: nat)
    requires k < |s| && !keep(s[k])
    requires forall i :: 0 <= i < |s| && i != k ==> keep(s[i])
    ensures Filter(s, keep) == s[..k] + s[k + 1..]
  {
    var before, after := s[..k], s[k + 1..];
    var joined := before + [s[k]] + after;
    assert joined == s by {
      assert s[..k + 1] == before + [s[k]];
      assert s == s[..k + 1] + after;
    }
    FilterSkipsOne(before, s[k], after, keep);
  }

  /** Between elements that all pass, one that fails is the only one filtered out. */
  lemma {:induction false} FilterSkipsOne<T>(before: seq<T>, x: T, after: seq<T>, keep: T -> bool)
    requires forall i :: 0 <= i < |before| ==> keep(before[i])
    requires !keep(x)
    requires forall i :: 0 <= i < |after| ==> keep(after[i])
    ensures Filter(before + [x] + after, keep) == before + after
  {
    FilterConcat(before + [x], after, keep);
    FilterConcat(before, [x], keep);
    FilterAllKept(before, keep);
    FilterAllKept(after, keep);
    FilterNoneKept([x], keep);
    assert before + [] == before;
  }

  /** Dropping the element at `k` takes its term off the fold. */
  lemma {:induction false} SumDropOne<T>(s: seq<T>, k: nat, f: T -> int)
    requires k < |s|
    ensures Sum(s[..k] + s[k + 1..], f) == Sum(s, f) - f(s[k])
  {
    var n := |s| - 1;
    var t := s[..k] + s[k + 1..];
    if k == n {
      assert t == s[..n];
    } else {
      var p := s[..n];
      assert t[..|t| - 1] == p[..k] + p[k + 1..];
      assert t[|t| - 1] == s[n];
      SumDropOne(p, k, f);
    }
  }

  /** Filtering twice with the same test is filtering once. */
  lemma {:induction false} FilterIdempotent<T>(s: seq<T>, keep: T -> bool)
    ensures Filter(Filter(s, keep), keep) == Filter(s, keep)
  {
    FilterAllKept(Filter(s, keep), keep);
  }
}
