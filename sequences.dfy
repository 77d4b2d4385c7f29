/** Sequence operations shared by the three components: filtering that keeps
    order (a pandas boolean mask, a list comprehension with `if`), Python's
    prefix slice `s[:n]` / `DataFrame.head(n)`, the first element satisfying a
    test (a `for` loop that returns or breaks on the first hit), a sort in
    descending order of a key, and sums. */
module Sequences {
  import opened Wrappers

  function Min(a: int, b: int): int { if a <= b then a else b }
  function Max(a: int, b: int): int { if a >= b then a else b }

  /** `a` is `b` with some elements removed, the rest in their order. */
  ghost predicate IsSubsequence<T>(a: seq<T>, b: seq<T>)
    decreases |b|
  {
    |a| == 0 || (|b| > 0 &&
      ((a[0] == b[0] && IsSubsequence(a[1..], b[1..])) || IsSubsequence(a, b[1..])))
  }

  ghost predicate Distinct<T>(s: seq<T>) {
    forall i, j :: 0 <= i < j < |s| ==> s[i] != s[j]
  }

  /** The elements of `s` that satisfy `p`, in their order. Each element is
      kept as often as it occurs in `s` when it passes, and never otherwise. */
  function Select<T(!new)>(s: seq<T>, p: T -> bool): (r: seq<T>)
    ensures |r| <= |s|
    ensures forall x :: multiset(r)[x] == if p(x) then multiset(s)[x] else 0
    ensures forall i :: 0 <= i < |r| ==> p(r[i]) && r[i] in s
  {
    if |s| == 0 then []
    else
      var front := s[..|s| - 1];
      assert s == front + [s[|s| - 1]];
      Select(front, p) + (if p(s[|s| - 1]) then [s[|s| - 1]] else [])
  }

  /** `f` applied to every element, in order. */
  function MapSeq<A, B>(s: seq<A>, f: A -> B): (r: seq<B>)
    ensures |r| == |s|
    ensures forall i :: 0 <= i < |s| ==> r[i] == f(s[i])
  {
    if |s| == 0 then [] else MapSeq(s[..|s| - 1], f) + [f(s[|s| - 1])]
  }

  /** Mapping a sequence with one more element appends that element's image. */
  lemma MapSnoc<A, B>(s: seq<A>, x: A, f: A -> B)
    ensures MapSeq(s + [x], f) == MapSeq(s, f) + [f(x)]
  {
    assert (s + [x])[..|s|] == s;
  }

  /** Python's `s[:n]` (and pandas' `head(n)`): the first `n` elements, or all
      but the last `-n` when `n` is negative. */
  function Take<T>(s: seq<T>, n: int): (r: seq<T>)
    ensures r <= s
    ensures |r| == if n >= 0 then Min(n, |s|) else Max(0, |s| + n)
  {
    if n >= 0 then s[..Min(n, |s|)] else s[..Max(0, |s| + n)]
  }

  /** The index of the first element passing `p`, if there is one. */
  function FirstIndex<T>(s: seq<T>, p: T -> bool): (r: Option<nat>)
    ensures r.Some? ==> r.value < |s| && p(s[r.value]) &&
                        forall j :: 0 <= j < r.value ==> !p(s[j])
    ensures r.None? ==> forall j :: 0 <= j < |s| ==> !p(s[j])
  {
    if |s| == 0 then None
    else if p(s[0]) then Some(0)
    else match FirstIndex(s[1..], p)
      case None => None
      case Some(k) => Some(k + 1)
  }

  /** `FirstIndex` is determined by the first hit: any index that passes with
      no earlier hit is the answer, and with no hit at all the answer is None. */
  lemma FirstIndexIs<T>(s: seq<T>, p: T -> bool, k: nat)
    requires k < |s| && p(s[k])
    requires forall j :: 0 <= j < k ==> !p(s[j])
    ensures FirstIndex(s, p) == Some(k)
  {
  }

  /** Filtering twice is filtering once: a subsequence of a subsequence. */
  lemma {:induction false} SubsequenceTransitive<T>(a: seq<T>, b: seq<T>, c: seq<T>)
    requires IsSubsequence(a, b) && IsSubsequence(b, c)
    ensures IsSubsequence(a, c)
    decreases |c|
  {
    if |a| == 0 {
    } else if |c| == 0 {
    } else if |b| > 0 && b[0] == c[0] && IsSubsequence(b[1..], c[1..]) {
      if a[0] == b[0] && IsSubsequence(a[1..], b[1..]) {
        SubsequenceTransitive(a[1..], b[1..], c[1..]);
      } else {
        SubsequenceTransitive(a, b[1..], c[1..]);
      }
    } else {
      SubsequenceTransitive(a, b, c[1..]);
    }
  }

  /** Every sequence is a subsequence of itself. */
  lemma {:induction false} SubsequenceRefl<T>(s: seq<T>)
    ensures IsSubsequence(s, s)
    decreases |s|
  {
    if |s| > 0 { SubsequenceRefl(s[1..]); }
  }

  /** Appending an element to both sides keeps the relation. */
  lemma {:induction false} SubsequenceSnoc<T>(a: seq<T>, b: seq<T>, x: T, keep: bool)
    requires IsSubsequence(a, b)
    ensures IsSubsequence(a + (if keep then [x] else []), b + [x])
    decreases |b|
  {
    var a' := a + (if keep then [x] else []);
    if |b| == 0 {
      assert |a| == 0;
      if keep { assert a' == [x]; assert a'[1..] == []; } else { assert a' == []; }
    } else if |a| > 0 && a[0] == b[0] && IsSubsequence(a[1..], b[1..]) {
      SubsequenceSnoc(a[1..], b[1..], x, keep);
      assert a'[1..] == a[1..] + (if keep then [x] else []);
      assert (b + [x])[1..] == b[1..] + [x];
    } else if |a| == 0 {
      if keep {
        assert a' == [x];
        SubsequenceRefl([x]);
        assert IsSubsequence([x], [x]);
        SubsequenceSuffix([x], b);
        assert [x] + [] == [x];
      }
    } else {
      SubsequenceSnoc(a, b[1..], x, keep);
      assert (b + [x])[1..] == b[1..] + [x];
    }
  }

  /** Anything that is a subsequence of `t` is one of `u + t` too. */
  lemma {:induction false} SubsequenceSuffix<T>(a: seq<T>, u: seq<T>)
    requires IsSubsequence(a, a)
    ensures IsSubsequence(a, u + a)
    decreases |u|
  {
    if |u| > 0 {
      SubsequenceSuffix(a, u[1..]);
      assert (u + a)[1..] == u[1..] + a;
    } else {
      assert u + a == a;
    }
  }

  /** `Select` keeps the order of what it keeps. */
  lemma {:induction false} SelectIsSubsequence<T(!new)>(s: seq<T>, p: T -> bool)
    ensures IsSubsequence(Select(s, p), s)
    decreases |s|
  {
    if |s| == 0 {
    } else {
      var front := s[..|s| - 1];
      SelectIsSubsequence(front, p);
      SubsequenceSnoc(Select(front, p), front, s[|s| - 1], p(s[|s| - 1]));
      assert front + [s[|s| - 1]] == s;
    }
  }

  /** A subsequence of a sequence without repetitions has none either. */
  lemma {:induction false} SubsequenceDistinct<T>(a: seq<T>, b: seq<T>)
    requires IsSubsequence(a, b) && Distinct(b)
    ensures Distinct(a)
    decreases |b|
  {
    if |a| > 0 {
      if a[0] == b[0] && IsSubsequence(a[1..], b[1..]) {
        SubsequenceDistinct(a[1..], b[1..]);
        SubsequenceMembers(a[1..], b[1..]);
        forall j | 0 < j < |a| ensures a[0] != a[j] {
          assert a[j] == a[1..][j - 1];
          assert a[j] in b[1..];
          var k :| 0 <= k < |b| - 1 && b[1..][k] == a[j];
          assert b[k + 1] == a[j];
        }
      } else {
        SubsequenceDistinct(a, b[1..]);
      }
    }
  }

  /** Every element of a subsequence is an element of the whole. */
  lemma {:induction false} SubsequenceMembers<T>(a: seq<T>, b: seq<T>)
    requires IsSubsequence(a, b)
    ensures forall x :: x in a ==> x in b
    decreases |b|
  {
    if |a| > 0 {
      if a[0] == b[0] && IsSubsequence(a[1..], b[1..]) {
        SubsequenceMembers(a[1..], b[1..]);
        assert forall x :: x in a ==> x == a[0] || x in a[1..];
      } else {
        SubsequenceMembers(a, b[1..]);
      }
    }
  }

  // ----- sorting in descending order of a key -----

  /** Non-increasing order of `key`. */
  ghost predicate SortedDesc<T>(s: seq<T>, key: T -> real) {
    forall i, j :: 0 <= i < j < |s| ==> key(s[i]) >= key(s[j])
  }

  /** Place `x` before the first element whose key does not exceed its own. */
  function InsertDesc<T>(x: T, s: seq<T>, key: T -> real): (r: seq<T>)
    ensures multiset(r) == multiset(s) + multiset{x}
    ensures |r| == |s| + 1
    ensures r[0] == x || (|s| > 0 && r[0] == s[0])
  {
    if |s| == 0 || key(x) >= key(s[0]) then [x] + s
    else
      assert s == [s[0]] + s[1..];
      [s[0]] + InsertDesc(x, s[1..], key)
  }

  /** Inserting into a sorted sequence keeps it sorted. */
  lemma {:induction false} InsertDescSorted<T>(x: T, s: seq<T>, key: T -> real)
    requires SortedDesc(s, key)
    ensures SortedDesc(InsertDesc(x, s, key), key)
    decreases |s|
  {
    if |s| > 0 && key(x) < key(s[0]) {
      var rest := InsertDesc(x, s[1..], key);
      InsertDescSorted(x, s[1..], key);
      assert key(s[0]) >= key(rest[0]) by {
        if |s| > 1 { assert s[1..][0] == s[1]; }
      }
      var r := [s[0]] + rest;
      assert InsertDesc(x, s, key) == r;
      forall i, j | 0 <= i < j < |r| ensures key(r[i]) >= key(r[j]) {
        if i == 0 {
          if j > 1 { assert key(rest[0]) >= key(rest[j - 1]); }
        } else {
          assert r[i] == rest[i - 1] && r[j] == rest[j - 1];
        }
      }
    }
  }

  /** A sort in descending order of `key`. Ties come out in an unspecified
      order: nothing about them is promised. */
  function SortDesc<T>(s: seq<T>, key: T -> real): (r: seq<T>)
    ensures multiset(r) == multiset(s)
    ensures SortedDesc(r, key)
    ensures |r| == |s|
  {
    if |s| == 0 then []
    else
      assert s == [s[0]] + s[1..];
      var sorted := SortDesc(s[1..], key);
      InsertDescSorted(s[0], sorted, key);
      var r := InsertDesc(s[0], sorted, key);
      assert |r| == |multiset(r)| == |s|;
      r
  }

  /** Keys carried along by `f` are sorted and permuted like the elements. */
  lemma {:induction false} MapInsertDesc<T, U>(x: T, s: seq<T>, key: T -> real, f: T -> U)
    ensures multiset(MapSeq(InsertDesc(x, s, key), f)) == multiset(MapSeq(s, f)) + multiset{f(x)}
    decreases |s|
  {
    if |s| == 0 || key(x) >= key(s[0]) {
      var r := [x] + s;
      assert InsertDesc(x, s, key) == r;
      MapCons(r, f);
      assert r[1..] == s;
    } else {
      var rest := InsertDesc(x, s[1..], key);
      var r := [s[0]] + rest;
      assert InsertDesc(x, s, key) == r;
      MapInsertDesc(x, s[1..], key, f);
      MapCons(r, f);
      assert r[1..] == rest;
      MapCons(s, f);
    }
  }

  /** Projecting a sorted sequence through `f` permutes the projection. */
  lemma {:induction false} MapSortDesc<T, U>(s: seq<T>, key: T -> real, f: T -> U)
    ensures multiset(MapSeq(SortDesc(s, key), f)) == multiset(MapSeq(s, f))
    decreases |s|
  {
    if |s| > 0 {
      var sorted := SortDesc(s[1..], key);
      assert SortDesc(s, key) == InsertDesc(s[0], sorted, key);
      MapSortDesc(s[1..], key, f);
      MapInsertDesc(s[0], sorted, key, f);
      MapCons(s, f);
    }
  }

  /** The projection of a non-empty sequence starts with its head's image. */
  lemma MapCons<T, U>(s: seq<T>, f: T -> U)
    requires |s| > 0
    ensures MapSeq(s, f) == [f(s[0])] + MapSeq(s[1..], f)
  {
    assert forall i :: 0 <= i < |s| ==> MapSeq(s, f)[i] == ([f(s[0])] + MapSeq(s[1..], f))[i];
  }

  /** Filtering a sequence with one more element at the end appends that
      element when it passes. */
  lemma SelectSnoc<T(!new)>(s: seq<T>, y: T, p: T -> bool)
    ensures Select(s + [y], p) == Select(s, p) + (if p(y) then [y] else [])
  {
    assert (s + [y])[..|s|] == s;
  }

  /** Filtering a sequence with an element in front keeps that element first
      when it passes. */
  lemma {:induction false} SelectCons<T(!new)>(x: T, s: seq<T>, p: T -> bool)
    ensures Select([x] + s, p) == (if p(x) then [x] else []) + Select(s, p)
    decreases |s|
  {
    var head := if p(x) then [x] else [];
    if |s| == 0 {
      SelectSnoc([], x, p);
      assert [x] + s == [] + [x];
    } else {
      var front, y := s[..|s| - 1], s[|s| - 1];
      var tail := if p(y) then [y] else [];
      assert [x] + s == ([x] + front) + [y];
      assert s == front + [y];
      SelectSnoc([x] + front, y, p);
      SelectSnoc(front, y, p);
      SelectCons(x, front, p);
      ConcatAssoc(head, Select(front, p), tail);
    }
  }

  lemma ConcatAssoc<T>(a: seq<T>, b: seq<T>, c: seq<T>)
    ensures (a + b) + c == a + (b + c)
  {
  }

  /** The elements whose key is `v`. */
  function KeyIs<T>(key: T -> real, v: real): T -> bool {
    (y: T) => key(y) == v
  }

  /** `r` lists the elements of each key in the order `s` lists them: equal
      keys keep their relative order. */
  ghost predicate Stable<T(!new)>(r: seq<T>, s: seq<T>, key: T -> real) {
    forall v :: Select(r, KeyIs(key, v)) == Select(s, KeyIs(key, v))
  }

  /** Inserting `x` puts it before every element of its own key. */
  lemma {:induction false} InsertDescStable<T(!new)>(x: T, s: seq<T>, key: T -> real, v: real)
    ensures Select(InsertDesc(x, s, key), KeyIs(key, v)) == Select([x] + s, KeyIs(key, v))
    decreases |s|
  {
    if |s| > 0 && key(x) < key(s[0]) {
      var a, u := s[0], s[1..];
      assert s == [a] + u;
      var p := KeyIs(key, v);
      var rest := InsertDesc(x, u, key);
      assert InsertDesc(x, s, key) == [a] + rest;
      InsertDescStable(x, u, key, v);
      SelectCons(a, rest, p);
      SelectCons(x, u, p);
      SelectCons(x, s, p);
      SelectCons(a, u, p);
      SwapFront(a, x, Select(u, p), p);
    }
  }

  /** Two front elements that do not both pass can be filtered in either
      order. */
  lemma SwapFront<T>(a: T, x: T, w: seq<T>, p: T -> bool)
    requires !(p(a) && p(x))
    ensures (if p(a) then [a] else []) + ((if p(x) then [x] else []) + w) ==
            (if p(x) then [x] else []) + ((if p(a) then [a] else []) + w)
  {
  }

  /** The sort is stable: elements with equal keys keep their input order,
      as Python's `sorted(..., reverse=True)` promises. */
  lemma {:induction false} SortDescStable<T(!new)>(s: seq<T>, key: T -> real)
    ensures Stable(SortDesc(s, key), s, key)
    decreases |s|
  {
    if |s| > 0 {
      var a, u := s[0], s[1..];
      assert s == [a] + u;
      var sorted := SortDesc(u, key);
      assert SortDesc(s, key) == InsertDesc(a, sorted, key);
      SortDescStable(u, key);
      forall v ensures Select(SortDesc(s, key), KeyIs(key, v)) == Select(s, KeyIs(key, v)) {
        InsertDescStable(a, sorted, key, v);
        SelectCons(a, sorted, KeyIs(key, v));
        SelectCons(a, u, KeyIs(key, v));
      }
    }
  }

  // ----- sums -----

  /** Python's `sum` over a list of reals, from left to right. */
  function Sum(s: seq<real>): real {
    if |s| == 0 then 0.0 else Sum(s[..|s| - 1]) + s[|s| - 1]
  }

  /** A sum of values in [lo, hi] lies in [|s|·lo, |s|·hi]. */
  lemma {:induction false} SumBounds(s: seq<real>, lo: real, hi: real)
    requires forall i :: 0 <= i < |s| ==> lo <= s[i] <= hi
    ensures |s| as real * lo <= Sum(s) <= |s| as real * hi
    decreases |s|
  {
    if |s| > 0 {
      var n := |s| as real;
      SumBounds(s[..|s| - 1], lo, hi);
      assert Sum(s) == Sum(s[..|s| - 1]) + s[|s| - 1];
      assert lo <= s[|s| - 1] <= hi;
      assert |s[..|s| - 1]| as real == n - 1.0;
      assert n * lo == (n - 1.0) * lo + lo;
      assert n * hi == (n - 1.0) * hi + hi;
    }
  }
}
