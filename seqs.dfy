/**
 * The array operations of JavaScript that the parsers and the search are built from:
 * `slice`, `filter`, `map` and a `forEach` that pushes zero or more results per element.
 */
module Seqs {

  /** `i` clamped to `n`: how `slice` and `substring` treat an index past the end. */
  function Clamp(i: nat, n: nat): (r: nat)
    ensures r <= i && r <= n
    ensures r == i || r == n
  {
    if i <= n then i else n
  }

  /**
   * `s.slice(start, end)` for literal indexes 0 <= start <= end, which is also what
   * `substring(start, end)` does on a string: the part of `s` from `start` up to `end`,
   * with both indexes clamped to the length of `s`.
   */
  function Slice<T>(s: seq<T>, start: nat, end: nat): (r: seq<T>)
    requires start <= end
    ensures |r| <= end - start
    ensures |r| == Clamp(end, |s|) - Clamp(start, |s|)
    ensures forall k :: 0 <= k < |r| ==> r[k] == s[start + k]
  {
    s[Clamp(start, |s|)..Clamp(end, |s|)]
  }

  /** `s.substring(0, n)`: the first `n` elements, or all of `s` when it is shorter. */
  function Prefix<T>(s: seq<T>, n: nat): (r: seq<T>)
    ensures |r| == Clamp(n, |s|)
    ensures r == s[..|r|]
    ensures |s| <= n ==> r == s
  {
    Slice(s, 0, n)
  }

  /** Two adjacent slices make up the slice that spans both. */
  lemma SliceAdjacent<T>(s: seq<T>, i: nat, j: nat, k: nat)
    requires i <= j <= k
    ensures Slice(s, i, j) + Slice(s, j, k) == Slice(s, i, k)
  {
    var a, b, c := Clamp(i, |s|), Clamp(j, |s|), Clamp(k, |s|);
    assert s[a..b] + s[b..c] == s[a..c];
  }

  /** `s.filter(keep)`: the elements that pass `keep`, in their original order. */
  function Filter<T(!new)>(s: seq<T>, keep: T -> bool): (r: seq<T>)
    ensures |r| <= |s|
    ensures forall k :: 0 <= k < |r| ==> keep(r[k])
  {
    if s == [] then [] else (if keep(s[0]) then [s[0]] else []) + Filter(s[1..], keep)
  }

  /** A value is kept exactly when it is in `s` and passes `keep`. */
  lemma {:induction false} FilterMember<T(!new)>(s: seq<T>, keep: T -> bool, x: T)
    ensures x in Filter(s, keep) <==> x in s && keep(x)
  {
    if s != [] {
      FilterMember(s[1..], keep, x);
      assert s == [s[0]] + s[1..];
    }
  }

  /** What holds of every element of `s` holds of every element kept. */
  lemma {:induction false} FilterPreserves<T(!new)>(s: seq<T>, keep: T -> bool, p: T -> bool)
    requires forall k :: 0 <= k < |s| ==> p(s[k])
    ensures forall k :: 0 <= k < |Filter(s, keep)| ==> p(Filter(s, keep)[k])
  {
    if s != [] {
      FilterPreserves(s[1..], keep, p);
    }
  }

  /** Filtering a concatenation filters each part: the kept elements keep their relative order. */
  lemma {:induction false} FilterAppend<T(!new)>(a: seq<T>, b: seq<T>, keep: T -> bool)
    ensures Filter(a + b, keep) == Filter(a, keep) + Filter(b, keep)
  {
    if a == [] {
      assert a + b == b;
    } else {
      assert (a + b)[0] == a[0];
      assert (a + b)[1..] == a[1..] + b;
      FilterAppend(a[1..], b, keep);
    }
  }

  /** Filtering a sequence whose every element passes changes nothing. */
  lemma {:induction false} FilterAllKept<T(!new)>(s: seq<T>, keep: T -> bool)
    requires forall k :: 0 <= k < |s| ==> keep(s[k])
    ensures Filter(s, keep) == s
  {
    if s != [] {
      FilterAllKept(s[1..], keep);
    }
  }

  /** `s.map(f)`. */
  function Map<T, U>(s: seq<T>, f: T -> U): (r: seq<U>)
    ensures |r| == |s|
    ensures forall k :: 0 <= k < |s| ==> r[k] == f(s[k])
  {
    if s == [] then [] else [f(s[0])] + Map(s[1..], f)
  }

  /**
   * `s.forEach(x => results.push(...f(x)))`: the results of every element, element by
   * element in order. Defined from the last element so that it follows a loop over `s`.
   */
  function FlatMap<T, U>(s: seq<T>, f: T -> seq<U>): (r: seq<U>)
  {
    if s == [] then [] else FlatMap(s[..|s| - 1], f) + f(s[|s| - 1])
  }

  /** The results for a concatenation are the results for the first part, then those for the second. */
  lemma {:induction false} FlatMapAppend<T, U>(a: seq<T>, b: seq<T>, f: T -> seq<U>)
    ensures FlatMap(a + b, f) == FlatMap(a, f) + FlatMap(b, f)
  {
    if b == [] {
      assert a + b == a;
    } else {
      var ab := a + b;
      assert ab[..|ab| - 1] == a + b[..|b| - 1];
      assert ab[|ab| - 1] == b[|b| - 1];
      FlatMapAppend(a, b[..|b| - 1], f);
    }
  }

  /** A value is among the results exactly when some element produced it. */
  lemma {:induction false} FlatMapMember<T, U>(s: seq<T>, f: T -> seq<U>, x: U)
    ensures x in FlatMap(s, f) <==> exists j :: 0 <= j < |s| && x in f(s[j])
  {
    if s != [] {
      var init := s[..|s| - 1];
      FlatMapMember(init, f, x);
      assert forall j :: 0 <= j < |init| ==> init[j] == s[j];
      if x in FlatMap(s, f) && x !in f(s[|s| - 1]) {
        var j :| 0 <= j < |init| && x in f(init[j]);
        assert x in f(s[j]);
      }
    }
  }

  /** When every element produces at most one result, there are at most as many results as elements. */
  lemma {:induction false} FlatMapAtMostOne<T, U>(s: seq<T>, f: T -> seq<U>)
    requires forall j :: 0 <= j < |s| ==> |f(s[j])| <= 1
    ensures |FlatMap(s, f)| <= |s|
  {
    if s != [] {
      var init := s[..|s| - 1];
      assert forall j :: 0 <= j < |init| ==> init[j] == s[j];
      FlatMapAtMostOne(init, f);
    }
  }
}
