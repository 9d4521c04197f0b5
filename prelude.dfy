/** The few pieces of JavaScript semantics the build simulator relies on:
    `String.prototype.includes`, `Math.round`, numeric `||` defaulting,
    `Array.prototype.find` / `filter`, and the additive folds that the
    stat aggregation performs with `+=`. */
module Prelude {

  datatype Option<T> = None | Some(value: T)

  // ---------------------------------------------------------------------------
  // Strings

  predicate IsPrefix(t: string, s: string) {
    |t| <= |s| && s[..|t|] == t
  }

  /** `s.includes(t)`: `t` occurs in `s` at some position (the empty string occurs everywhere). */
  predicate Contains(s: string, t: string)
    decreases |s|
  {
    IsPrefix(t, s) || (|s| > 0 && Contains(s[1..], t))
  }

  /** `t` occurs in `s` starting at index `i`. */
  predicate OccursAt(s: string, t: string, i: int) {
    0 <= i <= |s| - |t| && s[i..i + |t|] == t
  }

  /** Contains is exactly "t is a contiguous slice of s". */
  lemma {:induction false} ContainsIffSlice(s: string, t: string)
    ensures Contains(s, t) <==> exists i :: OccursAt(s, t, i)
    decreases |s|
  {
    if IsPrefix(t, s) {
      assert OccursAt(s, t, 0);
    } else if |s| == 0 {
      // a non-prefix of the empty string is non-empty and fits nowhere
    } else {
      ContainsIffSlice(s[1..], t);
      if exists i :: OccursAt(s, t, i) {
        var i :| OccursAt(s, t, i);
        assert i != 0;
        assert s[1..][i - 1..i - 1 + |t|] == s[i..i + |t|];
        assert OccursAt(s[1..], t, i - 1);
      }
      if Contains(s[1..], t) {
        var i :| OccursAt(s[1..], t, i);
        assert s[i + 1..i + 1 + |t|] == s[1..][i..i + |t|];
        assert OccursAt(s, t, i + 1);
      }
    }
  }

  // ---------------------------------------------------------------------------
  // Numbers

  /** JavaScript `Math.round`: halves round towards +infinity. */
  function Round(x: real): (r: int)
    ensures x - 0.5 < r as real <= x + 0.5
  {
    (x + 0.5).Floor
  }

  /** `Math.floor` never reverses the order of two values. */
  lemma FloorMonotone(x: real, y: real)
    ensures x <= y ==> x.Floor <= y.Floor
  {
    if x <= y {
      assert x.Floor as real <= y;
      assert y < y.Floor as real + 1.0;
    }
  }

  /** A value with at most one decimal. */
  predicate IsTenth(x: real) {
    (x * 10.0).Floor as real == x * 10.0
  }

  /** `Math.round(x * 10) / 10`: the nearest tenth, halves rounded up. */
  function RoundTenth(x: real): (r: real)
    ensures IsTenth(r)
    ensures x - 0.05 < r <= x + 0.05
  {
    var k := Round(x * 10.0);
    assert (k as real / 10.0) * 10.0 == k as real;
    k as real / 10.0
  }

  /** Rounding a value that already has one decimal leaves it as it is. */
  lemma RoundTenthOfTenth(x: real)
    requires IsTenth(x)
    ensures RoundTenth(x) == x
  {
    var k := (x * 10.0).Floor;
    assert Round(x * 10.0) == k by {
      assert (x * 10.0 + 0.5).Floor == k;
    }
  }

  /** Rounding to one decimal never reverses the order of two values. */
  lemma RoundTenthMonotone(x: real, y: real)
    requires x <= y
    ensures RoundTenth(x) <= RoundTenth(y)
  {
    FloorMonotone(x * 10.0 + 0.5, y * 10.0 + 0.5);
  }

  /** `x || d` on a number: zero counts as absent. */
  function OrDefault(x: real, d: real): (r: real)
    ensures x != 0.0 ==> r == x
    ensures x == 0.0 ==> r == d
  {
    if x == 0.0 then d else x
  }

  function Min(x: real, y: real): (r: real)
    ensures r <= x && r <= y && (r == x || r == y)
  {
    if x <= y then x else y
  }

  // ---------------------------------------------------------------------------
  // Sequences

  /** `s.find(p)`: the first element that satisfies `p`, if any. */
  function Find<T>(s: seq<T>, p: T -> bool): (r: Option<T>)
    ensures r.None? <==> forall k :: 0 <= k < |s| ==> !p(s[k])
    ensures r.Some? ==> exists k :: 0 <= k < |s| && s[k] == r.value && p(s[k]) &&
                                    forall j :: 0 <= j < k ==> !p(s[j])
    decreases |s|
  {
    if |s| == 0 then None
    else if p(s[0]) then Some(s[0])
    else
      var r := Find(s[1..], p);
      assert forall k :: 1 <= k < |s| ==> s[k] == s[1..][k - 1];
      r
  }

  /** `s.filter(p)`: the elements that satisfy `p`, in their original order. */
  function Filter<T>(s: seq<T>, p: T -> bool): (r: seq<T>)
    ensures |r| <= |s|
    ensures forall k :: 0 <= k < |r| ==> p(r[k]) && r[k] in s
    ensures forall k :: 0 <= k < |s| && p(s[k]) ==> s[k] in r
    decreases |s|
  {
    if |s| == 0 then []
    else
      var rest := Filter(s[..|s| - 1], p);
      if p(s[|s| - 1]) then rest + [s[|s| - 1]] else rest
  }

  /** Filtering keeps the original order: it distributes over concatenation. */
  lemma {:induction false} FilterAppend<T>(a: seq<T>, b: seq<T>, p: T -> bool)
    ensures Filter(a + b, p) == Filter(a, p) + Filter(b, p)
    decreases |b|
  {
    if |b| == 0 {
      assert a + b == a;
    } else {
      var b' := b[..|b| - 1];
      assert (a + b)[..|a + b| - 1] == a + b';
      FilterAppend(a, b', p);
    }
  }

  /** Filtering keeps every occurrence of an element that satisfies the
      predicate and drops every occurrence of one that does not. */
  lemma {:induction false} FilterMultiset<T>(s: seq<T>, p: T -> bool)
    ensures forall x :: multiset(Filter(s, p))[x] == if p(x) then multiset(s)[x] else 0
    decreases |s|
  {
    if |s| > 0 {
      var s' := s[..|s| - 1];
      assert s == s' + [s[|s| - 1]];
      FilterMultiset(s', p);
    }
  }

  /** Filtering with a predicate every element satisfies keeps the whole sequence. */
  lemma {:induction false} FilterAll<T>(s: seq<T>, p: T -> bool)
    requires forall k :: 0 <= k < |s| ==> p(s[k])
    ensures Filter(s, p) == s
    decreases |s|
  {
    if |s| > 0 {
      FilterAll(s[..|s| - 1], p);
      assert s[..|s| - 1] + [s[|s| - 1]] == s;
    }
  }

  /** `forEach` with `+=`: the sum of `c` over `s`, accumulated left to right. */
  function Sum<T>(s: seq<T>, c: T -> real): real
    decreases |s|
  {
    if |s| == 0 then 0.0 else Sum(s[..|s| - 1], c) + c(s[|s| - 1])
  }

  /** One more element of a prefix adds its value. */
  lemma SumStep<T>(s: seq<T>, k: nat, c: T -> real)
    requires k < |s|
    ensures Sum(s[..k + 1], c) == Sum(s[..k], c) + c(s[k])
  {
    assert s[..k + 1][..k] == s[..k];
  }

  lemma {:induction false} SumAppend<T>(a: seq<T>, b: seq<T>, c: T -> real)
    ensures Sum(a + b, c) == Sum(a, c) + Sum(b, c)
    decreases |b|
  {
    if |b| == 0 {
      assert a + b == a;
    } else {
      var b' := b[..|b| - 1];
      assert (a + b)[..|a + b| - 1] == a + b';
      SumAppend(a, b', c);
    }
  }

  /** Taking one element out of a sequence takes its contribution out of the sum. */
  lemma SumRemove<T>(b: seq<T>, k: nat, c: T -> real)
    requires k < |b|
    ensures Sum(b, c) == Sum(b[..k] + b[k + 1..], c) + c(b[k])
  {
    assert b == b[..k] + [b[k]] + b[k + 1..];
    SumAppend(b[..k] + [b[k]], b[k + 1..], c);
    SumAppend(b[..k], [b[k]], c);
    SumAppend(b[..k], b[k + 1..], c);
    assert Sum([b[k]], c) == c(b[k]) by { assert [b[k]][..0] == []; }
  }

  /** Taking one element out of a sequence takes one occurrence out of its multiset. */
  lemma MultisetRemove<T>(b: seq<T>, k: nat)
    requires k < |b|
    ensures multiset(b[..k] + b[k + 1..]) == multiset(b) - multiset{b[k]}
  {
    assert b == b[..k] + [b[k]] + b[k + 1..];
  }

  /** The sum does not depend on the order of the elements. */
  lemma {:induction false} SumPermutation<T>(a: seq<T>, b: seq<T>, c: T -> real)
    requires multiset(a) == multiset(b)
    ensures Sum(a, c) == Sum(b, c)
    decreases |a|
  {
    if |a| == 0 {
      assert |b| == |multiset(b)| == 0;
    } else {
      var x := a[|a| - 1];
      var a' := a[..|a| - 1];
      assert x in multiset(b);
      var k :| 0 <= k < |b| && b[k] == x;
      var b' := b[..k] + b[k + 1..];
      MultisetRemove(a, |a| - 1);
      assert a[..|a| - 1] + a[|a|..] == a';
      MultisetRemove(b, k);
      SumPermutation(a', b', c);
      SumRemove(b, k, c);
    }
  }

  /** Two contribution functions that agree on every element give the same sum. */
  lemma {:induction false} SumCongruent<T>(s: seq<T>, c: T -> real, d: T -> real)
    requires forall k :: 0 <= k < |s| ==> c(s[k]) == d(s[k])
    ensures Sum(s, c) == Sum(s, d)
    decreases |s|
  {
    if |s| > 0 {
      SumCongruent(s[..|s| - 1], c, d);
    }
  }

  /** Contributions that are all zero sum to zero. */
  lemma {:induction false} SumOfZeros<T>(s: seq<T>, c: T -> real)
    requires forall k :: 0 <= k < |s| ==> c(s[k]) == 0.0
    ensures Sum(s, c) == 0.0
    decreases |s|
  {
    if |s| > 0 {
      SumOfZeros(s[..|s| - 1], c);
    }
  }

  /** Replacing one element changes the sum by the difference of the two contributions. */
  lemma SumUpdate<T>(s: seq<T>, i: nat, y: T, c: T -> real)
    requires i < |s|
    ensures Sum(s[i := y], c) == Sum(s, c) - c(s[i]) + c(y)
  {
    assert s == s[..i] + [s[i]] + s[i + 1..];
    assert s[i := y] == s[..i] + [y] + s[i + 1..];
    SumAppend(s[..i] + [s[i]], s[i + 1..], c);
    SumAppend(s[..i] + [y], s[i + 1..], c);
    SumAppend(s[..i], [s[i]], c);
    SumAppend(s[..i], [y], c);
    assert Sum([y], c) == c(y) by { assert [y][..0] == []; }
    assert Sum([s[i]], c) == c(s[i]) by { assert [s[i]][..0] == []; }
  }

  predicate Distinct<T(==)>(s: seq<T>) {
    forall i, j :: 0 <= i < j < |s| ==> s[i] != s[j]
  }

  /** A sequence without repetitions has as many elements as the set of them. */
  lemma {:induction false} DistinctCardinality<T>(s: seq<T>)
    requires Distinct(s)
    ensures |set x | x in s| == |s|
    decreases |s|
  {
    if |s| > 0 {
      var s' := s[..|s| - 1];
      DistinctCardinality(s');
      assert (set x | x in s) == (set x | x in s') + {s[|s| - 1]};
      assert s[|s| - 1] !in (set x | x in s');
    }
  }

  /** Filtering a sequence without repetitions gives one without repetitions. */
  lemma {:induction false} FilterDistinct<T>(s: seq<T>, p: T -> bool)
    requires Distinct(s)
    ensures Distinct(Filter(s, p))
    decreases |s|
  {
    if |s| > 0 {
      var s' := s[..|s| - 1];
      assert Distinct(s');
      FilterDistinct(s', p);
      assert s[|s| - 1] !in s';
    }
  }

  /** In a sequence without repetitions every element occurs once. */
  lemma {:induction false} DistinctOccursOnce<T>(s: seq<T>, x: T)
    requires Distinct(s)
    ensures multiset(s)[x] <= 1
    decreases |s|
  {
    if |s| > 0 {
      var s' := s[..|s| - 1];
      assert s == s' + [s[|s| - 1]];
      assert Distinct(s');
      DistinctOccursOnce(s', x);
      assert s[|s| - 1] !in s';
    }
  }

  /** An element that sits at two positions occurs at least twice. */
  lemma RepeatOccursTwice<T>(b: seq<T>, i: nat, j: nat)
    requires i < j < |b|
    ensures b[i] == b[j] ==> multiset(b)[b[i]] >= 2
  {
    assert b == b[..j] + [b[j]] + b[j + 1..];
    assert b[i] in multiset(b[..j]);
  }

  /** A reordering of a sequence without repetitions has none either. */
  lemma DistinctPermutation<T>(a: seq<T>, b: seq<T>)
    requires multiset(a) == multiset(b) && Distinct(a)
    ensures Distinct(b)
  {
    forall i, j | 0 <= i < j < |b| ensures b[i] != b[j] {
      RepeatOccursTwice(b, i, j);
      DistinctOccursOnce(a, b[i]);
    }
  }
}
