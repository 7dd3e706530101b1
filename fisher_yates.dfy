/**
 * The Fisher–Yates shuffle the layout generator applies to the house indices
 * (neighborhood.generator.ts, `shuffle`): copy the input, then for i from the
 * last index down to 1 draw j = floor(rand() * (i + 1)) and swap positions i
 * and j of the copy.
 */
module FisherYates {
  import opened Mulberry

  /** The largest integer in [0, i] that is at most x: `Math.floor(x)` when 0 <= x < i + 1. */
  function FloorUpTo(x: real, i: nat): (j: nat)
    ensures j <= i
    ensures 0.0 <= x ==> j as real <= x
    ensures x < (i + 1) as real ==> x < (j + 1) as real
  {
    if i == 0 || i as real <= x then i else FloorUpTo(x, i - 1)
  }

  /** `Math.floor(r * (i + 1))` for a draw r in [0, 1): a position in [0, i]. */
  function SwapPartner(r: real, i: nat): (j: nat)
    requires 0.0 <= r < 1.0
    ensures j <= i
  {
    FloorUpTo(r * (i + 1) as real, i)
  }

  lemma SwapPartnerIsFloor(r: real, i: nat)
    requires 0.0 <= r < 1.0
    ensures SwapPartner(r, i) as real <= r * (i + 1) as real < (SwapPartner(r, i) + 1) as real
  {
    var n := (i + 1) as real;
    assert r * n <= 1.0 * n - (1.0 - r) * n;
    assert (1.0 - r) * n > 0.0;
  }

  function Swap<T>(s: seq<T>, i: nat, j: nat): (r: seq<T>)
    requires i < |s| && j < |s|
    ensures |r| == |s| && r[i] == s[j] && r[j] == s[i]
    ensures forall k :: 0 <= k < |s| && k != i && k != j ==> r[k] == s[k]
  {
    s[i := s[j]][j := s[i]]
  }

  lemma SwapPermutes<T>(s: seq<T>, i: nat, j: nat)
    requires i < |s| && j < |s|
    ensures multiset(Swap(s, i, j)) == multiset(s)
  {
  }

  /** Every draw a generator can return lies in [0, 1). */
  predicate UnitDraws(draws: seq<real>)
  {
    forall m :: 0 <= m < |draws| ==> 0.0 <= draws[m] < 1.0
  }

  /**
   * The copy after the first |draws| passes of the loop that starts at index
   * `top`: pass number m works on index top - m with partner drawn from
   * draws[m].
   */
  function Passes<T>(s: seq<T>, top: int, draws: seq<real>): (r: seq<T>)
    requires -1 <= top < |s| && (draws == [] || |draws| <= top)
    requires UnitDraws(draws)
    ensures |r| == |s|
  {
    if draws == [] then s
    else
      var n := |draws| - 1;
      var i := top - n;
      Swap(Passes(s, top, draws[..n]), i, SwapPartner(draws[n], i))
  }

  lemma PassesSnoc<T>(s: seq<T>, top: int, draws: seq<real>, r: real)
    requires 0 <= |draws| < top < |s| && UnitDraws(draws) && 0.0 <= r < 1.0
    ensures UnitDraws(draws + [r])
    ensures Passes(s, top, draws + [r])
      == Swap(Passes(s, top, draws), top - |draws|, SwapPartner(r, top - |draws|))
  {
    assert (draws + [r])[..|draws|] == draws;
  }

  /** Every pass only swaps, so the passes rearrange `s` without adding or losing elements. */
  lemma {:induction false} PassesPermute<T>(s: seq<T>, top: int, draws: seq<real>)
    requires -1 <= top < |s| && (draws == [] || |draws| <= top)
    requires UnitDraws(draws)
    ensures multiset(Passes(s, top, draws)) == multiset(s)
  {
    if draws != [] {
      var n := |draws| - 1;
      PassesPermute(s, top, draws[..n]);
      SwapPermutes(Passes(s, top, draws[..n]), top - n, SwapPartner(draws[n], top - n));
    }
  }

  /** The number of draws a shuffle of n elements consumes: one per index from n-1 down to 1. */
  function DrawsFor(n: nat): nat
  {
    if n == 0 then 0 else n - 1
  }

  /** The result of `shuffle` on `s` when the generator returns `draws`. */
  function Shuffled<T>(s: seq<T>, draws: seq<real>): (r: seq<T>)
    requires |draws| == DrawsFor(|s|) && UnitDraws(draws)
  {
    Passes(s, |s| - 1, draws)
  }

  /** `[copy[i], copy[j]] = [copy[j], copy[i]]`. */
  method SwapInPlace<T>(copy: array<T>, i: nat, j: nat)
    requires i < copy.Length && j < copy.Length
    modifies copy
    ensures copy[..] == Swap(old(copy[..]), i, j)
  {
    copy[i], copy[j] := copy[j], copy[i];
  }

  /**
   * The loop of `shuffle`: for i from the last index down to 1, swap
   * position i of `copy` with the partner the next draw picks.
   */
  method SwapPasses<T>(copy: array<T>, rand: Rng)
    requires rand.Valid()
    modifies copy, rand
    ensures rand.Valid()
    ensures |rand.history| == |old(rand.history)| + DrawsFor(copy.Length)
    ensures rand.history[..|old(rand.history)|] == old(rand.history)
    ensures copy[..] == Shuffled(old(copy[..]), rand.history[|old(rand.history)|..])
  {
    ghost var original := copy[..];
    ghost var drawn: seq<real> := [];
    var i := copy.Length - 1;
    ghost var top := i;
    while i > 0
      invariant -1 <= i < copy.Length
      invariant copy.Length > 0 ==> i >= 0
      invariant rand.Valid()
      invariant rand.history == old(rand.history) + drawn
      invariant |drawn| == top - i && UnitDraws(drawn)
      invariant copy[..] == Passes(original, top, drawn)
    {
      var r := rand.Next();
      SwapInPlace(copy, i, SwapPartner(r, i));
      PassesSnoc(original, top, drawn, r);
      drawn := drawn + [r];
      i := i - 1;
    }
    assert rand.history[|old(rand.history)|..] == drawn;
  }

  /**
   * `shuffle(values, rand)`: a fresh array holding a permutation of
   * `values`, which is left untouched; the generator advances by exactly one
   * draw per index from the last down to 1.
   */
  method Shuffle<T(0)>(values: array<T>, rand: Rng) returns (copy: array<T>)
    requires rand.Valid()
    modifies rand
    ensures fresh(copy)
    ensures rand.Valid()
    ensures |rand.history| == |old(rand.history)| + DrawsFor(values.Length)
    ensures rand.history[..|old(rand.history)|] == old(rand.history)
    ensures copy[..] == Shuffled(values[..], rand.history[|old(rand.history)|..])
    ensures multiset(copy[..]) == multiset(values[..])
  {
    copy := new T[values.Length];
    forall k | 0 <= k < values.Length {
      copy[k] := values[k];
    }
    assert copy[..] == values[..];
    SwapPasses(copy, rand);
    PassesPermute(values[..], values.Length - 1, rand.history[|old(rand.history)|..]);
  }

  function Range(n: nat): (r: seq<int>)
    ensures |r| == n
    ensures forall k :: 0 <= k < n ==> r[k] == k
  {
    if n == 0 then [] else Range(n - 1) + [n - 1]
  }

  predicate Distinct(s: seq<int>)
  {
    forall p, q :: 0 <= p < q < |s| ==> s[p] != s[q]
  }

  lemma RangeMultiplicity(n: nat, x: int)
    ensures multiset(Range(n))[x] == if 0 <= x < n then 1 else 0
  {
    if n > 0 {
      RangeMultiplicity(n - 1, x);
      assert Range(n) == Range(n - 1) + [n - 1];
    }
  }

  lemma MultiplicityAtLeastTwo(s: seq<int>, p: nat, q: nat)
    requires p < q < |s| && s[p] == s[q]
    ensures multiset(s)[s[p]] >= 2
  {
    var x := s[p];
    assert s == s[..p] + [x] + s[p + 1..q] + [x] + s[q + 1..];
  }

  /** A permutation of 0 .. n-1 holds every house index exactly once. */
  lemma {:induction false} PermutationOfRange(perm: seq<int>, n: nat)
    requires multiset(perm) == multiset(Range(n))
    ensures |perm| == n
    ensures Distinct(perm)
    ensures forall p :: 0 <= p < |perm| ==> 0 <= perm[p] < n
    ensures forall x :: 0 <= x < n ==> x in perm
  {
    assert |perm| == |multiset(perm)| == |multiset(Range(n))| == n;
    forall p, q | 0 <= p < q < |perm| ensures perm[p] != perm[q] {
      if perm[p] == perm[q] {
        MultiplicityAtLeastTwo(perm, p, q);
        RangeMultiplicity(n, perm[p]);
        assert false;
      }
    }
    forall p | 0 <= p < |perm| ensures 0 <= perm[p] < n {
      assert perm[p] in multiset(perm);
      RangeMultiplicity(n, perm[p]);
    }
    forall x | 0 <= x < n ensures x in perm {
      RangeMultiplicity(n, x);
      assert x in multiset(perm);
    }
  }

  /** The shuffled house indices are a permutation of 0 .. n-1. */
  lemma ShuffledRangeIsPermutation(n: nat, draws: seq<real>)
    requires |draws| == DrawsFor(n) && UnitDraws(draws)
    ensures |Shuffled(Range(n), draws)| == n
    ensures Distinct(Shuffled(Range(n), draws))
    ensures forall p :: 0 <= p < n ==> 0 <= Shuffled(Range(n), draws)[p] < n
    ensures forall x :: 0 <= x < n ==> x in Shuffled(Range(n), draws)
  {
    PassesPermute(Range(n), n - 1, draws);
    PermutationOfRange(Shuffled(Range(n), draws), n);
  }
}
