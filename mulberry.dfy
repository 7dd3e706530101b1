/**
 * The seeded mulberry32 generator the layout generator draws from
 * (neighborhood.generator.ts, `mulberry32`).
 *
 * The closure's state `t` is a JavaScript number that only ever grows by the
 * increment; every use of it goes through `^` or `>>>`, which read it modulo
 * 2^32. The model keeps `t` as an unbounded integer and reduces it exactly
 * where JavaScript does. The mixing works on unsigned 32-bit words held
 * in integers: a signed 32-bit value and its unsigned reading have the same
 * bits, and every operator of the mixing depends on the bits alone.
 */
module Mulberry {

  const Increment: int := 0x6D2B79F5
  const TwoTo32: int := 0x1_0000_0000

  /** 2 to the power `width`. */
  function Pow2(width: nat): (p: nat)
    ensures p >= 1
  {
    if width == 0 then 1 else 2 * Pow2(width - 1)
  }

  /** Bitwise `^` of the low `width` bits of a and b. */
  function Xor(a: nat, b: nat, width: nat): (r: nat)
    ensures r < Pow2(width)
  {
    if width == 0 then 0
    else 2 * Xor(a / 2, b / 2, width - 1) + (if a % 2 == b % 2 then 0 else 1)
  }

  /** Bitwise `|` of the low `width` bits of a and b. */
  function Or(a: nat, b: nat, width: nat): (r: nat)
    ensures r < Pow2(width)
  {
    if width == 0 then 0
    else 2 * Or(a / 2, b / 2, width - 1) + (if a % 2 == 1 || b % 2 == 1 then 1 else 0)
  }

  /** The 32 bits a JavaScript bitwise operator reads from an integer, as an unsigned word. */
  function Word(t: int): (w: nat)
    ensures w < TwoTo32
  {
    t % TwoTo32
  }

  /** `Math.imul` on words: the low 32 bits of the product. */
  function Imul(a: nat, b: nat): (w: nat)
    ensures w < TwoTo32
  {
    Word(a * b)
  }

  /**
   * The mixing applied to the advanced state `t`, on unsigned words: `>>> k`
   * is division by 2^k, `+` followed by `^` wraps modulo 2^32, and the last
   * `>>> 0` reads the result as unsigned.
   */
  function Mix(t: nat): (w: nat)
    requires t < TwoTo32
    ensures w < TwoTo32
  {
    var v1 := Imul(Xor32(t, t / 0x8000), Or32(t, 1));
    var v2 := Xor32(v1, Word(v1 + Imul(Xor32(v1, v1 / 0x80), Or32(v1, 61))));
    Xor32(v2, v2 / 0x4000)
  }

  lemma {:induction false} Pow2Add(a: nat, b: nat)
    ensures Pow2(a + b) == Pow2(a) * Pow2(b)
  {
    if a > 0 {
      Pow2Add(a - 1, b);
      assert Pow2(a + b) == 2 * Pow2(a - 1 + b);
    }
  }

  lemma Pow2Of32()
    ensures Pow2(32) == TwoTo32
  {
    assert Pow2(4) == 16;
    Pow2Add(4, 4);
    Pow2Add(8, 8);
    Pow2Add(16, 16);
  }

  /** `a ^ b` on 32-bit words. */
  function Xor32(a: nat, b: nat): (r: nat)
    ensures r < TwoTo32
  {
    Pow2Of32();
    Xor(a, b, 32)
  }

  /** `a | b` on 32-bit words. */
  function Or32(a: nat, b: nat): (r: nat)
    ensures r < TwoTo32
  {
    Pow2Of32();
    Or(a, b, 32)
  }

  /** `w / 4294967296`: a 32-bit word scaled into [0, 1). */
  function Scale(w: nat): (r: real)
    requires w < TwoTo32
    ensures 0.0 <= r < 1.0
  {
    w as real / TwoTo32 as real
  }

  /** The state word the k-th draw (counting from 0) of `mulberry32(seed)` mixes. */
  function State(seed: int, k: nat): (w: nat)
    ensures w < TwoTo32
  {
    Word(seed + (k + 1) * Increment)
  }

  /** The k-th draw of `mulberry32(seed)`: a function of the seed and k alone, in [0, 1). */
  function Draw(seed: int, k: nat): (r: real)
    ensures 0.0 <= r < 1.0
  {
    Scale(Mix(State(seed, k)))
  }

  lemma ShiftByMultiple(x: int, q: int)
    ensures (x + q * TwoTo32) % TwoTo32 == x % TwoTo32
  {
  }

  lemma ModCongruent(a: int, b: int, c: int)
    requires a % TwoTo32 == b % TwoTo32
    ensures (a + c) % TwoTo32 == (b + c) % TwoTo32
  {
    var qa, qb := a / TwoTo32, b / TwoTo32;
    assert a == qa * TwoTo32 + a % TwoTo32;
    assert b == qb * TwoTo32 + b % TwoTo32;
    assert a + c == (b + c) + (qa - qb) * TwoTo32;
    ShiftByMultiple(b + c, qa - qb);
  }

  /** Seeds that agree modulo 2^32 drive the same state words, hence the same draws. */
  lemma StateDependsOnSeedModulo(seed1: int, seed2: int, k: nat)
    requires seed1 % TwoTo32 == seed2 % TwoTo32
    ensures State(seed1, k) == State(seed2, k)
  {
    ModCongruent(seed1, seed2, (k + 1) * Increment);
  }

  /** The state words repeat with period 2^32: the increment is added modulo 2^32. */
  lemma StatePeriodic(seed: int, k: nat)
    ensures State(seed, k + TwoTo32) == State(seed, k)
  {
    var a := seed + (k + TwoTo32 + 1) * Increment;
    var b := seed + (k + 1) * Increment;
    assert a == b + Increment * TwoTo32;
    ShiftByMultiple(b, Increment);
  }

  /** The first n draws of `mulberry32(seed)`, in the order they are returned. */
  function Draws(seed: int, n: nat): (r: seq<real>)
    ensures |r| == n
    ensures forall m :: 0 <= m < n ==> 0.0 <= r[m] < 1.0
  {
    if n == 0 then [] else Draws(seed, n - 1) + [Draw(seed, n - 1)]
  }

  lemma {:induction false} DrawsAgree(seed: int, h: seq<real>)
    requires forall m: nat {:trigger Draw(seed, m)} :: m < |h| ==> h[m] == Draw(seed, m)
    ensures h == Draws(seed, |h|)
  {
    if h != [] {
      var n := |h| - 1;
      DrawsAgree(seed, h[..n]);
      assert h[n] == Draw(seed, n);
      assert h == h[..n] + [h[n]];
    }
  }

  lemma ExtendHistory(seed: int, h: seq<real>, r: real)
    requires forall m: nat {:trigger Draw(seed, m)} :: m < |h| ==> h[m] == Draw(seed, m)
    requires r == Draw(seed, |h|)
    ensures forall m: nat {:trigger Draw(seed, m)} :: m < |h| + 1 ==> (h + [r])[m] == Draw(seed, m)
  {
  }

  /**
   * The closure returned by `mulberry32(seed)`. `seed` and `history` are the
   * ghost view: `history` lists the values returned so far, and the state is
   * the seed advanced once per value returned.
   */
  class Rng {
    var t: int
    ghost const seed: int
    ghost var history: seq<real>

    ghost predicate Valid()
      reads this
    {
      && t == seed + |history| * Increment
      && (forall m :: 0 <= m < |history| ==> 0.0 <= history[m] < 1.0)
      && (forall m: nat {:trigger Draw(seed, m)} :: m < |history| ==> history[m] == Draw(seed, m))
    }

    constructor (seed: int)
      ensures Valid() && this.seed == seed && history == []
    {
      t := seed;
      this.seed := seed;
      history := [];
    }

    /**
     * One call of the closure: advance the state, mix, scale to [0, 1). The
     * value returned is draw number `|old(history)|` of the seed, which
     * `Valid()` records.
     */
    method Next() returns (r: real)
      requires Valid()
      modifies this
      ensures Valid() && history == old(history) + [r]
      ensures 0.0 <= r < 1.0
    {
      t := t + Increment;
      assert Word(t) == State(seed, |history|);
      r := Scale(Mix(Word(t)));
      ExtendHistory(seed, history, r);
      history := history + [r];
    }
  }

  /** Whatever the generator has returned so far is fixed by its seed alone. */
  lemma HistoryFromSeed(rng: Rng)
    requires rng.Valid()
    ensures rng.history == Draws(rng.seed, |rng.history|)
  {
    DrawsAgree(rng.seed, rng.history);
  }
}
