/** `RandomGenerator` (src/index.js:106-134): xorshift128 on four 32-bit words.
    The words are `bv32`; JavaScript's `^`, `<<` and `>>>` act on the same 32
    bits, so the model is exact. `next()` divides `|w|` by 2^31, which a double
    does exactly, so its value is given as a `real`. */
module Prng {
  import opened Common
  import Numbers

  datatype State = State(x: bv32, y: bv32, z: bv32, w: bv32)

  /** The state a seed gives: three fixed words and the seed in `w`. */
  function Seeded(seed: Num): (s: State)
    ensures s.x == 0x75bcd15 && s.y == 0x159a55e5 && s.z == 0x1f123bb5
    ensures s.w == Numbers.Word(seed)
  {
    State(0x75bcd15, 0x159a55e5, 0x1f123bb5, Numbers.Word(seed))
  }

  /** One step of `_next`: the words shift down and a new `w` is mixed in. */
  function Step(s: State): (r: State)
    ensures r.x == s.y && r.y == s.z && r.z == s.w
  {
    var t := s.x ^ (s.x << 11);
    State(s.y, s.z, s.w, s.w ^ (s.w >> 19) ^ (t ^ (t >> 8)))
  }

  /** `Math.abs` of the signed 32-bit value of `w`: the word itself when its
      sign bit is clear, otherwise its two's-complement negation. */
  function Magnitude(w: bv32): (m: nat)
    ensures m <= Numbers.TwoTo31
  {
    if w < 0x8000_0000 then w as int else (-w) as int
  }

  /** `next()`: `|w| / 2^31`, between 0 and 1 inclusive. */
  function Fraction(w: bv32): (f: real)
    ensures 0.0 <= f <= 1.0
  {
    Magnitude(w) as real / 2147483648.0
  }

  /** `nextInRange(range)` on the word just drawn, as an integer formula. It is
      exact for ranges below 2^22: the product `range * next()` then has at most
      53 significant bits. */
  function InRange(w: bv32, range: nat): (r: nat)
    requires 0 < range < 0x40_0000
    ensures r < range
  {
    (Magnitude(w) * range / Numbers.TwoTo31) % range
  }

  /** `Math.floor(range * next())` computed on the exact quotient agrees with
      the integer formula. */
  lemma FloorOfScaled(m: nat, range: nat, f: real)
    requires 0 < range && f == m as real / 2147483648.0
    ensures ((range as real) * f).Floor == m * range / Numbers.TwoTo31
  {
    var p := m * range;
    var q, rem := p / Numbers.TwoTo31, p % Numbers.TwoTo31;
    assert p == q * Numbers.TwoTo31 + rem;
    assert (p as real) == (m as real) * (range as real);
    assert (range as real) * f == (p as real) / 2147483648.0;
    assert p as real == (q as real) * 2147483648.0 + rem as real;
    var fraction := rem as real / 2147483648.0;
    assert 0.0 <= fraction < 1.0;
    assert (p as real) / 2147483648.0 == q as real + fraction;
  }

  /** With 256 buckets the draw is `|w|` divided by 2^23, except that the one
      magnitude 2^31 (the word for -2^31) folds 256 back to 0. */
  lemma InRange256(w: bv32)
    ensures Magnitude(w) < Numbers.TwoTo31 ==> InRange(w, 256) == Magnitude(w) / 0x80_0000
    ensures w == 0x8000_0000 ==> Magnitude(w) == Numbers.TwoTo31 && InRange(w, 256) == 0
  {
    var m := Magnitude(w);
    var q, rem := m / 0x80_0000, m % 0x80_0000;
    assert m * 256 == q * Numbers.TwoTo31 + rem * 256;
    Numbers.DivUnique(m * 256, Numbers.TwoTo31, q, rem * 256);
  }

  /** The state after `n` steps. */
  function After(s: State, n: nat): State {
    if n == 0 then s else Step(After(s, n - 1))
  }

  /** The `k`-th value (from 0) of `nextInRange(256)` for a generator in state `s`. */
  function Draw(s: State, k: nat): (d: nat)
    ensures d < 256
  {
    InRange(After(s, k + 1).w, 256)
  }

  class RandomGenerator {
    var x: bv32
    var y: bv32
    var z: bv32
    var w: bv32

    function Current(): State
      reads this
    {
      State(x, y, z, w)
    }

    constructor (seed: Num)
      ensures Current() == Seeded(seed)
    {
      x := 0x75bcd15;
      y := 0x159a55e5;
      z := 0x1f123bb5;
      w := Numbers.Word(seed);
    }

    /** `_next`: advances the state and returns the new `w`. */
    method NextWord() returns (r: bv32)
      modifies this
      ensures Current() == Step(old(Current()))
      ensures r == w
    {
      var next := Step(Current());
      x, y, z, w := next.x, next.y, next.z, next.w;
      r := w;
    }

    /** `next`. */
    method Next() returns (f: real)
      modifies this
      ensures Current() == Step(old(Current()))
      ensures f == Fraction(w) && 0.0 <= f <= 1.0
    {
      var word := NextWord();
      f := Magnitude(word) as real / 2147483648.0;
    }

    /** `nextInRange`, for the ranges where a double computes it exactly. */
    method NextInRange(range: nat) returns (r: nat)
      requires 0 < range < 0x40_0000
      modifies this
      ensures Current() == Step(old(Current()))
      ensures r == InRange(w, range) && r < range
    {
      var f := Next();
      FloorOfScaled(Magnitude(w), range, f);
      r := ((range as real) * f).Floor % range;
    }

    /** `replaceX`. */
    method ReplaceX(v: bv32)
      modifies this
      ensures Current() == old(Current()).(x := v)
    {
      x := v;
    }
  }
}
