/** The parts of JavaScript number semantics that the seed computation depends on:
    rounding an integer to the nearest double, and the 32-bit conversions the
    bitwise operators apply (ECMAScript's ToInt32 and ToUint32). */
module Numbers {
  import opened Common

  const TwoTo31: int := 0x8000_0000
  const TwoTo32: int := 0x1_0000_0000
  const TwoTo53: int := 0x20_0000_0000_0000

  /** The gap between consecutive doubles next to the magnitude `m`: 1 below
      2^53, and doubling with every further power of two. */
  function Ulp(m: nat): (u: nat)
    ensures u >= 1
    decreases m
  {
    if m < TwoTo53 then 1 else 2 * Ulp(m / 2)
  }

  /** The multiple of `Ulp(m)` nearest to `m`, ties to the even multiple: the
      double nearest to a non-negative integer. */
  function RoundMagnitude(m: nat): (r: nat)
    ensures var u := Ulp(m);
      && 2 * (r - m) <= u && 2 * (m - r) <= u
      && r % u == 0
      && (2 * (r - m) == u || 2 * (m - r) == u ==> (r / u) % 2 == 0)
  {
    var u := Ulp(m);
    var q, rem := m / u, m % u;
    RoundChoice(m, u, q, rem);
    if 2 * rem > u || (2 * rem == u && q % 2 == 1) then (q + 1) * u else q * u
  }

  lemma RoundChoice(m: nat, u: nat, q: nat, rem: nat)
    requires u >= 1 && q == m / u && rem == m % u
    ensures var r := if 2 * rem > u || (2 * rem == u && q % 2 == 1) then (q + 1) * u else q * u;
      && r >= 0 && 2 * (r - m) <= u && 2 * (m - r) <= u
      && r % u == 0
      && (2 * (r - m) == u || 2 * (m - r) == u ==> (r / u) % 2 == 0)
  {
    var qu, q1u := q * u, (q + 1) * u;
    assert m == qu + rem;
    assert q1u == qu + u;
    assert qu >= 0;
    DivMultiple(q, u);
    DivMultiple(q + 1, u);
  }

  lemma DivMultiple(k: int, u: int)
    requires u >= 1
    ensures (k * u) / u == k && (k * u) % u == 0
  {
    DivUnique(k * u, u, k, 0);
  }

  /** Euclidean division has one quotient and one remainder. */
  lemma DivUnique(n: int, d: int, q: int, r: int)
    requires d >= 1 && n == q * d + r && 0 <= r < d
    ensures n / d == q && n % d == r
  {
    var q', r' := n / d, n % d;
    assert (q - q') * d == r' - r;
    if q - q' >= 1 {
      MulAtLeast(q - q', d);
    } else if q' - q >= 1 {
      MulAtLeast(q' - q, d);
    }
  }

  lemma MulAtLeast(a: int, u: int)
    requires a >= 1 && u >= 1
    ensures a * u >= u
  {
    assert a * u == (a - 1) * u + u;
    assert (a - 1) * u >= 0;
  }

  /** The double nearest to the integer `n`, ties to even: what `parseInt`
      returns for a long digit string and what `+` returns for a sum. Integers
      up to 2^53 in magnitude are kept exactly. */
  function RoundToDouble(n: int): (r: int)
    ensures -TwoTo53 <= n <= TwoTo53 ==> r == n
  {
    ExactBelow(if n < 0 then -n else n);
    if n < 0 then -(RoundMagnitude(-n) as int) else RoundMagnitude(n)
  }

  lemma ExactBelow(m: nat)
    ensures m <= TwoTo53 ==> RoundMagnitude(m) == m
  {
    if m == TwoTo53 {
      assert Ulp(m) == 2 * Ulp(m / 2) == 2;
    }
  }

  /** The first magnitude past the largest finite double: a rounded value
      this large is an infinity. */
  const TwoTo1024: int := 0x1_0000_0000_0000_0000_0000_0000_0000_0000_0000_0000_0000_0000_0000_0000_0000_0000_0000_0000_0000_0000_0000_0000_0000_0000_0000_0000_0000_0000_0000_0000_0000_0000_0000_0000_0000_0000_0000_0000_0000_0000_0000_0000_0000_0000_0000_0000_0000_0000_0000_0000_0000_0000_0000_0000_0000_0000_0000_0000_0000_0000_0000_0000_0000_0000

  /** The number nearest to the integer `n`: the rounded value, or the
      infinity of its sign once rounding reaches 2^1024. */
  function ToDouble(n: int): (r: Num)
    ensures !r.NaN?
    ensures r.Finite? ==> -TwoTo1024 < r.value < TwoTo1024 && r.value == RoundToDouble(n)
    ensures r.Infinite? ==> r.negative == (n < 0) && (RoundToDouble(n) >= TwoTo1024 || RoundToDouble(n) <= -TwoTo1024)
    ensures -TwoTo53 <= n <= TwoTo53 ==> r == Finite(n)
    ensures -2 * TwoTo53 < n < 2 * TwoTo53 ==> r.Finite?
  {
    NearDouble(n);
    var d := RoundToDouble(n);
    if d >= TwoTo1024 || d <= -TwoTo1024 then Infinite(n < 0) else Finite(d)
  }

  /** Below 2^54 in magnitude the gap between doubles is at most 2, so the
      rounded value stays below 2^54 too. */
  lemma NearDouble(n: int)
    ensures -2 * TwoTo53 < n < 2 * TwoTo53 ==> -2 * TwoTo53 <= RoundToDouble(n) <= 2 * TwoTo53
  {
    var m := if n < 0 then -n else n;
    if TwoTo53 <= m < 2 * TwoTo53 {
      assert Ulp(m / 2) == 1;
      assert Ulp(m) == 2;
    }
  }

  /** JavaScript `a + b` on two numbers: NaN if either is NaN or they are
      infinities of opposite signs; an infinity with anything else is that
      infinity; otherwise the exact sum rounded to a double. */
  function Add(a: Num, b: Num): (r: Num)
    ensures r.NaN? <==> a.NaN? || b.NaN? || (a.Infinite? && b.Infinite? && a.negative != b.negative)
    ensures a.Infinite? && !r.NaN? ==> r == a
    ensures b.Infinite? && !r.NaN? ==> r == b
    ensures a.Finite? && b.Finite? ==> r == ToDouble(a.value + b.value)
    ensures a.Finite? && b.Finite? && -TwoTo53 <= a.value + b.value <= TwoTo53 ==> r == Finite(a.value + b.value)
  {
    match (a, b)
    case (NaN, _) => NaN
    case (_, NaN) => NaN
    case (Infinite(x), Infinite(y)) => if x == y then a else NaN
    case (Infinite(_), Finite(_)) => a
    case (Finite(_), Infinite(_)) => b
    case (Finite(x), Finite(y)) => ToDouble(x + y)
  }

  /** A sum below 2^54 in magnitude is finite: its rounded value. */
  lemma AddBelow(a: int, b: int)
    requires -2 * TwoTo53 < a + b < 2 * TwoTo53
    ensures Add(Finite(a), Finite(b)) == Finite(RoundToDouble(a + b))
  {
  }

  /** ToInt32/ToUint32 of a number, as a word: the value modulo 2^32; NaN and
      the infinities give 0. */
  function Word(n: Num): (w: bv32)
    ensures !n.Finite? ==> w == 0
  {
    match n
    case Finite(v) => (v % TwoTo32) as bv32
    case _ => 0
  }

  /** Numbers that agree modulo 2^32 give the same word: ToInt32 keeps only
      the low 32 bits. */
  lemma WordModulo(a: int, b: int)
    requires (a - b) % TwoTo32 == 0
    ensures Word(Finite(a)) == Word(Finite(b))
  {
    var k := (a - b) / TwoTo32;
    assert a - b == k * TwoTo32;
    DivUnique(a, TwoTo32, b / TwoTo32 + k, b % TwoTo32);
  }
}
