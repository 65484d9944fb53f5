/** What the firmware's C integer types do to values: the conversions to
    uint8_t, uint32_t and int16_t, C's truncating division, and a few facts
    about Euclidean division used by the timing and audio proofs. */
module Machine {

  const U8_LIMIT: nat := 0x100
  const U16_LIMIT: nat := 0x1_0000
  const U32_LIMIT: nat := 0x1_0000_0000

  /** The values a uint16_t holds. */
  type U16 = x: int | 0 <= x < 0x1_0000

  /** Conversion to uint8_t: reduction modulo 2^8. */
  function ToU8(x: int): (r: nat)
    ensures r < U8_LIMIT
    ensures 0 <= x < U8_LIMIT ==> r == x
  {
    x % U8_LIMIT
  }

  /** Conversion to uint32_t (and unsigned 32-bit addition): reduction modulo 2^32. */
  function ToU32(x: int): (r: nat)
    ensures r < U32_LIMIT
    ensures 0 <= x < U32_LIMIT ==> r == x
  {
    x % U32_LIMIT
  }

  /** Storing an int into an int16_t as GCC does it: two's-complement wrap. */
  function ToI16(x: int): (r: int)
    ensures -0x8000 <= r < 0x8000
    ensures -0x8000 <= x < 0x8000 ==> r == x
    ensures (r - x) % U16_LIMIT == 0
  {
    var m := x % U16_LIMIT;
    if m < 0x8000 then m else m - U16_LIMIT
  }

  /** The values an int32_t holds. */
  predicate InI32(x: int) {
    -0x8000_0000 <= x < 0x8000_0000
  }

  /** C's `/` on signed operands: the quotient is truncated toward zero. */
  function CDiv(a: int, b: nat): (q: int)
    requires b > 0
    ensures a >= 0 ==> q * b <= a < (q + 1) * b
    ensures a < 0 ==> (q - 1) * b < a <= q * b
  {
    if a >= 0 then
      FloorDiv(a, b);
      a / b
    else
      FloorDiv(-a, b);
      -((-a) / b)
  }

  /** `(n + d - 1) / d` is the ceiling of n / d. */
  lemma CeilDiv(n: nat, d: nat)
    requires d > 0
    ensures ((n + d - 1) / d) * d >= n
    ensures ((n + d - 1) / d - 1) * d < n
  {
    var q, r := (n + d - 1) / d, (n + d - 1) % d;
    assert q * d + r == n + d - 1;
    assert (q - 1) * d == q * d - d;
  }

  /** `n / d` is the floor of n / d. */
  lemma FloorDiv(n: nat, d: nat)
    requires d > 0
    ensures (n / d) * d <= n < (n / d + 1) * d
  {
    var q, r := n / d, n % d;
    assert q * d + r == n;
    assert (q + 1) * d == q * d + d;
  }

  /** Multiplication by a non-negative factor is monotone. */
  lemma MulMono(a: int, b: int, c: nat)
    requires a <= b
    ensures a * c <= b * c
  {
    assert b * c - a * c == (b - a) * c;
  }

  /** A larger divisor gives a smaller quotient. */
  lemma DivAntiMono(a: nat, b: nat, c: nat)
    requires 0 < b <= c
    ensures a / c <= a / b
  {
    var q := a / c;
    FloorDiv(a, c);
    MulMono(b, c, q);
    assert q * b <= a;
    FloorDiv(a, b);
    if q > a / b {
      MulMono(a / b + 1, q, b);
    }
  }

  /** A larger dividend gives a larger quotient. */
  lemma DivMono(a: nat, b: nat, d: nat)
    requires a <= b && d > 0
    ensures a / d <= b / d
  {
    FloorDiv(a, d);
    FloorDiv(b, d);
    if a / d > b / d {
      MulMono(b / d + 1, a / d, d);
    }
  }
}
