// Fixed-width C integer semantics on top of Dafny's unbounded integers:
// wrap-around casts, C's truncating division and arithmetic right shift.
module CInt {

  const TWO8: int := 0x100
  const TWO16: int := 0x1_0000
  const TWO31: int := 0x8000_0000
  const TWO32: int := 0x1_0000_0000

  predicate IsU8(x: int) { 0 <= x < TWO8 }
  predicate IsU16(x: int) { 0 <= x < TWO16 }
  predicate IsU32(x: int) { 0 <= x < TWO32 }
  predicate IsI8(x: int) { -0x80 <= x < 0x80 }
  predicate IsI16(x: int) { -0x8000 <= x < 0x8000 }
  predicate IsI32(x: int) { -TWO31 <= x < TWO31 }

  /** The C fixed-width types, for fields and parameters. */
  type u8 = x: int | 0 <= x < 0x100
  type u16 = x: int | 0 <= x < 0x1_0000
  type u32 = x: int | 0 <= x < 0x1_0000_0000
  type i8 = x: int | -0x80 <= x < 0x80
  type i16 = x: int | -0x8000 <= x < 0x8000
  type i32 = x: int | -0x8000_0000 <= x < 0x8000_0000

  datatype Option<T> = None | Some(value: T)

  function Min(a: int, b: int): int { if a <= b then a else b }
  function Max(a: int, b: int): int { if a >= b then a else b }

  /** Conversion to uint8_t: reduction modulo 2^8. */
  function U8(x: int): (r: int)
    ensures IsU8(r) && (r - x) % TWO8 == 0
    ensures IsU8(x) ==> r == x
  {
    x % TWO8
  }

  /** Conversion to uint16_t: reduction modulo 2^16. */
  function U16(x: int): (r: int)
    ensures IsU16(r) && (r - x) % TWO16 == 0
    ensures IsU16(x) ==> r == x
  {
    x % TWO16
  }

  /** Conversion to uint32_t: reduction modulo 2^32. */
  function U32(x: int): (r: int)
    ensures IsU32(r) && (r - x) % TWO32 == 0
    ensures IsU32(x) ==> r == x
  {
    x % TWO32
  }

  /** Conversion to int8_t (two's complement, as the target compilers do). */
  function I8(x: int): (r: int)
    ensures IsI8(r) && (r - x) % TWO8 == 0
    ensures IsI8(x) ==> r == x
  {
    var m := x % TWO8;
    if m < 0x80 then m else m - TWO8
  }

  /** Conversion to int16_t (two's complement). */
  function I16(x: int): (r: int)
    ensures IsI16(r) && (r - x) % TWO16 == 0
    ensures IsI16(x) ==> r == x
  {
    var m := x % TWO16;
    if m < 0x8000 then m else m - TWO16
  }

  /** Conversion to int32_t (two's complement). */
  function I32(x: int): (r: int)
    ensures IsI32(r) && (r - x) % TWO32 == 0
    ensures IsI32(x) ==> r == x
  {
    var m := x % TWO32;
    if m < TWO31 then m else m - TWO32
  }

  function Abs(x: int): (r: nat)
    ensures r == x || r == -x
  {
    if x < 0 then -x else x
  }

  /** C division: the quotient is truncated toward zero. */
  function CDiv(a: int, b: int): (q: int)
    requires b != 0
    ensures a >= 0 && b > 0 ==> q == a / b
    ensures Abs(q) <= Abs(a)
  {
    if b > 0 then
      if a >= 0 then DivBound(a, b); a / b
      else DivBound(-a, b); -((-a) / b)
    else
      if a >= 0 then DivBound(a, -b); -(a / -b)
      else DivBound(-a, -b); (-a) / -b
  }

  lemma DivBound(x: nat, y: nat)
    requires y >= 1
    ensures 0 <= x / y <= x
  {
  }

  /** Power of two. */
  function Pow2(k: nat): (p: int)
    ensures p >= 1
  {
    if k == 0 then 1 else 2 * Pow2(k - 1)
  }

  lemma Pow2Values()
    ensures Pow2(8) == 0x100 && Pow2(10) == 0x400 && Pow2(16) == TWO16
  {
  }

  /** Arithmetic right shift of a signed value: rounds toward minus infinity. */
  function Asr(x: int, k: nat): (r: int)
    ensures r * Pow2(k) <= x < (r + 1) * Pow2(k)
  {
    x / Pow2(k)
  }

  /** Cortex-M signed 32-bit division (SDIV): truncates toward zero, wraps
    * INT32_MIN / -1, and yields 0 for a zero divisor (divide-by-zero trap off). */
  function SDiv32(a: int, b: int): (q: int)
    ensures IsI32(q)
    ensures b == 0 ==> q == 0
    ensures b != 0 && IsI32(CDiv(a, b)) ==> q == CDiv(a, b)
  {
    if b == 0 then 0 else I32(CDiv(a, b))
  }

  /** Cortex-M unsigned division (UDIV): yields 0 for a zero divisor (divide-by-zero trap off). */
  function UDiv(a: int, b: int): (q: int)
    requires a >= 0 && b >= 0
    ensures 0 <= q <= a
    ensures b == 0 ==> q == 0
    ensures b >= 1 ==> q * b <= a < (q + 1) * b
  {
    if b == 0 then 0 else DivBracket(a, b); DivBound(a, b); a / b
  }

  /** Wrapping an addend before a uint32_t addition does not change the wrapped sum. */
  lemma U32AddWrap(x: int, y: int)
    ensures U32(U32(x) + y) == U32(x + y)
  {
    var q := x / TWO32;
    assert x == q * TWO32 + U32(x);
    assert x + y == q * TWO32 + (U32(x) + y);
    assert (x + y) % TWO32 == (U32(x) + y) % TWO32;
  }

  /** a and b agree modulo 2^32. */
  predicate Cong32(a: int, b: int) { (a - b) % TWO32 == 0 }

  lemma CongSym(a: int, b: int)
    requires Cong32(a, b)
    ensures Cong32(b, a)
  {
    var q := (a - b) / TWO32;
    assert a - b == q * TWO32;
    assert b - a == (-q) * TWO32;
  }

  lemma CongTrans(a: int, b: int, c: int)
    requires Cong32(a, b) && Cong32(b, c)
    ensures Cong32(a, c)
  {
    var q := (a - b) / TWO32;
    var r := (b - c) / TWO32;
    assert a - b == q * TWO32;
    assert b - c == r * TWO32;
    assert a - c == (q + r) * TWO32;
  }

  lemma CongAdd(a: int, b: int, c: int, d: int)
    requires Cong32(a, b) && Cong32(c, d)
    ensures Cong32(a + c, b + d)
  {
    var q := (a - b) / TWO32;
    var r := (c - d) / TWO32;
    assert a - b == q * TWO32;
    assert c - d == r * TWO32;
    assert (a + c) - (b + d) == (q + r) * TWO32;
  }

  lemma CongMul(a: int, b: int, k: int)
    requires Cong32(a, b)
    ensures Cong32(a * k, b * k)
  {
    var q := (a - b) / TWO32;
    assert a - b == q * TWO32;
    assert a * k - b * k == (q * k) * TWO32;
  }

  /** int32_t casts of congruent values are equal. */
  lemma I32Cong(x: int, y: int)
    requires Cong32(x, y)
    ensures I32(x) == I32(y)
  {
    var q := (x - y) / TWO32;
    assert x == y + q * TWO32;
    assert x % TWO32 == y % TWO32;
  }

  /** uint32_t casts of congruent values are equal. */
  lemma U32Cong(x: int, y: int)
    requires Cong32(x, y)
    ensures U32(x) == U32(y)
  {
    var q := (x - y) / TWO32;
    assert x == y + q * TWO32;
    assert x % TWO32 == y % TWO32;
  }

  /** Wrapping a subtrahend before a uint32_t subtraction does not change
    * the wrapped difference. */
  lemma U32SubWrap(x: int, y: int)
    ensures U32(x - U32(y)) == U32(x - y)
  {
    CongMul(U32(y), y, -1);
    CongAdd(x, x, U32(y) * -1, y * -1);
    U32Cong(x - U32(y), x - y);
  }

  /** Wrapping an int32_t factor before a multiplication does not change the wrapped product. */
  lemma I32MulWrap(x: int, k: int)
    ensures I32(I32(x) * k) == I32(x * k)
  {
    CongMul(I32(x), x, k);
    I32Cong(I32(x) * k, x * k);
  }

  /** Wrapping either partial product of m * n * d to int32_t gives the same int32_t result. */
  lemma WrapProd(m: int, n: int, d: int)
    ensures I32(I32(m * n) * d) == I32(I32(m * d) * n)
  {
    ProductsCommute(m, n, d);
    WrapEqualProducts(m * n, m * d, n, d);
  }

  lemma ProductsCommute(m: int, n: int, d: int)
    ensures (m * n) * d == (m * d) * n
  {
  }

  lemma WrapEqualProducts(a: int, b: int, n: int, d: int)
    requires a * d == b * n
    ensures I32(I32(a) * d) == I32(I32(b) * n)
  {
    I32MulWrap(a, d);
    I32MulWrap(b, n);
  }

  /** Monotonicity of multiplication by a non-negative factor. */
  lemma MulBounds(n: int, d: int)
    requires n >= 0
    ensures d >= 1 ==> n * d >= n
    ensures d <= -1 ==> n * d <= -n
    ensures d >= 0 ==> n * d >= 0
  {
  }

  lemma DivMul(n: int, m: int)
    requires n >= 1 && m >= 0
    ensures (n * m) / n == m
  {
    var q := (n * m) / n;
    var r := (n * m) % n;
    assert n * m == n * q + r && 0 <= r < n;
    assert n * (m - q) == n * m - n * q;
    MulBounds(n, m - q);
  }

  /** Exact division: a multiple of a positive n divided by n. */
  lemma CDivExact(n: int, k: int)
    requires n >= 1
    ensures CDiv(n * k, n) == k
    ensures Abs(k) <= Abs(n * k)
  {
    MulBounds(n, k);
    MulBounds(n, -k);
    assert n * -k == -(n * k);
    if k >= 0 {
      DivMul(n, k);
      assert Abs(n * k) == n * k;
    } else {
      DivMul(n, -k);
      assert Abs(n * k) == n * -k;
    }
  }

  /** Floor division of a non-negative value brackets it between consecutive multiples. */
  lemma DivBracket(a: int, b: int)
    requires a >= 0 && b >= 1
    ensures (a / b) * b <= a < (a / b + 1) * b
  {
    var q := a / b;
    assert a == b * q + a % b;
    assert (q + 1) * b == q * b + b;
  }

  /** Advancing a circular index by one. */
  lemma ModStep(i: int, n: int)
    requires 0 <= i < n
    ensures (i + 1) % n == (if i + 1 == n then 0 else i + 1)
  {
    if i + 1 == n {
      assert (i + 1) % n == n % n;
    }
  }

  /** The remainder is the unique r in [0, n) with x = q * n + r. */
  lemma ModUnique(x: int, n: int, q: int, r: int)
    requires n >= 1 && 0 <= r < n && x == q * n + r
    ensures x % n == r
  {
    var q2 := x / n;
    var r2 := x % n;
    assert x == q2 * n + r2;
    assert (q - q2) * n == r2 - r;
    MulBounds(n, q - q2);
  }

  /** C's bitwise and of a (two's complement) value with a non-negative mask,
    * taken bit by bit from the least significant end. */
  function And(x: int, m: int): (r: int)
    requires m >= 0
    ensures 0 <= r <= m
    decreases m
  {
    if m == 0 then 0 else 2 * And(x / 2, m / 2) + (x % 2) * (m % 2)
  }

  /** Masking with 2^k - 1 keeps the value modulo 2^k, also for negative values. */
  lemma {:induction false} MaskIsMod(x: int, k: nat)
    ensures And(x, Pow2(k) - 1) == x % Pow2(k)
    decreases k
  {
    if k > 0 {
      var p := Pow2(k - 1);
      MaskIsMod(x / 2, k - 1);
      assert Pow2(k) == 2 * p;
      MaskStep(x, p, 2 * p);
    } else {
      ModUnique(x, 1, x, 0);
    }
  }

  /** From the mask of the upper bits to the mask one bit wider. */
  lemma MaskStep(x: int, p: int, n: int)
    requires p >= 1 && n == 2 * p && And(x / 2, p - 1) == (x / 2) % p
    ensures And(x, n - 1) == x % n
  {
    AndLowMask(x, p);
    HalfMod(x, p);
  }

  /** One bit of the mask 2p - 1: the low bit of x, then x / 2 under p - 1. */
  lemma AndLowMask(x: int, p: int)
    requires p >= 1
    ensures And(x, 2 * p - 1) == 2 * And(x / 2, p - 1) + x % 2
  {
    var m := 2 * p - 1;
    assert m / 2 == p - 1 && m % 2 == 1;
  }

  /** x mod 2p from (x / 2) mod p and the low bit. */
  lemma HalfMod(x: int, p: int)
    requires p >= 1
    ensures x % (2 * p) == 2 * ((x / 2) % p) + x % 2
  {
    var q := (x / 2) / p;
    var r := (x / 2) % p;
    assert x / 2 == q * p + r;
    assert x == 2 * (x / 2) + x % 2;
    assert x == q * (2 * p) + (2 * r + x % 2);
    ModUnique(x, 2 * p, q, 2 * r + x % 2);
  }

  /** Sum of a sequence, peeling the last element (so that array prefixes extend naturally). */
  function Sum(s: seq<int>): int
  {
    if s == [] then 0 else Sum(s[..|s| - 1]) + s[|s| - 1]
  }

  lemma {:induction false} SumUpdate(s: seq<int>, i: nat, v: int)
    requires i < |s|
    ensures Sum(s[i := v]) == Sum(s) - s[i] + v
    decreases |s|
  {
    var t := s[i := v];
    if i < |s| - 1 {
      assert t[..|t| - 1] == s[..|s| - 1][i := v];
      SumUpdate(s[..|s| - 1], i, v);
    } else {
      assert t[..|t| - 1] == s[..|s| - 1];
    }
  }

  lemma {:induction false} SumConst(s: seq<int>, v: int)
    requires forall k :: 0 <= k < |s| ==> s[k] == v
    ensures Sum(s) == |s| * v
    decreases |s|
  {
    if s != [] {
      SumConst(s[..|s| - 1], v);
    }
  }

  lemma SumPrefixStep(a: seq<int>, i: nat)
    requires i < |a|
    ensures Sum(a[..i + 1]) == Sum(a[..i]) + a[i]
  {
    assert a[..i + 1][..i] == a[..i];
  }
}
