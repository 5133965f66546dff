/** 64-bit signed integers with the wrap-around of the source language. */
module Machine {

  const TWO_32: int := 0x1_0000_0000
  const TWO_63: int := 0x8000_0000_0000_0000
  const TWO_64: int := 0x1_0000_0000_0000_0000
  const MIN_INT64: int := -0x8000_0000_0000_0000
  const MAX_INT64: int := 0x7fff_ffff_ffff_ffff
  const MAX_INT32: int := 0x7fff_ffff

  type Int64 = n: int | -0x8000_0000_0000_0000 <= n <= 0x7fff_ffff_ffff_ffff

  predicate InInt64(n: int) { MIN_INT64 <= n <= MAX_INT64 }

  /** Two's complement wrap-around of an exact result. */
  function Wrap(n: int): (w: Int64)
    ensures InInt64(n) ==> w == n
    ensures (w - n) % TWO_64 == 0
  {
    (n + TWO_63) % TWO_64 - TWO_63
  }

  function Clamp(n: int): Int64 {
    if n < MIN_INT64 then MIN_INT64 else if n > MAX_INT64 then MAX_INT64 else n
  }

  function Later(a: Int64, b: Int64): Int64 { if a < b then b else a }

  function Abs(n: int): nat { if n < 0 then -n else n }

  /** Division that truncates toward zero, as the `/` of the source does. */
  function Quotient(a: int, b: int): int
    requires b != 0
  {
    if (a < 0) == (b < 0) then Abs(a) / Abs(b) else -(Abs(a) / Abs(b))
  }

  function FloorDiv(value: Int64, divisor: Int64): int
    requires divisor != 0
  {
    var quotient := Quotient(value, divisor);
    var remainder := value - divisor * quotient;
    if remainder != 0 && ((value < 0) != (divisor < 0)) then quotient - 1 else quotient
  }

  /** For either sign of the divisor the quotient is the floor of the exact
      ratio: the remainder has the sign of the divisor and is smaller than it. */
  lemma {:induction false} FloorDivIsFloor(value: Int64, divisor: Int64)
    requires divisor != 0
    ensures var r := value - divisor * FloorDiv(value, divisor);
            if divisor > 0 then 0 <= r < divisor else divisor < r <= 0
  {
    var q, size := Abs(value) / Abs(divisor), Abs(divisor);
    Euclid(Abs(value), size);
    Products(divisor, q);
  }

  lemma {:induction false} Euclid(a: nat, b: nat)
    requires b > 0
    ensures 0 <= a - b * (a / b) < b
  {
  }

  lemma {:induction false} Products(a: int, b: int)
    ensures a * -b == -(a * b) && Abs(a) * b == (if a < 0 then -(a * b) else a * b)
    ensures a * (b - 1) == a * b - a && a * (-b - 1) == -(a * b) - a
  {
  }

  function SaturatingSubtract(left: Int64, right: Int64): Int64 {
    var result := Wrap(left - right);
    if right > 0 && result > left then MIN_INT64
    else if right < 0 && result < left then MAX_INT64
    else result
  }

  /** The two overflow tests catch exactly the results that wrapped. */
  lemma {:induction false} SaturatingSubtractClamps(left: Int64, right: Int64)
    ensures SaturatingSubtract(left, right) == Clamp(left - right)
  {
  }

  function AsUnsigned(n: Int64): (u: nat)
    ensures u < TWO_64
  {
    if n < 0 then n + TWO_64 else n
  }

  function AsSigned(u: nat): (n: Int64)
    requires u < TWO_64
    ensures AsUnsigned(n) == u
  {
    if u < TWO_63 then u else u - TWO_64
  }

  predicate InInt32(n: int) { -MAX_INT32 - 1 <= n <= MAX_INT32 }

  /** A conversion to an unsigned 32-bit integer keeps the low bits. */
  function Low32(n: int): (u: nat)
    ensures u < TWO_32
  {
    n % TWO_32
  }

  function AsInt32(u: nat): int
    requires u < TWO_32
  {
    if u <= MAX_INT32 then u else u - TWO_32
  }

  lemma {:induction false} Int32Survives(n: int)
    ensures InInt32(AsInt32(Low32(n)))
    ensures AsInt32(Low32(n)) == n <==> InInt32(n)
  {
  }
}
