/** Decimal text of unbounded integers and of fractions in lowest terms. */
module Decimal {
  import opened Wrappers
  import opened ByteCodec

  const ZERO: Byte := 48
  const MINUS: Byte := 45
  const PLUS: Byte := 43
  const SLASH: Byte := 47

  function Digits(n: nat): (text: Bytes)
    ensures |text| >= 1
  {
    if n < 10 then [ZERO + n] else Digits(n / 10) + [ZERO + n % 10]
  }

  function ParseDigits(text: Bytes): Option<nat> {
    if |text| == 0 then Some(0)
    else
      var last := text[|text| - 1];
      match ParseDigits(text[..|text| - 1])
      case Some(high) => if ZERO <= last < ZERO + 10 then Some(10 * high + (last - ZERO)) else None
      case None => None
  }

  predicate AllDigits(text: Bytes) { forall i :: 0 <= i < |text| ==> ZERO <= text[i] < ZERO + 10 }

  lemma {:induction false} ParseOfDigits(n: nat)
    ensures ParseDigits(Digits(n)) == Some(n) && AllDigits(Digits(n))
  {
    if n < 10 {
      assert Digits(n)[..0] == [];
    } else {
      ParseOfDigits(n / 10);
      assert Digits(n)[..|Digits(n)| - 1] == Digits(n / 10);
    }
  }

  function IntText(n: int): Bytes {
    if n < 0 then [MINUS] + Digits(-n) else Digits(n)
  }

  /** An optional sign and at least one digit; nothing may follow. */
  function ParseInt(text: Bytes): Option<int> {
    if |text| == 0 then None
    else if text[0] == MINUS || text[0] == PLUS then
      if |text| == 1 then None
      else
        match ParseDigits(text[1..])
        case Some(n) => Some(if text[0] == MINUS then 0 - n else n)
        case None => None
    else
      match ParseDigits(text)
      case Some(n) => Some(n)
      case None => None
  }

  lemma {:induction false} ParseIntText(n: int)
    ensures ParseInt(IntText(n)) == Some(n)
  {
    ParseOfDigits(if n < 0 then -n else n);
    if n < 0 {
      assert IntText(n)[1..] == Digits(-n);
    } else {
      assert IntText(n)[0] == Digits(n)[0];
    }
  }

  function Gcd(a: nat, b: nat): (g: nat)
    requires a + b > 0
    ensures g > 0
    decreases b
  {
    if b == 0 then a else Gcd(b, a % b)
  }

  function Abs(n: int): nat { if n < 0 then -n else n }

  predicate LowestTerms(num: int, den: int) { den > 0 && Gcd(Abs(num), den) == 1 }

  /** The fraction with its common factor divided out. */
  function Reduce(num: int, den: int): (r: (int, int))
    requires den > 0
    ensures LowestTerms(num, den) ==> r == (num, den)
  {
    var g := Gcd(Abs(num), den);
    (if num < 0 then -(-num / g) else num / g, den / g)
  }

  function IndexOf(text: Bytes, b: Byte): (i: nat)
    ensures i <= |text|
    ensures i < |text| ==> text[i] == b
    ensures forall j :: 0 <= j < i ==> text[j] != b
  {
    if |text| == 0 || text[0] == b then 0 else 1 + IndexOf(text[1..], b)
  }

  /** An integer alone, or a numerator, a slash and a denominator. */
  function RatText(num: int, den: int): Bytes {
    if den == 1 then IntText(num) else IntText(num) + [SLASH] + Digits(Abs(den))
  }

  function ParseRat(text: Bytes): Option<(int, int)> {
    var slash := IndexOf(text, SLASH);
    if slash == |text| then
      match ParseInt(text)
      case Some(n) => Some((n, 1))
      case None => None
    else
      match (ParseInt(text[..slash]), ParseDigits(text[slash + 1..]))
      case (Some(num), Some(den)) =>
        if slash + 1 == |text| || den == 0 then None else Some(Reduce(num, den))
      case _ => None
  }

  lemma {:induction false} IntTextHasNoSlash(n: int)
    ensures SLASH !in IntText(n)
  {
    ParseOfDigits(Abs(n));
  }

  lemma {:induction false} ParseRatText(num: int, den: int)
    requires LowestTerms(num, den)
    ensures ParseRat(RatText(num, den)) == Some((num, den))
  {
    var text, slash := RatText(num, den), IndexOf(RatText(num, den), SLASH);
    IntTextHasNoSlash(num);
    ParseIntText(num);
    if den == 1 {
      assert slash == |text|;
    } else {
      assert text[|IntText(num)|] == SLASH;
      assert forall i :: 0 <= i < |IntText(num)| ==> text[i] == IntText(num)[i];
      assert text[..slash] == IntText(num);
      assert text[slash + 1..] == Digits(den);
      ParseOfDigits(den);
    }
  }
}
