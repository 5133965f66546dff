/** Big-endian integers and length-prefixed byte strings, with the readers that
    consume them from the front of a buffer. */
module ByteCodec {
  import opened Machine

  type Byte = n: int | 0 <= n < 256
  type Bytes = seq<Byte>

  datatype ParseError =
    | Truncated
    | BadInteger
    | BadRational
    | UnknownTag
    | BadVersion
    | TrailingBytes
    | BadLength
    | BadCount
    | BadUtf8
    | BadKind
    | BadName
    | BadToken

  /** What a reader leaves: a value and the unread rest of the buffer. */
  datatype Parse<+T> = Done(value: T, rest: Bytes) | Failed(error: ParseError) {
    predicate IsFailure() { Failed? }

    function PropagateFailure<U>(): Parse<U>
      requires Failed?
    {
      Failed(error)
    }

    function Extract(): (T, Bytes)
      requires Done?
    {
      (value, rest)
    }
  }

  function Base(width: nat): (b: nat)
    ensures b > 0
  {
    if width == 0 then 1 else 256 * Base(width - 1)
  }

  lemma {:induction false} BaseValues()
    ensures Base(2) == 0x1_0000 && Base(4) == TWO_32 && Base(8) == TWO_64
  {
    assert Base(1) == 256;
    assert Base(2) == 0x1_0000;
    assert Base(3) == 0x100_0000;
    assert Base(5) == 0x100_0000_0000;
    assert Base(6) == 0x1_0000_0000_0000;
    assert Base(7) == 0x100_0000_0000_0000;
  }

  /** The low `width` bytes of `n`, most significant first. A larger `n` loses
      its high bytes, as a conversion to a narrower unsigned type does. */
  function PutUint(n: nat, width: nat): (bytes: Bytes)
    ensures |bytes| == width
  {
    if width == 0 then [] else PutUint(n / 256, width - 1) + [n % 256]
  }

  function GetUint(bytes: Bytes): nat {
    if |bytes| == 0 then 0 else 256 * GetUint(bytes[..|bytes| - 1]) + bytes[|bytes| - 1]
  }

  lemma {:induction false} GetPut(n: nat, width: nat)
    requires n < Base(width)
    ensures GetUint(PutUint(n, width)) == n
  {
    if width > 0 {
      GetPut(n / 256, width - 1);
      assert PutUint(n, width)[..width - 1] == PutUint(n / 256, width - 1);
    }
  }

  lemma {:induction false} PutGet(bytes: Bytes)
    ensures GetUint(bytes) < Base(|bytes|)
    ensures PutUint(GetUint(bytes), |bytes|) == bytes
  {
    if |bytes| > 0 {
      PutGet(bytes[..|bytes| - 1]);
    }
  }

  function ReadUint(data: Bytes, width: nat): (r: Parse<nat>)
    ensures r.Done? ==> |data| == width + |r.rest|
  {
    if |data| < width then Failed(Truncated) else Done(GetUint(data[..width]), data[width..])
  }

  lemma {:induction false} ReadPutUint(n: nat, width: nat, rest: Bytes)
    requires n < Base(width)
    ensures ReadUint(PutUint(n, width) + rest, width) == Done(n, rest)
  {
    GetPut(n, width);
    assert (PutUint(n, width) + rest)[..width] == PutUint(n, width);
    assert (PutUint(n, width) + rest)[width..] == rest;
  }

  /** A reader accepts nothing but what the writer writes for its result. */
  lemma {:induction false} ReadUintInverse(data: Bytes, width: nat)
    requires ReadUint(data, width).Done?
    ensures ReadUint(data, width).value < Base(width)
    ensures data == PutUint(ReadUint(data, width).value, width) + ReadUint(data, width).rest
  {
    PutGet(data[..width]);
    assert data == data[..width] + data[width..];
  }

  function PutInt64(n: Int64): Bytes { PutUint(AsUnsigned(n), 8) }

  function ReadInt64(data: Bytes): (r: Parse<Int64>)
    ensures r.Done? ==> |data| == 8 + |r.rest|
  {
    var (u, rest) :- ReadUint(data, 8);
    PutGet(data[..8]);
    BaseValues();
    Done(AsSigned(u), rest)
  }

  lemma {:induction false} ReadPutInt64(n: Int64, rest: Bytes)
    ensures ReadInt64(PutInt64(n) + rest) == Done(n, rest)
  {
    BaseValues();
    ReadPutUint(AsUnsigned(n), 8, rest);
  }

  lemma {:induction false} ReadInt64Inverse(data: Bytes)
    requires ReadInt64(data).Done?
    ensures data == PutInt64(ReadInt64(data).value) + ReadInt64(data).rest
  {
    BaseValues();
    ReadUintInverse(data, 8);
  }

  /** A 32-bit length and then the bytes. */
  function PutSized(data: Bytes): (bytes: Bytes)
    ensures |bytes| == 4 + |data|
  {
    PutUint(|data|, 4) + data
  }

  /** The truncation test compares the length with the low 32 bits of the number
      of bytes left, so it can only refuse too much, never read past the end. */
  function ReadSized(data: Bytes): (r: Parse<Bytes>)
    ensures r.Done? ==> |data| == 4 + |r.value| + |r.rest|
  {
    var (length, rest) :- ReadUint(data, 4);
    if |rest| % TWO_32 < length then Failed(Truncated) else Done(rest[..length], rest[length..])
  }

  lemma {:induction false} ReadPutSized(data: Bytes, rest: Bytes)
    requires |data| + |rest| < TWO_32
    ensures ReadSized(PutSized(data) + rest) == Done(data, rest)
  {
    BaseValues();
    assert PutSized(data) + rest == PutUint(|data|, 4) + (data + rest);
    ReadPutUint(|data|, 4, data + rest);
    assert (data + rest)[..|data|] == data && (data + rest)[|data|..] == rest;
  }

  /** Byte-wise lexicographic order, which orders Go strings. */
  predicate Less(a: Bytes, b: Bytes) {
    |b| > 0 && (|a| == 0 || a[0] < b[0] || (a[0] == b[0] && Less(a[1..], b[1..])))
  }

  lemma {:induction false} LessAsymmetric(a: Bytes, b: Bytes)
    requires Less(a, b)
    ensures a != b && !Less(b, a)
  {
    if |a| > 0 && a[0] == b[0] {
      LessAsymmetric(a[1..], b[1..]);
    }
  }

  lemma {:induction false} LessTotal(a: Bytes, b: Bytes)
    ensures a == b || Less(a, b) || Less(b, a)
  {
    if |a| > 0 && |b| > 0 && a[0] == b[0] {
      LessTotal(a[1..], b[1..]);
      assert a == [a[0]] + a[1..] && b == [b[0]] + b[1..];
    }
  }

  /** The bytes of a plain text. */
  function Ascii(text: string): (bytes: Bytes)
    ensures |bytes| == |text|
    ensures forall i :: 0 <= i < |text| ==> bytes[i] == text[i] as int % 256
  {
    seq(|text|, i requires 0 <= i < |text| => text[i] as int % 256)
  }
}
