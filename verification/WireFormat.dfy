/** Confluent record frames: the plain one and the one of Protobuf records, whose
    message-index path is a list of zigzag base-128 varints. */
module WireFormats {
  import opened Wrappers
  import opened Machine
  import opened ByteCodec

  const HEADER_SIZE: nat := 5
  const MAGIC: Byte := 0

  /** A varint has at most ten groups of seven bits. */
  const GROUPS: nat := 10

  datatype FrameError = ShortFrame | BadMagic | EmptyPath | TruncatedVarint | VarintTooLong | BadPathLength | BadPathIndex

  datatype Frame = Frame(schemaID: int, body: Bytes)

  datatype ProtobufFrame = ProtobufFrame(schemaID: int, messageIndexes: seq<Int64>, body: Bytes)

  /** What a varint reader leaves. */
  type Read<T> = Result<(T, Bytes), FrameError>

  // ------------------------------------------------------------------ zigzag

  /** Small numbers of either sign become small natural numbers. */
  function Zigzag(value: Int64): (u: nat)
    ensures u < TWO_64
  {
    if value >= 0 then 2 * value else -2 * value - 1
  }

  function Unzigzag(u: nat): Int64
    requires u < TWO_64
  {
    if u % 2 == 0 then u / 2 else -(u / 2) - 1
  }

  lemma {:induction false} ZigzagIsBijective(value: Int64, u: nat)
    requires u < TWO_64
    ensures Unzigzag(Zigzag(value)) == value && Zigzag(Unzigzag(u)) == u
  {
  }

  // ----------------------------------------------------------------- varints

  function Pow128(i: nat): (p: nat)
    ensures p > 0
  {
    if i == 0 then 1 else 128 * Pow128(i - 1)
  }

  lemma {:induction false} Pow128Values()
    ensures Pow128(9) == TWO_63 && Pow128(8) == 0x100_0000_0000_0000 && Pow128(10) == 64 * TWO_64
  {
    assert Pow128(2) == 0x4000;
    assert Pow128(4) == 0x1000_0000;
    assert Pow128(6) == 0x400_0000_0000;
  }

  /** Seven bits a byte, least significant first; the high bit says more follow. */
  function PutVarint(u: nat): (bytes: Bytes)
    ensures |bytes| > 0
  {
    if u < 128 then [u] else [u % 128 + 128] + PutVarint(u / 128)
  }

  /** Reads from group `i` on. A group that reaches past bit 63 loses what does. */
  function GetVarint(data: Bytes, i: nat, result: nat): (r: Read<nat>)
    ensures r.Ok? ==> |r.value.1| < |data|
  {
    if i >= GROUPS then Err(VarintTooLong)
    else if data == [] then Err(TruncatedVarint)
    else
      var next := result + data[0] % 128 * Pow128(i) % TWO_64;
      if data[0] < 128 then Ok((next, data[1..])) else GetVarint(data[1..], i + 1, next)
  }

  lemma {:induction false} Pow128Grows(i: nat, j: nat)
    requires i <= j
    ensures Pow128(i) <= Pow128(j)
  {
    if i < j { Pow128Grows(i, j - 1); }
  }

  lemma {:induction false} SplitGroup(u: nat, p: nat)
    ensures u % 128 * p + u / 128 * (128 * p) == u * p
    ensures u % 128 * p <= u * p && u / 128 * (128 * p) <= u * p
  {
    var q, r := u / 128, u % 128;
    calc {
      u * p;
      (128 * q + r) * p;
      128 * q * p + r * p;
      q * (128 * p) + r * p;
    }
  }

  lemma {:induction false} MoreGroupsFit(u: nat, i: nat)
    requires i < GROUPS && u >= 128 && u * Pow128(i) < TWO_64
    ensures i + 1 < GROUPS
  {
    if i == 9 {
      Pow128Values();
      Product(u, Pow128(9));
    }
  }

  lemma {:induction false} Product(u: nat, p: nat)
    requires u >= 128
    ensures u * p >= 128 * p
  {
  }

  lemma {:induction false} LastGroup(data: Bytes, i: nat, result: nat, rest: Bytes, more: nat)
    requires i < GROUPS && data != [] && data[0] < 128 && data[1..] == rest
    requires more == data[0] * Pow128(i) && more < TWO_64
    ensures GetVarint(data, i, result) == Ok((result + more, rest))
  {
  }

  lemma {:induction false} OneGroup(data: Bytes, i: nat, result: nat, tail: Bytes, more: nat)
    requires i < GROUPS && data != [] && data[0] >= 128 && data[1..] == tail
    requires more == data[0] % 128 * Pow128(i) && more < TWO_64
    ensures GetVarint(data, i, result) == GetVarint(tail, i + 1, result + more)
  {
  }

  lemma {:induction false} GetPutVarintFrom(u: nat, i: nat, result: nat, rest: Bytes, shifted: nat)
    requires i < GROUPS && shifted == u * Pow128(i) && shifted < TWO_64
    ensures GetVarint(PutVarint(u) + rest, i, result) == Ok((result + shifted, rest))
    decreases u
  {
    var data, p := PutVarint(u) + rest, Pow128(i);
    if u < 128 {
      assert data == [u] + rest;
      LastGroup(data, i, result, rest, shifted);
    } else {
      MoreGroupsFit(u, i);
      SplitGroup(u, p);
      var low, high := u % 128 * p, u / 128 * (128 * p);
      assert data[0] == u % 128 + 128 && data[1..] == PutVarint(u / 128) + rest;
      OneGroup(data, i, result, PutVarint(u / 128) + rest, low);
      GetPutVarintFrom(u / 128, i + 1, result + low, rest, high);
    }
  }

  /** A varint reads back whatever bytes follow it. */
  lemma {:induction false} GetPutVarint(u: nat, rest: Bytes)
    requires u < TWO_64
    ensures GetVarint(PutVarint(u) + rest, 0, 0) == Ok((u, rest))
  {
    assert Pow128(0) == 1;
    GetPutVarintFrom(u, 0, 0, rest, u);
  }

  lemma {:induction false} GroupFits(result: nat, digit: nat, i: nat)
    requires i < GROUPS && digit < 128 && result < Pow128(i)
    ensures var next := result + digit * Pow128(i) % TWO_64;
            next < TWO_64 && next < Pow128(i + 1)
  {
    Pow128Values();
    var p := Pow128(i);
    assert digit * p <= 127 * p;
    if i < 9 {
      Pow128Grows(i, 8);
      assert digit * p < TWO_64 - p;
    } else {
      assert digit * TWO_63 % TWO_64 == digit % 2 * TWO_63 by { HalfTurn(digit); }
    }
  }

  lemma {:induction false} HalfTurn(digit: nat)
    ensures digit * TWO_63 % TWO_64 == digit % 2 * TWO_63
  {
    var q, r := digit / 2, digit % 2;
    assert digit * TWO_63 == q * TWO_64 + r * TWO_63;
    RemainderOf(q, r * TWO_63);
  }

  lemma {:induction false} RemainderOf(q: nat, r: nat)
    requires r < TWO_64
    ensures (q * TWO_64 + r) % TWO_64 == r
  {
  }

  /** What is read is a 64-bit number, and its shortest varint is no longer than
      the bytes it was read from. */
  lemma {:induction false} VarintIsShortest(data: Bytes, i: nat, result: nat)
    requires result < Pow128(i) && i <= GROUPS && result < TWO_64 && GetVarint(data, i, result).Ok?
    ensures var (u, rest) := GetVarint(data, i, result).value;
            u < TWO_64 && |PutVarint(u)| <= i + |data| - |rest|
    decreases |data|
  {
    var next := result + data[0] % 128 * Pow128(i) % TWO_64;
    GroupFits(result, data[0] % 128, i);
    if data[0] < 128 {
      VarintLength(next, i + 1);
    } else {
      VarintIsShortest(data[1..], i + 1, next);
    }
  }

  lemma {:induction false} VarintLength(u: nat, n: nat)
    requires n > 0 && u < Pow128(n)
    ensures |PutVarint(u)| <= n
  {
    if u >= 128 {
      assert n > 1 by { assert Pow128(1) == 128 * Pow128(0) == 128; }
      VarintLength(u / 128, n - 1);
    }
  }

  /** Appends while more than seven bits are left. */
  method AppendZigzag(buffer: Bytes, value: Int64) returns (result: Bytes)
    ensures result == buffer + PutVarint(Zigzag(value))
  {
    var encoded := Zigzag(value);
    result := buffer;
    while encoded >= 128
      invariant buffer + PutVarint(Zigzag(value)) == result + PutVarint(encoded)
    {
      result := result + [encoded % 128 + 128];
      encoded := encoded / 128;
    }
    result := result + [encoded];
  }

  function GetZigzag(data: Bytes): (r: Read<Int64>)
    ensures r.Ok? ==> |r.value.1| < |data|
  {
    var (u, rest) :- GetVarint(data, 0, 0);
    VarintIsShortest(data, 0, 0);
    Ok((Unzigzag(u), rest))
  }

  method ReadZigzag(data: Bytes) returns (r: Read<Int64>)
    ensures r == GetZigzag(data)
  {
    var result: nat, rest := 0, data;
    for i := 0 to GROUPS
      invariant GetVarint(data, 0, 0) == GetVarint(rest, i, result)
      invariant result < Pow128(i) && result < TWO_64
    {
      if |rest| == 0 { return Err(TruncatedVarint); }
      var current := rest[0];
      GroupFits(result, current % 128, i);
      result := result + current % 128 * Pow128(i) % TWO_64;
      rest := rest[1..];
      if current < 128 { return Ok((Unzigzag(result), rest)); }
    }
    return Err(VarintTooLong);
  }

  /** Signed varints are inverse for every 64-bit value and any bytes after. */
  lemma {:induction false} ReadAppendZigzag(value: Int64, rest: Bytes)
    ensures GetZigzag(PutVarint(Zigzag(value)) + rest) == Ok((value, rest))
  {
    GetPutVarint(Zigzag(value), rest);
    ZigzagIsBijective(value, 0);
  }

  // ------------------------------------------------------------- plain frames

  function PutHeader(schemaID: int): (bytes: Bytes)
    ensures |bytes| == HEADER_SIZE
  {
    [MAGIC] + PutUint(Low32(schemaID), 4)
  }

  function CheckHeader(data: Bytes): Option<FrameError> {
    if |data| < HEADER_SIZE then Some(ShortFrame)
    else if data[0] != MAGIC then Some(BadMagic)
    else None
  }

  function HeaderID(data: Bytes): int
    requires |data| >= HEADER_SIZE
  {
    PutGet(data[1..HEADER_SIZE]);
    BaseValues();
    AsInt32(GetUint(data[1..HEADER_SIZE]))
  }

  lemma {:induction false} HeaderReadsBack(schemaID: int, rest: Bytes)
    ensures CheckHeader(PutHeader(schemaID) + rest) == None
    ensures HeaderID(PutHeader(schemaID) + rest) == AsInt32(Low32(schemaID))
    ensures (PutHeader(schemaID) + rest)[HEADER_SIZE..] == rest
  {
    BaseValues();
    GetPut(Low32(schemaID), 4);
    assert (PutHeader(schemaID) + rest)[1..HEADER_SIZE] == PutUint(Low32(schemaID), 4);
  }

  /** Fills a fresh buffer: the magic byte, the identifier, a copy of the body. */
  method Encode(schemaID: int, body: Bytes) returns (result: array<Byte>)
    ensures fresh(result) && result[..] == PutHeader(schemaID) + body
  {
    result := new Byte[HEADER_SIZE + |body|];
    result[0] := MAGIC;
    var id := PutUint(Low32(schemaID), 4);
    forall i | 0 <= i < 4 { result[1 + i] := id[i]; }
    forall i | 0 <= i < |body| { result[HEADER_SIZE + i] := body[i]; }
    assert result[..HEADER_SIZE] == [MAGIC] + id;
    assert result[HEADER_SIZE..] == body;
  }

  function Decode(data: Bytes): Result<Frame, FrameError> {
    match CheckHeader(data)
    case Some(error) => Err(error)
    case None => Ok(Frame(HeaderID(data), data[HEADER_SIZE..]))
  }

  /** Encoding and decoding plain frames are inverse, and decoding accepts nothing
      but what encoding writes. */
  lemma {:induction false} FramesAreBijective(schemaID: int, body: Bytes, data: Bytes)
    ensures Decode(PutHeader(schemaID) + body) == Ok(Frame(AsInt32(Low32(schemaID)), body))
    ensures Decode(data).Ok? ==> PutHeader(Decode(data).value.schemaID) + Decode(data).value.body == data
  {
    HeaderReadsBack(schemaID, body);
    if Decode(data).Ok? {
      PutGet(data[1..HEADER_SIZE]);
      BaseValues();
      assert data == [data[0]] + data[1..HEADER_SIZE] + data[HEADER_SIZE..];
    }
  }

  // ---------------------------------------------------------- Protobuf frames

  function PutIndexes(indexes: seq<Int64>): Bytes {
    if indexes == [] then [] else PutIndexes(indexes[..|indexes| - 1]) + PutVarint(Zigzag(indexes[|indexes| - 1]))
  }

  function PutPath(indexes: seq<Int64>): Bytes
    requires |indexes| <= MAX_INT64
  {
    if indexes == [0] then [0] else PutVarint(Zigzag(|indexes|)) + PutIndexes(indexes)
  }

  method AppendIndexes(buffer: Bytes, indexes: seq<Int64>) returns (result: Bytes)
    ensures result == buffer + PutIndexes(indexes)
  {
    result := buffer;
    for i := 0 to |indexes|
      invariant result == buffer + PutIndexes(indexes[..i])
    {
      assert indexes[..i + 1][..i] == indexes[..i];
      result := AppendZigzag(result, indexes[i]);
    }
    assert indexes[..|indexes|] == indexes;
  }

  method AppendPath(buffer: Bytes, indexes: seq<Int64>) returns (result: Bytes)
    requires 0 < |indexes| <= MAX_INT64
    ensures result == buffer + PutPath(indexes)
  {
    if |indexes| == 1 && indexes[0] == 0 {
      assert indexes == [0];
      result := buffer + [0];
    } else {
      assert indexes != [0];
      result := AppendZigzag(buffer, |indexes|);
      result := AppendIndexes(result, indexes);
    }
  }

  /** The path must not be empty. A slice has fewer than 2^63 elements. */
  method EncodeProtobuf(schemaID: int, messageIndexes: seq<Int64>, body: Bytes) returns (r: Result<Bytes, FrameError>)
    requires |messageIndexes| <= MAX_INT64
    ensures r == if messageIndexes == [] then Err(EmptyPath)
                 else Ok(PutHeader(schemaID) + PutPath(messageIndexes) + body)
  {
    if |messageIndexes| == 0 { return Err(EmptyPath); }
    var result := AppendPath(PutHeader(schemaID), messageIndexes);
    return Ok(result + body);
  }

  /** Reads `count` indexes, refusing the first that is not a 32-bit number. */
  function GetIndexes(data: Bytes, count: nat): Read<seq<Int64>>
    decreases count
  {
    if count == 0 then Ok(([], data))
    else
      var (value, rest) :- GetZigzag(data);
      if !InInt32(value) then Err(BadPathIndex)
      else
        var (others, rest') :- GetIndexes(rest, count - 1);
        Ok(([value] + others, rest'))
  }

  function GetPath(data: Bytes): Read<seq<Int64>> {
    var (count, rest) :- GetZigzag(data);
    if count == 0 then Ok(([0], rest))
    else if count < 0 || count > MAX_INT32 then Err(BadPathLength)
    else GetIndexes(rest, count)
  }

  function DecodeProtobufFrame(data: Bytes): Result<ProtobufFrame, FrameError> {
    match CheckHeader(data)
    case Some(error) => Err(error)
    case None =>
      var (indexes, body) :- GetPath(data[HEADER_SIZE..]);
      Ok(ProtobufFrame(HeaderID(data), indexes, body))
  }

  lemma {:induction false} GetIndexesStep(data: Bytes, count: nat, value: Int64, rest: Bytes)
    requires GetZigzag(data) == Ok((value, rest))
    ensures GetIndexes(data, count + 1)
            == if !InInt32(value) then Err(BadPathIndex)
               else match GetIndexes(rest, count)
                    case Ok((others, rest')) => Ok(([value] + others, rest'))
                    case Err(error) => Err(error)
  {
  }

  method DecodeProtobuf(data: Bytes) returns (r: Result<ProtobufFrame, FrameError>)
    ensures r == DecodeProtobufFrame(data)
  {
    if |data| < HEADER_SIZE { return Err(ShortFrame); }
    if data[0] != MAGIC { return Err(BadMagic); }
    var path := ReadZigzag(data[HEADER_SIZE..]);
    if path.Err? { return Err(path.error); }
    var (count, rest) := path.value;
    var indexes: seq<Int64> := [];
    if count == 0 {
      indexes := [0];
    } else {
      if count < 0 || count > MAX_INT32 { return Err(BadPathLength); }
      var read := ReadIndexes(rest, count);
      if read.Err? { return Err(read.error); }
      indexes, rest := read.value.0, read.value.1;
    }
    return Ok(ProtobufFrame(HeaderID(data), indexes, rest));
  }

  /** What reading the rest gives once `done` was read before it. */
  function Prepend(done: seq<Int64>, r: Read<seq<Int64>>): Read<seq<Int64>> {
    match r
    case Ok((others, rest)) => Ok((done + others, rest))
    case Err(error) => Err(error)
  }

  method ReadIndexes(data: Bytes, count: nat) returns (r: Read<seq<Int64>>)
    ensures r == GetIndexes(data, count)
  {
    var indexes: seq<Int64>, rest := [], data;
    assert forall others: seq<Int64> :: [] + others == others;
    for i := 0 to count
      invariant |indexes| == i && GetIndexes(data, count) == Prepend(indexes, GetIndexes(rest, count - i))
    {
      var next := ReadZigzag(rest);
      if next.Err? { return Err(next.error); }
      GetIndexesStep(rest, count - i - 1, next.value.0, next.value.1);
      if !InInt32(next.value.0) { return Err(BadPathIndex); }
      assert forall others: seq<Int64> :: indexes + ([next.value.0] + others) == indexes + [next.value.0] + others;
      indexes, rest := indexes + [next.value.0], next.value.1;
    }
    assert indexes + [] == indexes;
    return Ok((indexes, rest));
  }

  predicate AllInInt32(indexes: seq<Int64>) { forall i :: 0 <= i < |indexes| ==> InInt32(indexes[i]) }

  lemma {:induction false} PutIndexesHead(indexes: seq<Int64>)
    requires indexes != []
    ensures PutIndexes(indexes) == PutVarint(Zigzag(indexes[0])) + PutIndexes(indexes[1..])
  {
    var n := |indexes| - 1;
    if n > 0 {
      PutIndexesHead(indexes[..n]);
      assert indexes[..n][1..] == indexes[1..][..n - 1];
    }
  }

  /** A path reads back exactly when all its indexes are 32-bit numbers. */
  lemma {:induction false} GetPutIndexes(indexes: seq<Int64>, rest: Bytes)
    ensures GetIndexes(PutIndexes(indexes) + rest, |indexes|)
            == if AllInInt32(indexes) then Ok((indexes, rest)) else Err(BadPathIndex)
    decreases |indexes|
  {
    if indexes == [] {
      assert PutIndexes(indexes) + rest == rest;
    } else {
      PutIndexesHead(indexes);
      var head, tail := PutVarint(Zigzag(indexes[0])), PutIndexes(indexes[1..]) + rest;
      assert PutIndexes(indexes) + rest == head + tail;
      ReadAppendZigzag(indexes[0], tail);
      GetPutIndexes(indexes[1..], rest);
      GetIndexesStep(head + tail, |indexes| - 1, indexes[0], tail);
      AllInt32Head(indexes);
      assert indexes == [indexes[0]] + indexes[1..];
    }
  }

  lemma {:induction false} AllInt32Head(indexes: seq<Int64>)
    requires indexes != []
    ensures AllInInt32(indexes) <==> InInt32(indexes[0]) && AllInInt32(indexes[1..])
  {
    assert indexes == [indexes[0]] + indexes[1..];
  }

  lemma {:induction false} GetPutPath(indexes: seq<Int64>, rest: Bytes)
    requires 0 < |indexes| <= MAX_INT64
    ensures GetPath(PutPath(indexes) + rest)
            == if |indexes| > MAX_INT32 then Err(BadPathLength)
               else if AllInInt32(indexes) then Ok((indexes, rest)) else Err(BadPathIndex)
  {
    if indexes == [0] {
      assert PutVarint(Zigzag(0)) == [0];
      ReadAppendZigzag(0, rest);
    } else {
      var tail := PutIndexes(indexes) + rest;
      assert PutPath(indexes) + rest == PutVarint(Zigzag(|indexes|)) + tail;
      ReadAppendZigzag(|indexes|, tail);
      GetPutIndexes(indexes, rest);
    }
  }

  /** What every encoded Protobuf frame decodes to. The encoder checks no range, the
      decoder does. */
  lemma {:induction false} DecodeEncodeProtobuf(schemaID: int, indexes: seq<Int64>, body: Bytes)
    requires 0 < |indexes| <= MAX_INT64
    ensures DecodeProtobufFrame(PutHeader(schemaID) + PutPath(indexes) + body)
            == if |indexes| > MAX_INT32 then Err(BadPathLength)
               else if AllInInt32(indexes) then Ok(ProtobufFrame(AsInt32(Low32(schemaID)), indexes, body))
               else Err(BadPathIndex)
  {
    var path := PutPath(indexes);
    assert PutHeader(schemaID) + path + body == PutHeader(schemaID) + (path + body);
    HeaderReadsBack(schemaID, path + body);
    GetPutPath(indexes, body);
  }

  /** The frame comes back exactly when identifier, length and indexes are 32-bit. */
  lemma {:induction false} ProtobufRoundTrip(schemaID: int, indexes: seq<Int64>, body: Bytes)
    requires 0 < |indexes| <= MAX_INT64
    ensures DecodeProtobufFrame(PutHeader(schemaID) + PutPath(indexes) + body) == Ok(ProtobufFrame(schemaID, indexes, body))
            <==> InInt32(schemaID) && |indexes| <= MAX_INT32 && AllInInt32(indexes)
  {
    DecodeEncodeProtobuf(schemaID, indexes, body);
    Int32Survives(schemaID);
  }

  lemma {:induction false} GetIndexesInRange(data: Bytes, count: nat)
    requires GetIndexes(data, count).Ok?
    ensures var (indexes, rest) := GetIndexes(data, count).value;
            |indexes| == count && AllInInt32(indexes) && |PutIndexes(indexes)| + |rest| <= |data|
    decreases count
  {
    if count > 0 {
      var (value, rest) := GetZigzag(data).value;
      GetIndexesInRange(rest, count - 1);
      var (others, rest') := GetIndexes(rest, count - 1).value;
      var all := [value] + others;
      AllInt32Head(all);
      PutIndexesHead(all);
      assert all[1..] == others;
      ZigzagIsShortest(data);
    }
  }

  lemma {:induction false} ZigzagIsShortest(data: Bytes)
    requires GetZigzag(data).Ok?
    ensures |PutVarint(Zigzag(GetZigzag(data).value.0))| + |GetZigzag(data).value.1| <= |data|
  {
    VarintIsShortest(data, 0, 0);
    ZigzagIsBijective(0, GetVarint(data, 0, 0).value.0);
  }

  /** Encoding is a canonical form: whatever frame the decoder accepts, encoding
      what it was decoded to gives a frame that is no longer and decodes the same. */
  lemma {:induction false} EncodingIsCanonical(data: Bytes)
    requires DecodeProtobufFrame(data).Ok?
    ensures var f := DecodeProtobufFrame(data).value;
            && 0 < |f.messageIndexes| <= MAX_INT32
            && var again := PutHeader(f.schemaID) + PutPath(f.messageIndexes) + f.body;
            DecodeProtobufFrame(again) == Ok(f) && |again| <= |data|
  {
    var rest := data[HEADER_SIZE..];
    var (count, rest') := GetZigzag(rest).value;
    ZigzagIsShortest(rest);
    var f := DecodeProtobufFrame(data).value;
    if count == 0 {
      assert f.messageIndexes == [0];
    } else {
      GetIndexesInRange(rest', count);
    }
    PutGet(data[1..HEADER_SIZE]);
    BaseValues();
    assert InInt32(f.schemaID);
    ProtobufRoundTrip(f.schemaID, f.messageIndexes, f.body);
  }
}
