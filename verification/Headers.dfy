/** The layout of the header column: a count, then for every header a sized key and
    a sized value, where the size -1 says that there is no value. */
module Headers {
  import opened Wrappers
  import opened Machine
  import opened ByteCodec
  import opened ListCodec
  import opened Records

  const NULL_SIZE: nat := 0xffff_ffff

  // ---------------------------------------------------------------- encoding

  function PutSlice(data: Bytes): (bytes: Bytes)
    ensures |bytes| == 4 + |data|
  {
    PutUint(|data|, 4) + data
  }

  function PutValue(value: Option<Bytes>): (bytes: Bytes)
    ensures |bytes| >= 4
  {
    match value case None => PutUint(NULL_SIZE, 4) case Some(data) => PutSlice(data)
  }

  function PutHeader(header: Header): (bytes: Bytes)
    ensures |bytes| >= 8
  {
    PutSlice(header.key) + PutValue(header.value)
  }

  function Encoded(headers: seq<Header>): Bytes { PutUint(|headers|, 4) + PutEach(PutHeader, headers) }

  method AppendHeader(buffer: Bytes, header: Header) returns (result: Bytes)
    ensures result == buffer + PutHeader(header)
  {
    result := buffer + PutUint(|header.key|, 4);
    result := result + header.key;
    if header.value.None? {
      result := result + PutUint(NULL_SIZE, 4);
    } else {
      result := result + PutUint(|header.value.value|, 4);
      result := result + header.value.value;
    }
  }

  method AppendNext(buffer: Bytes, headers: seq<Header>, i: nat, ghost start: Bytes) returns (result: Bytes)
    requires i < |headers| && buffer == start + PutEach(PutHeader, headers[..i])
    ensures result == start + PutEach(PutHeader, headers[..i + 1])
  {
    result := AppendHeader(buffer, headers[i]);
    AppendedNext(PutHeader, headers, i, start, buffer, result);
  }

  method AppendAll(buffer: Bytes, headers: seq<Header>) returns (result: Bytes)
    ensures result == buffer + PutEach(PutHeader, headers)
  {
    result := buffer;
    for i := 0 to |headers|
      invariant result == buffer + PutEach(PutHeader, headers[..i])
    {
      result := AppendNext(result, headers, i, buffer);
    }
    assert headers[..|headers|] == headers;
  }

  method EncodeHeaders(headers: seq<Header>) returns (buffer: Bytes)
    ensures buffer == Encoded(headers)
  {
    buffer := AppendAll(PutUint(|headers|, 4), headers);
  }

  // ---------------------------------------------------------------- decoding

  function GetInt32(data: Bytes): (r: Parse<int>)
    ensures r.Done? ==> |data| == 4 + |r.rest| && InInt32(r.value)
  {
    var (u, rest) :- ReadUint(data, 4);
    PutGet(data[..4]);
    BaseValues();
    Done(AsInt32(u), rest)
  }

  /** The number of bytes left is compared as a signed 32-bit integer, so the test
      can only refuse too much, never read past the end. */
  function GetBytes(data: Bytes, length: nat): (r: Parse<Bytes>)
    ensures r.Done? ==> |data| == length + |r.rest| && |r.value| == length
  {
    if AsInt32(Low32(|data|)) < length then Failed(Truncated) else Done(data[..length], data[length..])
  }

  function GetValue(data: Bytes): (r: Parse<Option<Bytes>>)
    ensures r.Done? ==> |r.rest| <= |data|
  {
    var (length, rest) :- GetInt32(data);
    if length < -1 then Failed(BadLength)
    else if length == -1 then Done(None, rest)
    else
      var (value, rest') :- GetBytes(rest, length);
      Done(Some(value), rest')
  }

  function GetHeader(data: Bytes): (r: Parse<Header>)
    ensures r.Done? ==> |r.rest| < |data|
  {
    var (length, rest) :- GetInt32(data);
    if length < 0 then Failed(BadLength)
    else
      var (key, rest') :- GetBytes(rest, length);
      var (value, rest'') :- GetValue(rest');
      Done(Header(key, value), rest'')
  }

  function Decoded(data: Bytes): Result<seq<Header>, ParseError> {
    match GetInt32(data)
    case Failed(error) => Err(error)
    case Done(count, rest) =>
      if count < 0 || count > |rest| / 8 + 1 then Err(BadCount)
      else
        match GetEach(GetHeader, rest, count)
        case Failed(error) => Err(error)
        case Done(headers, rest') => if rest' != [] then Err(TrailingBytes) else Ok(headers)
  }

  /** A call that parsed `p` returned `r` and left `rest` in the reader. */
  predicate Reads<T(==)>(r: Result<T, ParseError>, p: Parse<T>, rest: Bytes) {
    match p
    case Done(value, tail) => r == Ok(value) && rest == tail
    case Failed(error) => r == Err(error)
  }

  /** The bytes not yet decoded, which the two readers take from the front. */
  class HeaderReader {
    var data: Bytes

    constructor (data: Bytes)
      ensures this.data == data
    {
      this.data := data;
    }

    method ReadInt() returns (r: Result<int, ParseError>)
      modifies this
      ensures Reads(r, GetInt32(old(data)), data)
    {
      if |data| < 4 { return Err(Truncated); }
      var u := GetUint(data[..4]);
      PutGet(data[..4]);
      BaseValues();
      data := data[4..];
      r := Ok(AsInt32(u));
    }

    method ReadBytes(length: nat) returns (r: Result<Bytes, ParseError>)
      modifies this
      ensures Reads(r, GetBytes(old(data), length), data)
    {
      if AsInt32(Low32(|data|)) < length { return Err(Truncated); }
      r := Ok(data[..length]);
      data := data[length..];
    }

    method ReadHeader() returns (r: Result<Header, ParseError>)
      modifies this
      ensures Reads(r, GetHeader(old(data)), data)
    {
      var keyLength :- ReadInt();
      if keyLength < 0 { return Err(BadLength); }
      var key :- ReadBytes(keyLength);
      var valueLength :- ReadInt();
      if valueLength < -1 { return Err(BadLength); }
      var value: Option<Bytes> := None;
      if valueLength >= 0 {
        var bytes :- ReadBytes(valueLength);
        value := Some(bytes);
      }
      r := Ok(Header(key, value));
    }

    method ReadAll(count: nat) returns (r: Result<seq<Header>, ParseError>)
      modifies this
      ensures Reads(r, GetEach(GetHeader, old(data), count), data)
    {
      var result: seq<Header> := [];
      PrependNothing(GetEach(GetHeader, data, count));
      for i := 0 to count
        invariant GetEach(GetHeader, old(data), count) == Prepend(result, GetEach(GetHeader, data, count - i))
      {
        ghost var before := data;
        var header :- ReadHeader();
        PrependNext(result, GetHeader, before, count - i);
        result := result + [header];
      }
      assert result + [] == result;
      r := Ok(result);
    }
  }

  method DecodeHeaders(data: Bytes) returns (r: Result<seq<Header>, ParseError>)
    ensures r == Decoded(data)
  {
    var reader := new HeaderReader(data);
    var count :- reader.ReadInt();
    if count < 0 || count > |reader.data| / 8 + 1 { return Err(BadCount); }
    var result :- reader.ReadAll(count);
    if |reader.data| != 0 { return Err(TrailingBytes); }
    r := Ok(result);
  }

  // --------------------------------------------------------------- bijection

  lemma {:induction false} GetPutInt32(n: nat, rest: Bytes)
    requires n < TWO_32
    ensures GetInt32(PutUint(n, 4) + rest) == Done(AsInt32(n), rest)
  {
    BaseValues();
    ReadPutUint(n, 4, rest);
  }

  lemma {:induction false} GetInt32Inverse(data: Bytes)
    requires GetInt32(data).Done?
    ensures data == PutUint(Low32(GetInt32(data).value), 4) + GetInt32(data).rest
  {
    BaseValues();
    ReadUintInverse(data, 4);
  }

  lemma {:induction false} SmallLow32(n: nat)
    ensures n <= MAX_INT32 ==> Low32(n) == n
    ensures Low32(-1) == NULL_SIZE
  {
  }

  lemma {:induction false} GetSizeInverse(data: Bytes, size: nat, rest: Bytes)
    requires GetInt32(data) == Done(size, rest)
    ensures data == PutUint(size, 4) + rest
  {
    GetInt32Inverse(data);
    SmallLow32(size);
  }

  lemma {:induction false} GetNullInverse(data: Bytes, rest: Bytes)
    requires GetInt32(data) == Done(-1, rest)
    ensures data == PutUint(NULL_SIZE, 4) + rest
  {
    GetInt32Inverse(data);
    SmallLow32(0);
  }

  lemma {:induction false} GetPutBytes(value: Bytes, rest: Bytes)
    requires |value| + |rest| <= MAX_INT32
    ensures GetBytes(value + rest, |value|) == Done(value, rest)
  {
    assert (value + rest)[..|value|] == value && (value + rest)[|value|..] == rest;
  }

  lemma {:induction false} GetPutValue(value: Option<Bytes>, rest: Bytes)
    requires |PutValue(value)| + |rest| <= MAX_INT32
    ensures GetValue(PutValue(value) + rest) == Done(value, rest)
  {
    match value {
      case None => GetPutInt32(NULL_SIZE, rest);
      case Some(v) =>
        assert PutSlice(v) + rest == PutUint(|v|, 4) + (v + rest);
        GetPutInt32(|v|, v + rest);
        GetPutBytes(v, rest);
    }
  }

  lemma {:induction false} GetPutHeader(header: Header, rest: Bytes)
    requires |PutHeader(header)| + |rest| <= MAX_INT32
    ensures GetHeader(PutHeader(header) + rest) == Done(header, rest)
  {
    var key := header.key;
    var tail := PutValue(header.value);
    assert PutHeader(header) + rest == PutUint(|key|, 4) + (key + (tail + rest));
    GetPutInt32(|key|, key + (tail + rest));
    GetPutBytes(key, tail + rest);
    GetPutValue(header.value, rest);
  }

  /** Every header list comes back, absent values apart from empty ones. A column
      cell has fewer than 2^31 bytes. */
  lemma {:induction false} DecodeEncode(headers: seq<Header>)
    requires |Encoded(headers)| <= MAX_INT32
    ensures Decoded(Encoded(headers)) == Ok(headers)
  {
    var all := PutEach(PutHeader, headers);
    AtLeastEight(headers);
    GetPutInt32(|headers|, all);
    assert all + [] == all;
    forall i | 0 <= i < |headers| ensures ReadsBack(PutHeader, GetHeader, headers[i], MAX_INT32) {
      HeaderReadsBack(headers[i]);
    }
    GetPutEach(PutHeader, GetHeader, headers, [], MAX_INT32);
  }

  lemma {:induction false} HeaderReadsBack(header: Header)
    ensures ReadsBack(PutHeader, GetHeader, header, MAX_INT32)
  {
    forall rest: Bytes | |PutHeader(header)| + |rest| <= MAX_INT32
      ensures GetHeader(PutHeader(header) + rest) == Done(header, rest)
    {
      GetPutHeader(header, rest);
    }
  }

  lemma {:induction false} AtLeastEight(headers: seq<Header>)
    ensures |PutEach(PutHeader, headers)| >= 8 * |headers|
  {
    if headers != [] { AtLeastEight(headers[..|headers| - 1]); }
  }

  lemma {:induction false} GetValueInverse(data: Bytes)
    requires GetValue(data).Done?
    ensures data == PutValue(GetValue(data).value) + GetValue(data).rest
  {
    var (length, rest) := (GetInt32(data).value, GetInt32(data).rest);
    if length == -1 {
      GetNullInverse(data, rest);
    } else {
      GetSizeInverse(data, length, rest);
      JoinSlice(rest[..length], rest[length..]);
      assert rest == rest[..length] + rest[length..];
    }
  }

  lemma {:induction false} JoinSlice(value: Bytes, rest: Bytes)
    ensures PutUint(|value|, 4) + (value + rest) == PutSlice(value) + rest
  {
  }

  /** The three reads of one header. */
  lemma {:induction false} HeaderParts(data: Bytes) returns (key: Bytes, mid: Bytes)
    requires GetHeader(data).Done?
    ensures GetInt32(data) == Done(|key|, key + mid)
    ensures GetValue(mid) == Done(GetHeader(data).value.value, GetHeader(data).rest) && GetHeader(data).value.key == key
  {
    var (length, rest) := (GetInt32(data).value, GetInt32(data).rest);
    key, mid := rest[..length], rest[length..];
    assert rest == key + mid;
  }

  lemma {:induction false} GetHeaderInverse(data: Bytes)
    requires GetHeader(data).Done?
    ensures data == PutHeader(GetHeader(data).value) + GetHeader(data).rest
  {
    var key, mid := HeaderParts(data);
    GetSizeInverse(data, |key|, key + mid);
    GetValueInverse(mid);
    Join(key, GetHeader(data).value.value, GetHeader(data).rest);
  }

  lemma {:induction false} Join(key: Bytes, value: Option<Bytes>, rest: Bytes)
    ensures PutUint(|key|, 4) + (key + (PutValue(value) + rest)) == PutHeader(Header(key, value)) + rest
  {
    var size := PutUint(|key|, 4);
    assert size + (key + (PutValue(value) + rest)) == size + key + PutValue(value) + rest;
  }

  lemma {:induction false} DecodedParts(data: Bytes) returns (count: nat, rest: Bytes)
    requires Decoded(data).Ok?
    ensures GetInt32(data) == Done(count, rest)
    ensures GetEach(GetHeader, rest, count) == Done(Decoded(data).value, [])
  {
    count, rest := GetInt32(data).value, GetInt32(data).rest;
  }

  /** And the decoder accepts nothing but encodings: bytes it accepts, of whatever
      length, encode to themselves. */
  lemma {:induction false} EncodeDecode(data: Bytes)
    requires Decoded(data).Ok?
    ensures Encoded(Decoded(data).value) == data
  {
    var count, rest := DecodedParts(data);
    GetSizeInverse(data, count, rest);
    forall bytes: Bytes | GetHeader(bytes).Done?
      ensures bytes == PutHeader(GetHeader(bytes).value) + GetHeader(bytes).rest
    {
      GetHeaderInverse(bytes);
    }
    GetEachInverse(PutHeader, GetHeader, rest, count);
    assert PutEach(PutHeader, Decoded(data).value) + [] == PutEach(PutHeader, Decoded(data).value);
  }
}
