/** The reader that takes values off the front of a snapshot. */
module ValueReaders {
  import opened Wrappers
  import opened Machine
  import opened ByteCodec
  import opened ValueCodec
  import Decimal

  /** A call that parsed `p` returned `r` and left `rest` in the reader. */
  predicate Reads<T(==)>(r: Result<T, ParseError>, p: Parse<T>, rest: Bytes) {
    match p
    case Done(value, tail) => r == Ok(value) && rest == tail
    case Failed(error) => r == Err(error)
  }

  /** What reading the members still missing adds to the ones already read. */
  function Prepend(items: seq<Value>, p: Parse<seq<Value>>): Parse<seq<Value>> {
    match p
    case Done(more, rest) => Done(items + more, rest)
    case Failed(error) => Failed(error)
  }

  lemma {:induction false} PrependEmpty(p: Parse<seq<Value>>)
    ensures Prepend([], p) == p
  {
    assert p.Done? ==> [] + p.value == p.value;
  }

  lemma {:induction false} PrependNext(items: seq<Value>, data: Bytes, count: nat)
    requires count > 0 && DecodeValue(data).Done?
    ensures var next := DecodeValue(data);
            Prepend(items, DecodeItems(data, count))
            == Prepend(items + [next.value], DecodeItems(next.rest, count - 1))
  {
    var next := DecodeValue(data);
    var more := DecodeItems(next.rest, count - 1);
    if more.Done? {
      assert items + [next.value] + more.value == items + ([next.value] + more.value);
    }
  }

  class ValueReader {
    var data: Bytes

    constructor (snapshot: Bytes)
      ensures data == snapshot
    {
      data := snapshot;
    }

    method Uint(width: nat) returns (r: Result<nat, ParseError>)
      modifies this
      ensures Reads(r, ReadUint(old(data), width), data)
    {
      if |data| < width { return Err(Truncated); }
      r := Ok(GetUint(data[..width]));
      data := data[width..];
    }

    method Int64() returns (r: Result<Int64, ParseError>)
      modifies this
      ensures Reads(r, ReadInt64(old(data)), data)
    {
      var u :- Uint(8);
      PutGet(old(data)[..8]);
      BaseValues();
      r := Ok(AsSigned(u));
    }

    method Sized() returns (r: Result<Bytes, ParseError>)
      modifies this
      ensures Reads(r, ReadSized(old(data)), data)
    {
      var length :- Uint(4);
      if |data| % TWO_32 < length { return Err(Truncated); }
      r := Ok(data[..length]);
      data := data[length..];
    }

    method Scalar(tag: Byte) returns (r: Result<Value, ParseError>)
      modifies this
      ensures Reads(r, DecodeScalar(tag, old(data)), data)
    {
      if tag == TAG_NULL { return Ok(Null); }
      if tag == TAG_TRUE { return Ok(Bool(true)); }
      if tag == TAG_FALSE { return Ok(Bool(false)); }
      if tag == TAG_TEXT {
        var text :- Sized();
        return Ok(Text(text));
      }
      if tag == TAG_BINARY {
        var bytes :- Sized();
        return Ok(Binary(bytes));
      }
      if tag == TAG_INT {
        var n :- Int64();
        return Ok(Long(n));
      }
      if tag == TAG_UNSIGNED {
        var u :- Uint(8);
        return Ok(Unsigned64(u));
      }
      if tag == TAG_FLOAT32 {
        var wide :- Uint(8);
        return Ok(Float32(wide));
      }
      if tag == TAG_FLOAT64 {
        var bits :- Uint(8);
        return Ok(Float64(bits));
      }
      if tag == TAG_BIG_INT {
        var text :- Sized();
        match Decimal.ParseInt(text)
        case Some(n) => return Ok(BigInt(n));
        case None => return Err(BadInteger);
      }
      if tag == TAG_BIG_RAT {
        var text :- Sized();
        match Decimal.ParseRat(text)
        case Some((num, den)) => return Ok(BigRat(num, den));
        case None => return Err(BadRational);
      }
      return Err(UnknownTag);
    }

    method Value() returns (r: Result<Value, ParseError>)
      modifies this
      ensures Reads(r, DecodeValue(old(data)), data)
      decreases |data|, 0
    {
      if |data| < 1 { return Err(Truncated); }
      var tag := data[0];
      data := data[1..];
      if tag == TAG_LIST {
        var count :- Uint(4);
        var items :- Values(count);
        return Ok(List(items));
      }
      if tag == TAG_DICT {
        var count :- Uint(4);
        var entries :- Entries(count);
        return Ok(Dict(entries));
      }
      r := Scalar(tag);
    }

    method Values(count: nat) returns (r: Result<seq<Value>, ParseError>)
      modifies this
      ensures Reads(r, DecodeItems(old(data), count), data)
      decreases |data|, 1
    {
      var items: seq<Value> := [];
      var read := 0;
      PrependEmpty(DecodeItems(data, count));
      while read < count
        invariant read <= count && |data| <= |old(data)|
        invariant DecodeItems(old(data), count) == Prepend(items, DecodeItems(data, count - read))
      {
        ghost var before := data;
        var item :- Value();
        PrependNext(items, before, count - read);
        items := items + [item];
        read := read + 1;
      }
      assert items + [] == items;
      r := Ok(items);
    }

    method Entries(count: nat) returns (r: Result<seq<Entry>, ParseError>)
      modifies this
      ensures Reads(r, DecodeEntries(old(data), count, []), data)
      decreases |data|, 1
    {
      var entries: seq<Entry> := [];
      var read := 0;
      while read < count
        invariant read <= count && |data| <= |old(data)|
        invariant DecodeEntries(old(data), count, []) == DecodeEntries(data, count - read, entries)
      {
        var key :- Sized();
        var value :- Value();
        entries := Insert(entries, key, value);
        read := read + 1;
      }
      r := Ok(entries);
    }
  }
}
