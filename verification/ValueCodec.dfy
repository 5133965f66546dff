/** The tagged binary encoding of group keys, aggregates and snapshots. */
module ValueCodec {
  import opened Wrappers
  import opened Machine
  import opened ByteCodec
  import opened Decimal
  import opened Sequences

  /** The sized integer types that share the tag of a signed 64-bit integer. */
  datatype IntKind = Int8 | Int16 | Int32 | Int64Kind | Uint8 | Uint16 | Uint32

  predicate InRange(kind: IntKind, n: int) {
    match kind
    case Int8 => -0x80 <= n < 0x80
    case Int16 => -0x8000 <= n < 0x8000
    case Int32 => -0x8000_0000 <= n < 0x8000_0000
    case Int64Kind => InInt64(n)
    case Uint8 => 0 <= n < 0x100
    case Uint16 => 0 <= n < 0x1_0000
    case Uint32 => 0 <= n < TWO_32
  }

  /** A dynamically typed value. Text is its bytes, a float is the bit pattern
      of its 64-bit form, and a map is its entries in ascending key order. */
  datatype Value =
    | Null
    | Bool(flag: bool)
    | Text(text: Bytes)
    | Binary(data: Bytes)
    | Sized(kind: IntKind, n: int)
    | Unsigned64(u: nat)
    | Float32(wide: nat)
    | Float64(bits: nat)
    | BigInt(big: int)
    | BigRat(num: int, den: int)
    | List(items: seq<Value>)
    | Dict(entries: seq<Entry>)

  datatype Entry = Entry(key: Bytes, value: Value)

  function Long(n: Int64): Value { Sized(Int64Kind, n) }

  predicate Ascending(entries: seq<Entry>) {
    forall i, j :: 0 <= i < j < |entries| ==> Less(entries[i].key, entries[j].key)
  }

  predicate WellFormed(v: Value) {
    match v
    case Sized(kind, n) => InRange(kind, n)
    case Unsigned64(u) => u < TWO_64
    case Float32(wide) => wide < TWO_64
    case Float64(bits) => bits < TWO_64
    case BigRat(num, den) => LowestTerms(num, den)
    case List(items) => forall i | 0 <= i < |items| :: WellFormed(items[i])
    case Dict(entries) => Ascending(entries) && forall i | 0 <= i < |entries| :: WellFormed(entries[i].value)
    case _ => true
  }

  predicate AllWellFormed(vs: seq<Value>) { forall i :: 0 <= i < |vs| ==> WellFormed(vs[i]) }

  const TAG_NULL: Byte := 110
  const TAG_TRUE: Byte := 116
  const TAG_FALSE: Byte := 70
  const TAG_TEXT: Byte := 115
  const TAG_BINARY: Byte := 98
  const TAG_INT: Byte := 105
  const TAG_UNSIGNED: Byte := 117
  const TAG_FLOAT32: Byte := 103
  const TAG_FLOAT64: Byte := 102
  const TAG_BIG_INT: Byte := 73
  const TAG_BIG_RAT: Byte := 82
  const TAG_LIST: Byte := 76
  const TAG_DICT: Byte := 77

  function EncodeValue(v: Value): (bytes: Bytes)
    ensures |bytes| >= 1
    decreases v, 0
  {
    match v
    case Null => [TAG_NULL]
    case Bool(flag) => [if flag then TAG_TRUE else TAG_FALSE]
    case Text(text) => [TAG_TEXT] + PutSized(text)
    case Binary(data) => [TAG_BINARY] + PutSized(data)
    case Sized(_, n) => [TAG_INT] + PutInt64(Wrap(n))
    case Unsigned64(u) => [TAG_UNSIGNED] + PutUint(u, 8)
    case Float32(wide) => [TAG_FLOAT32] + PutUint(wide, 8)
    case Float64(bits) => [TAG_FLOAT64] + PutUint(bits, 8)
    case BigInt(n) => [TAG_BIG_INT] + PutSized(IntText(n))
    case BigRat(num, den) => [TAG_BIG_RAT] + PutSized(RatText(num, den))
    case List(items) => [TAG_LIST] + PutUint(|items|, 4) + EncodeKeyParts(items)
    case Dict(entries) => [TAG_DICT] + PutUint(|entries|, 4) + EncodeEntries(entries)
  }

  /** The parts of a group key one after the other, with no count in front. */
  function EncodeKeyParts(parts: seq<Value>): (bytes: Bytes)
    ensures |parts| <= |bytes|
    decreases parts, 1
  {
    if parts == [] then [] else EncodeValue(parts[0]) + EncodeKeyParts(parts[1..])
  }

  function EncodeEntries(entries: seq<Entry>): (bytes: Bytes)
    ensures |entries| <= |bytes|
    decreases entries, 1
  {
    if entries == [] then []
    else PutSized(entries[0].key) + EncodeValue(entries[0].value) + EncodeEntries(entries[1..])
  }

  /** What a value reads back as: sized integers come back as 64-bit ones. */
  function Normalise(v: Value): Value
    decreases v, 0
  {
    match v
    case Sized(_, n) => Sized(Int64Kind, n)
    case List(items) => List(NormaliseAll(items))
    case Dict(entries) => Dict(NormaliseEntries(entries))
    case _ => v
  }

  function NormaliseAll(vs: seq<Value>): (r: seq<Value>)
    ensures |r| == |vs| && forall i :: 0 <= i < |r| ==> r[i] == Normalise(vs[i])
    decreases vs, 1
  {
    if vs == [] then [] else [Normalise(vs[0])] + NormaliseAll(vs[1..])
  }

  function NormaliseEntries(entries: seq<Entry>): (r: seq<Entry>)
    ensures |r| == |entries|
    ensures forall i :: 0 <= i < |r| ==> r[i] == Entry(entries[i].key, Normalise(entries[i].value))
    decreases entries, 1
  {
    if entries == [] then []
    else [Entry(entries[0].key, Normalise(entries[0].value))] + NormaliseEntries(entries[1..])
  }

  /** Equal but for the width of sized integers, at any depth. */
  predicate SameUpToWidth(u: Value, v: Value)
    decreases u
  {
    match (u, v)
    case (Sized(_, n), Sized(_, m)) => n == m
    case (List(us), List(vs)) => |us| == |vs| && forall i :: 0 <= i < |us| ==> SameUpToWidth(us[i], vs[i])
    case (Dict(us), Dict(vs)) =>
      |us| == |vs| && forall i :: 0 <= i < |us| ==> us[i].key == vs[i].key && SameUpToWidth(us[i].value, vs[i].value)
    case _ => u == v
  }

  /** Values normalise alike if and only if they differ in the width of integers alone. */
  lemma {:induction false} NormaliseForgetsWidth(u: Value, v: Value)
    ensures Normalise(u) == Normalise(v) <==> SameUpToWidth(u, v)
    decreases u
  {
    match (u, v) {
      case (List(us), List(vs)) =>
        if |us| == |vs| {
          forall i | 0 <= i < |us| ensures NormaliseAll(us)[i] == NormaliseAll(vs)[i] <==> SameUpToWidth(us[i], vs[i]) {
            NormaliseForgetsWidth(us[i], vs[i]);
          }
        }
      case (Dict(us), Dict(vs)) =>
        if |us| == |vs| {
          forall i | 0 <= i < |us|
            ensures NormaliseEntries(us)[i] == NormaliseEntries(vs)[i] <==> us[i].key == vs[i].key && SameUpToWidth(us[i].value, vs[i].value)
          {
            NormaliseForgetsWidth(us[i].value, vs[i].value);
          }
        }
      case _ =>
    }
  }

  lemma {:induction false} NormaliseConcatenation(us: seq<Value>, vs: seq<Value>)
    ensures NormaliseAll(us + vs) == NormaliseAll(us) + NormaliseAll(vs)
  {
  }

  /** Assignment to a map, on the entries in ascending key order. */
  function Insert(entries: seq<Entry>, key: Bytes, value: Value): seq<Entry> {
    if entries == [] then [Entry(key, value)]
    else if entries[0].key == key then [Entry(key, value)] + entries[1..]
    else if Less(key, entries[0].key) then [Entry(key, value)] + entries
    else [entries[0]] + Insert(entries[1..], key, value)
  }

  /** The payload of a value that holds no other value. */
  function DecodeScalar(tag: Byte, body: Bytes): (r: Parse<Value>)
    ensures r.Done? ==> |r.rest| <= |body|
  {
    if tag == TAG_NULL then Done(Null, body)
    else if tag == TAG_TRUE then Done(Bool(true), body)
    else if tag == TAG_FALSE then Done(Bool(false), body)
    else if tag == TAG_TEXT then
      var (text, rest) :- ReadSized(body);
      Done(Text(text), rest)
    else if tag == TAG_BINARY then
      var (bytes, rest) :- ReadSized(body);
      Done(Binary(bytes), rest)
    else if tag == TAG_INT then
      var (n, rest) :- ReadInt64(body);
      Done(Long(n), rest)
    else if tag == TAG_UNSIGNED then
      var (u, rest) :- ReadUint(body, 8);
      Done(Unsigned64(u), rest)
    else if tag == TAG_FLOAT32 then
      var (wide, rest) :- ReadUint(body, 8);
      Done(Float32(wide), rest)
    else if tag == TAG_FLOAT64 then
      var (bits, rest) :- ReadUint(body, 8);
      Done(Float64(bits), rest)
    else if tag == TAG_BIG_INT then
      var (text, rest) :- ReadSized(body);
      match ParseInt(text)
      case Some(n) => Done(BigInt(n), rest)
      case None => Failed(BadInteger)
    else if tag == TAG_BIG_RAT then
      var (text, rest) :- ReadSized(body);
      match ParseRat(text)
      case Some((num, den)) => Done(BigRat(num, den), rest)
      case None => Failed(BadRational)
    else Failed(UnknownTag)
  }

  function DecodeValue(data: Bytes): (r: Parse<Value>)
    ensures r.Done? ==> |r.rest| < |data|
    decreases |data|, 0
  {
    if |data| == 0 then Failed(Truncated)
    else if data[0] == TAG_LIST then
      var (count, members) :- ReadUint(data[1..], 4);
      var (items, rest) :- DecodeItems(members, count);
      Done(List(items), rest)
    else if data[0] == TAG_DICT then
      var (count, members) :- ReadUint(data[1..], 4);
      var (entries, rest) :- DecodeEntries(members, count, []);
      Done(Dict(entries), rest)
    else DecodeScalar(data[0], data[1..])
  }

  function DecodeItems(data: Bytes, count: nat): (r: Parse<seq<Value>>)
    ensures r.Done? ==> |r.rest| <= |data|
    decreases |data|, 1
  {
    if count == 0 then Done([], data)
    else
      var (first, rest) :- DecodeValue(data);
      var (others, rest') :- DecodeItems(rest, count - 1);
      Done([first] + others, rest')
  }

  function DecodeEntries(data: Bytes, count: nat, entries: seq<Entry>): (r: Parse<seq<Entry>>)
    ensures r.Done? ==> |r.rest| <= |data|
    decreases |data|, 1
  {
    if count == 0 then Done(entries, data)
    else
      var (key, rest) :- ReadSized(data);
      var (value, rest') :- DecodeValue(rest);
      DecodeEntries(rest', count - 1, Insert(entries, key, value))
  }

  predicate Below(before: seq<Entry>, after: seq<Entry>) {
    forall i, j :: 0 <= i < |before| && 0 <= j < |after| ==> Less(before[i].key, after[j].key)
  }

  lemma {:induction false} BelowNext(before: seq<Entry>, after: seq<Entry>, value: Value)
    requires Below(before, after) && Ascending(after) && after != []
    ensures forall i :: 0 <= i < |before| ==> Less(before[i].key, after[0].key)
    ensures Below(before + [Entry(after[0].key, value)], after[1..]) && Ascending(after[1..])
  {
  }

  lemma {:induction false} InsertLast(entries: seq<Entry>, key: Bytes, value: Value)
    requires forall i :: 0 <= i < |entries| ==> Less(entries[i].key, key)
    ensures Insert(entries, key, value) == entries + [Entry(key, value)]
  {
    if entries != [] {
      LessAsymmetric(entries[0].key, key);
      InsertLast(entries[1..], key, value);
    }
  }

  /** The reader for the tag of a scalar undoes its writer. */
  lemma {:induction false} DecodeEncodeScalar(v: Value, rest: Bytes)
    requires WellFormed(v) && !v.List? && !v.Dict? && |EncodeValue(v)| + |rest| < TWO_32
    ensures EncodeValue(v)[0] != TAG_LIST && EncodeValue(v)[0] != TAG_DICT
    ensures DecodeScalar(EncodeValue(v)[0], EncodeValue(v)[1..] + rest) == Done(Normalise(v), rest)
  {
    var payload := EncodeValue(v)[1..];
    BaseValues();
    match v {
      case Null => assert payload + rest == rest;
      case Bool(_) => assert payload + rest == rest;
      case Text(text) => assert payload == PutSized(text); ReadPutSized(text, rest);
      case Binary(bytes) => assert payload == PutSized(bytes); ReadPutSized(bytes, rest);
      case Sized(_, n) => assert payload == PutInt64(n); ReadPutInt64(n, rest);
      case Unsigned64(u) => assert payload == PutUint(u, 8); ReadPutUint(u, 8, rest);
      case Float32(wide) => assert payload == PutUint(wide, 8); ReadPutUint(wide, 8, rest);
      case Float64(bits) => assert payload == PutUint(bits, 8); ReadPutUint(bits, 8, rest);
      case BigInt(n) =>
        assert payload == PutSized(IntText(n));
        ReadPutSized(IntText(n), rest);
        ParseIntText(n);
      case BigRat(num, den) =>
        assert payload == PutSized(RatText(num, den));
        ReadPutSized(RatText(num, den), rest);
        ParseRatText(num, den);
    }
  }

  lemma {:induction false} DecodeScalarStep(tag: Byte, body: Bytes)
    requires tag != TAG_LIST && tag != TAG_DICT
    ensures DecodeValue([tag] + body) == DecodeScalar(tag, body)
  {
    assert ([tag] + body)[1..] == body;
  }

  lemma {:induction false} DecodeListStep(count: nat, members: Bytes)
    requires count < TWO_32 && DecodeItems(members, count).Done?
    ensures DecodeValue([TAG_LIST] + PutUint(count, 4) + members)
            == Done(List(DecodeItems(members, count).value), DecodeItems(members, count).rest)
  {
    BaseValues();
    ReadPutUint(count, 4, members);
    assert ([TAG_LIST] + PutUint(count, 4) + members)[1..] == PutUint(count, 4) + members;
  }

  lemma {:induction false} DecodeDictBody(count: nat, members: Bytes, body: Bytes)
    requires |body| > 0 && body[0] == TAG_DICT && TAG_DICT != TAG_LIST
    requires ReadUint(body[1..], 4) == Done(count, members) && DecodeEntries(members, count, []).Done?
    ensures DecodeValue(body) == Done(Dict(DecodeEntries(members, count, []).value), DecodeEntries(members, count, []).rest)
  {
  }

  lemma {:induction false} DecodeDictStep(count: nat, members: Bytes)
    requires count < TWO_32 && DecodeEntries(members, count, []).Done?
    ensures DecodeValue([TAG_DICT] + PutUint(count, 4) + members)
            == Done(Dict(DecodeEntries(members, count, []).value), DecodeEntries(members, count, []).rest)
  {
    BaseValues();
    ReadPutUint(count, 4, members);
    assert ([TAG_DICT] + PutUint(count, 4) + members)[1..] == PutUint(count, 4) + members;
    DecodeDictBody(count, members, [TAG_DICT] + PutUint(count, 4) + members);
  }

  lemma {:induction false} DecodeEntryStep(key: Bytes, data: Bytes, count: nat, entries: seq<Entry>)
    requires |key| + |data| < TWO_32 && DecodeValue(data).Done?
    ensures DecodeEntries(PutSized(key) + data, count + 1, entries)
            == DecodeEntries(DecodeValue(data).rest, count, Insert(entries, key, DecodeValue(data).value))
  {
    ReadPutSized(key, data);
  }

  /** Self-delimiting: whatever bytes follow an encoded value, decoding returns
      the normalised value and exactly those bytes. */
  lemma {:induction false} DecodeEncode(v: Value, rest: Bytes)
    requires WellFormed(v) && |EncodeValue(v)| + |rest| < TWO_32
    ensures DecodeValue(EncodeValue(v) + rest) == Done(Normalise(v), rest)
    decreases v, 1
  {
    match v {
      case List(items) => DecodeEncodeList(items, rest);
      case Dict(entries) => DecodeEncodeDict(entries, rest);
      case _ => DecodeEncodeLeaf(v, rest);
    }
  }

  lemma {:induction false} DecodeEncodeLeaf(v: Value, rest: Bytes)
    requires WellFormed(v) && !v.List? && !v.Dict? && |EncodeValue(v)| + |rest| < TWO_32
    ensures DecodeValue(EncodeValue(v) + rest) == Done(Normalise(v), rest)
  {
    DecodeEncodeScalar(v, rest);
    var tag, payload := EncodeValue(v)[0], EncodeValue(v)[1..];
    DecodeScalarStep(tag, payload + rest);
    assert EncodeValue(v) == [tag] + payload;
    Regroup([tag], payload, rest);
  }

  lemma {:induction false} DecodeEncodeList(items: seq<Value>, rest: Bytes)
    requires AllWellFormed(items) && 5 + |EncodeKeyParts(items)| + |rest| < TWO_32
    ensures DecodeValue(EncodeValue(List(items)) + rest) == Done(List(NormaliseAll(items)), rest)
    decreases items, 2
  {
    DecodeEncodeItems(items, rest);
    DecodeListStep(|items|, EncodeKeyParts(items) + rest);
    Regroup([TAG_LIST] + PutUint(|items|, 4), EncodeKeyParts(items), rest);
  }

  lemma {:induction false} DecodeEncodeDict(entries: seq<Entry>, rest: Bytes)
    requires WellFormed(Dict(entries)) && 5 + |EncodeEntries(entries)| + |rest| < TWO_32
    ensures DecodeValue(EncodeValue(Dict(entries)) + rest) == Done(Dict(NormaliseEntries(entries)), rest)
    decreases entries, 2
  {
    DecodeEncodeEntries([], entries, rest);
    EmptyPrefix(NormaliseEntries(entries));
    DecodeDictStep(|entries|, EncodeEntries(entries) + rest);
    Regroup([TAG_DICT] + PutUint(|entries|, 4), EncodeEntries(entries), rest);
  }

  lemma {:induction false} DecodeEncodeItems(items: seq<Value>, rest: Bytes)
    requires AllWellFormed(items) && |EncodeKeyParts(items)| + |rest| < TWO_32
    ensures DecodeItems(EncodeKeyParts(items) + rest, |items|) == Done(NormaliseAll(items), rest)
    decreases items, 1
  {
    if items == [] {
      assert EncodeKeyParts(items) + rest == rest;
    } else {
      var tail := EncodeKeyParts(items[1..]) + rest;
      assert EncodeKeyParts(items) + rest == EncodeValue(items[0]) + tail;
      DecodeEncode(items[0], tail);
      DecodeEncodeItems(items[1..], rest);
    }
  }

  lemma {:induction false} DecodeEncodeEntries(before: seq<Entry>, entries: seq<Entry>, rest: Bytes)
    requires Below(before, entries) && Ascending(entries)
    requires forall i | 0 <= i < |entries| :: WellFormed(entries[i].value)
    requires |EncodeEntries(entries)| + |rest| < TWO_32
    ensures DecodeEntries(EncodeEntries(entries) + rest, |entries|, before)
            == Done(before + NormaliseEntries(entries), rest)
    decreases entries, 1
  {
    if entries == [] {
      assert EncodeEntries(entries) + rest == rest && before + [] == before;
    } else {
      var Entry(key, value) := entries[0];
      var tail := EncodeEntries(entries[1..]) + rest;
      var data := EncodeValue(value) + tail;
      var next := before + [Entry(key, Normalise(value))];
      assert EncodeEntries(entries) + rest == PutSized(key) + data;
      BelowNext(before, entries, Normalise(value));
      DecodeEncode(value, tail);
      DecodeEntryStep(key, data, |entries[1..]|, before);
      InsertLast(before, key, Normalise(value));
      DecodeEncodeEntries(next, entries[1..], rest);
      Shift(before, Entry(key, Normalise(value)), NormaliseEntries(entries[1..]));
    }
  }

  lemma {:induction false} NormaliseKeepsForm(v: Value)
    ensures Normalise(Normalise(v)) == Normalise(v)
    ensures WellFormed(v) ==> WellFormed(Normalise(v))
    ensures EncodeValue(Normalise(v)) == EncodeValue(v)
    decreases v, 0
  {
    match v {
      case List(items) => NormaliseKeepsForms(items);
      case Dict(entries) => NormaliseKeepsEntries(entries);
      case _ =>
    }
  }

  lemma {:induction false} NormaliseKeepsForms(vs: seq<Value>)
    ensures NormaliseAll(NormaliseAll(vs)) == NormaliseAll(vs)
    ensures AllWellFormed(vs) ==> AllWellFormed(NormaliseAll(vs))
    ensures EncodeKeyParts(NormaliseAll(vs)) == EncodeKeyParts(vs)
    decreases vs, 1
  {
    if vs != [] {
      NormaliseKeepsForm(vs[0]);
      NormaliseKeepsForms(vs[1..]);
      assert NormaliseAll(vs)[1..] == NormaliseAll(vs[1..]);
    }
  }

  lemma {:induction false} NormaliseKeepsEntries(entries: seq<Entry>)
    ensures (forall i | 0 <= i < |entries| :: WellFormed(entries[i].value)) ==>
              forall i | 0 <= i < |entries| :: WellFormed(NormaliseEntries(entries)[i].value)
    ensures NormaliseEntries(NormaliseEntries(entries)) == NormaliseEntries(entries)
    ensures EncodeEntries(NormaliseEntries(entries)) == EncodeEntries(entries)
    decreases entries, 1
  {
    if entries != [] {
      NormaliseKeepsForm(entries[0].value);
      NormaliseKeepsEntries(entries[1..]);
      assert NormaliseEntries(entries)[1..] == NormaliseEntries(entries[1..]);
    }
  }

  /** Two values have the same bytes exactly when they normalise alike. */
  lemma {:induction false} EncodeInjective(u: Value, v: Value)
    requires WellFormed(u) && WellFormed(v) && |EncodeValue(u)| < TWO_32
    ensures EncodeValue(u) == EncodeValue(v) <==> Normalise(u) == Normalise(v)
  {
    if EncodeValue(u) == EncodeValue(v) {
      DecodeEncode(u, []);
      DecodeEncode(v, []);
    } else {
      NormaliseKeepsForm(u);
      NormaliseKeepsForm(v);
    }
  }

  /** Keys of any lengths collide exactly when their parts normalise alike,
      although no count and no separator is written. */
  lemma {:induction false} KeyInjective(ps: seq<Value>, qs: seq<Value>)
    requires AllWellFormed(ps) && AllWellFormed(qs) && |EncodeKeyParts(ps)| < TWO_32
    ensures EncodeKeyParts(ps) == EncodeKeyParts(qs) <==> NormaliseAll(ps) == NormaliseAll(qs)
  {
    if EncodeKeyParts(ps) == EncodeKeyParts(qs) {
      if ps != [] && qs != [] {
        DecodeEncode(ps[0], EncodeKeyParts(ps[1..]));
        DecodeEncode(qs[0], EncodeKeyParts(qs[1..]));
        KeyInjective(ps[1..], qs[1..]);
        assert NormaliseAll(ps) == [Normalise(ps[0])] + NormaliseAll(ps[1..]);
      }
    } else {
      NormaliseKeepsForms(ps);
      NormaliseKeepsForms(qs);
    }
  }
}
