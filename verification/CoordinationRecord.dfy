/** The keys and values of the coordination topic: a strict codec, and the order of
    fencing tokens. */
module CoordinationRecords {
  import opened Wrappers
  import opened Machine
  import opened ByteCodec
  import opened Sequences
  import Utf8

  const MAX_NAME: nat := 249
  const RECORD_VERSION: int := 0

  type Name = Bytes

  type Int16 = n: int | -0x8000 <= n < 0x8000

  datatype Kind = Registering | Leasing

  /** The quorum-minted proof of a claim. */
  datatype Token = Token(producerId: Int64, producerEpoch: Int16) {
    predicate Minted() { producerId >= 0 && producerEpoch >= 0 }
  }

  const NO_EPOCH := Token(-1, -1)

  /** A lease key names no member. */
  datatype Key = Key(kind: Kind, role: Bytes, member: Bytes)

  datatype Registration = Registration(member: Bytes, registeredAt: Int64)

  datatype Lease = Lease(member: Bytes, token: Token, grantedAt: Int64, deadline: Int64)

  /** What the constructors of a role and of a member accept. */
  predicate IsName(name: Bytes) { 0 < |name| <= MAX_NAME }

  // ------------------------------------------------------------- token order

  function CompareInts(a: int, b: int): int { if a < b then -1 else if a == b then 0 else 1 }

  /** The producer id first, and the epoch only for equal ids. */
  function Compare(a: Token, b: Token): int {
    var order := CompareInts(a.producerId, b.producerId);
    if order != 0 then order else CompareInts(a.producerEpoch, b.producerEpoch)
  }

  predicate Supersedes(a: Token, b: Token) { Compare(a, b) > 0 }

  /** A strict total order, in which every minted token is above the token of a
      role that was never taken. */
  lemma {:induction false} SupersedesIsTotalOrder(a: Token, b: Token, c: Token)
    ensures Compare(a, b) == 0 <==> a == b
    ensures Supersedes(a, b) <==> Compare(b, a) < 0
    ensures Supersedes(a, b) && Supersedes(b, c) ==> Supersedes(a, c)
    ensures a == b || Supersedes(a, b) || Supersedes(b, a)
    ensures a.Minted() ==> Supersedes(a, NO_EPOCH)
  {
  }

  /** When the epoch wraps, a new producer id with epoch zero still supersedes; an
      order by epoch alone would get it wrong. */
  lemma {:induction false} FreshProducerSupersedes(a: Token, b: Token)
    requires a.producerId > b.producerId
    ensures Supersedes(a, b)
    ensures a.producerEpoch < b.producerEpoch ==> CompareInts(a.producerEpoch, b.producerEpoch) < 0
  {
  }

  // --------------------------------------------------------------- primitives

  function PutInt16(n: Int16): (bytes: Bytes)
    ensures |bytes| == 2
  {
    PutUint(if n < 0 then n + 0x1_0000 else n, 2)
  }

  function ReadInt16(data: Bytes): (r: Parse<Int16>)
    ensures r.Done? ==> |data| == 2 + |r.rest|
  {
    var (u, rest) :- ReadUint(data, 2);
    PutGet(data[..2]);
    BaseValues();
    Done(if u < 0x8000 then u else u - 0x1_0000, rest)
  }

  lemma {:induction false} ReadPutInt16(n: Int16, rest: Bytes)
    ensures ReadInt16(PutInt16(n) + rest) == Done(n, rest)
  {
    BaseValues();
    ReadPutUint(if n < 0 then n + 0x1_0000 else n, 2, rest);
  }

  lemma {:induction false} ReadInt16Inverse(data: Bytes)
    requires ReadInt16(data).Done?
    ensures data == PutInt16(ReadInt16(data).value) + ReadInt16(data).rest
  {
    BaseValues();
    ReadUintInverse(data, 2);
  }

  /** The length wraps like a conversion to a 16-bit integer. */
  function PutString(text: Bytes): Bytes {
    PutInt16((|text| + 0x8000) % 0x1_0000 - 0x8000) + text
  }

  function ReadString(data: Bytes): (r: Parse<Bytes>)
    ensures r.Done? ==> |data| == 2 + |r.value| + |r.rest|
  {
    var (length, rest) :- ReadInt16(data);
    if length < 0 then Failed(BadLength)
    else if |rest| < length then Failed(Truncated)
    else if !Utf8.Valid(rest[..length]) then Failed(BadUtf8)
    else Done(rest[..length], rest[length..])
  }

  lemma {:induction false} ReadPutString(text: Bytes, rest: Bytes)
    requires |text| < 0x8000
    ensures ReadString(PutString(text) + rest) == if Utf8.Valid(text) then Done(text, rest) else Failed(BadUtf8)
  {
    Regroup(PutInt16(|text|), text, rest);
    ReadPutInt16(|text|, text + rest);
    assert (text + rest)[..|text|] == text && (text + rest)[|text|..] == rest;
  }

  lemma {:induction false} ReadStringInverse(data: Bytes)
    requires ReadString(data).Done?
    ensures data == PutString(ReadString(data).value) + ReadString(data).rest
    ensures Utf8.Valid(ReadString(data).value)
  {
    ReadInt16Inverse(data);
    var length, rest := ReadInt16(data).value, ReadInt16(data).rest;
    assert rest == rest[..length] + rest[length..];
    Regroup(PutInt16(length), rest[..length], rest[length..]);
  }

  function ReadVersion(data: Bytes): (r: Parse<()>)
    ensures r.Done? ==> |data| == 2 + |r.rest|
  {
    var (version, rest) :- ReadInt16(data);
    if version != RECORD_VERSION then Failed(BadVersion) else Done((), rest)
  }

  lemma {:induction false} ReadPutVersion(rest: Bytes)
    ensures ReadVersion(PutInt16(RECORD_VERSION) + rest) == Done((), rest)
  {
    ReadPutInt16(RECORD_VERSION, rest);
  }

  lemma {:induction false} ReadVersionInverse(data: Bytes)
    requires ReadVersion(data).Done?
    ensures data == PutInt16(RECORD_VERSION) + ReadVersion(data).rest
  {
    ReadInt16Inverse(data);
  }

  // --------------------------------------------------------------------- keys

  function KindCode(kind: Kind): Int16 { if kind == Registering then 0 else 1 }

  function EncodeKey(key: Key): Bytes {
    PutInt16(RECORD_VERSION) + (PutInt16(KindCode(key.kind))
    + (PutString(key.role) + PutString(if key.kind == Registering then key.member else [])))
  }

  /** The kind and the two names, before the names are checked. */
  function ReadKeyParts(data: Bytes): Parse<(Int16, Bytes, Bytes)> {
    var (_, rest) :- ReadVersion(data);
    var (code, rest') :- ReadInt16(rest);
    if code != 0 && code != 1 then Failed(BadKind)
    else
      var (role, rest'') :- ReadString(rest');
      var (member, rest''') :- ReadString(rest'');
      Done((code, role, member), rest''')
  }

  function DecodeKey(data: Bytes): Result<Key, ParseError> {
    match ReadKeyParts(data)
    case Failed(error) => Err(error)
    case Done((code, role, member), rest) =>
      if rest != [] then Err(TrailingBytes)
      else if !IsName(role) then Err(BadName)
      else if code == 1 then
        if member != [] then Err(BadName) else Ok(Key(Leasing, role, []))
      else if !IsName(member) then Err(BadName)
      else Ok(Key(Registering, role, member))
  }

  /** The keys that the package builds. */
  predicate IsKey(key: Key) {
    IsName(key.role) && if key.kind == Registering then IsName(key.member) else key.member == []
  }

  lemma {:induction false} ReadPutKeyParts(key: Key)
    requires IsKey(key) && Utf8.Valid(key.role) && Utf8.Valid(key.member)
    ensures ReadKeyParts(EncodeKey(key)) == Done((KindCode(key.kind), key.role, key.member), [])
  {
    var code, role, member := PutInt16(KindCode(key.kind)), PutString(key.role), PutString(key.member);
    ReadPutVersion(code + (role + member));
    ReadPutInt16(KindCode(key.kind), role + member);
    ReadPutString(key.role, member);
    assert member + [] == member;
    ReadPutString(key.member, []);
  }

  /** Decoding a key gives it back exactly when its names are well-formed UTF-8. */
  lemma {:induction false} DecodeEncodeKey(key: Key)
    requires IsKey(key)
    ensures DecodeKey(EncodeKey(key)) == Ok(key) <==> Utf8.Valid(key.role) && Utf8.Valid(key.member)
  {
    if Utf8.Valid(key.role) && Utf8.Valid(key.member) {
      ReadPutKeyParts(key);
    } else if DecodeKey(EncodeKey(key)) == Ok(key) {
      DecodedKeyIsValid(EncodeKey(key));
    }
  }

  lemma {:induction false} DecodedKeyIsValid(data: Bytes)
    requires DecodeKey(data).Ok?
    ensures Utf8.Valid(DecodeKey(data).value.role) && Utf8.Valid(DecodeKey(data).value.member)
  {
    var rest := ReadInt16(ReadVersion(data).rest).rest;
    ReadStringInverse(rest);
    ReadStringInverse(ReadString(rest).rest);
  }

  /** The decoder is strict: what it accepts is what the encoder writes. */
  lemma {:induction false} EncodeDecodeKey(data: Bytes)
    requires DecodeKey(data).Ok?
    ensures IsKey(DecodeKey(data).value) && EncodeKey(DecodeKey(data).value) == data
  {
    var kinded := ReadVersion(data).rest;
    var named := ReadInt16(kinded).rest;
    ReadVersionInverse(data);
    ReadInt16Inverse(kinded);
    ReadStringInverse(named);
    ReadStringInverse(ReadString(named).rest);
    assert PutString(ReadString(ReadString(named).rest).value) + [] == PutString(ReadString(ReadString(named).rest).value);
  }

  // ------------------------------------------------------------ registrations

  function EncodeRegistration(r: Registration): (bytes: Bytes)
    ensures bytes != []
  {
    PutInt16(RECORD_VERSION) + (PutString(r.member) + PutInt64(r.registeredAt))
  }

  function DecodeRegistration(data: Bytes): Result<Registration, ParseError> {
    match ReadRegistrationParts(data)
    case Failed(error) => Err(error)
    case Done((member, registeredAt), rest) =>
      if rest != [] then Err(TrailingBytes)
      else if !IsName(member) then Err(BadName)
      else Ok(Registration(member, registeredAt))
  }

  function ReadRegistrationParts(data: Bytes): Parse<(Bytes, Int64)> {
    var (_, rest) :- ReadVersion(data);
    var (member, rest') :- ReadString(rest);
    var (registeredAt, rest'') :- ReadInt64(rest');
    Done((member, registeredAt), rest'')
  }

  lemma {:induction false} DecodeEncodeRegistration(r: Registration)
    requires IsName(r.member)
    ensures DecodeRegistration(EncodeRegistration(r)) == Ok(r) <==> Utf8.Valid(r.member)
  {
    ReadPutVersion(PutString(r.member) + PutInt64(r.registeredAt));
    ReadPutString(r.member, PutInt64(r.registeredAt));
    assert PutInt64(r.registeredAt) + [] == PutInt64(r.registeredAt);
    ReadPutInt64(r.registeredAt, []);
  }

  lemma {:induction false} EncodeDecodeRegistration(data: Bytes)
    requires DecodeRegistration(data).Ok?
    ensures IsName(DecodeRegistration(data).value.member) && EncodeRegistration(DecodeRegistration(data).value) == data
  {
    var named := ReadVersion(data).rest;
    ReadVersionInverse(data);
    ReadStringInverse(named);
    ReadInt64Inverse(ReadString(named).rest);
    var at := ReadInt64(ReadString(named).rest).value;
    assert PutInt64(at) + [] == PutInt64(at);
  }

  // ------------------------------------------------------------------- leases

  function EncodeLease(l: Lease): (bytes: Bytes)
    ensures bytes != []
  {
    PutInt16(RECORD_VERSION) + (PutString(l.member) + EncodeClaim(l))
  }

  /** The fixed-size part of a lease. */
  function EncodeClaim(l: Lease): Bytes {
    PutInt64(l.token.producerId) + (PutInt16(l.token.producerEpoch) + (PutInt64(l.grantedAt) + PutInt64(l.deadline)))
  }

  function ReadClaim(data: Bytes, member: Bytes): Parse<Lease> {
    var (producerId, rest) :- ReadInt64(data);
    var (producerEpoch, rest') :- ReadInt16(rest);
    var (grantedAt, rest'') :- ReadInt64(rest');
    var (deadline, rest''') :- ReadInt64(rest'');
    Done(Lease(member, Token(producerId, producerEpoch), grantedAt, deadline), rest''')
  }

  function ReadLease(data: Bytes): Parse<Lease> {
    var (_, rest) :- ReadVersion(data);
    var (member, rest') :- ReadString(rest);
    ReadClaim(rest', member)
  }

  function DecodeLease(data: Bytes): Result<Lease, ParseError> {
    match ReadLease(data)
    case Failed(error) => Err(error)
    case Done(l, rest) =>
      if rest != [] then Err(TrailingBytes)
      else if !IsName(l.member) then Err(BadName)
      else if !l.token.Minted() then Err(BadToken)
      else Ok(l)
  }

  lemma {:induction false} ReadPutClaim(l: Lease)
    ensures ReadClaim(EncodeClaim(l), l.member) == Done(l, [])
  {
    var deadline := PutInt64(l.deadline);
    ReadPutInt64(l.token.producerId, PutInt16(l.token.producerEpoch) + (PutInt64(l.grantedAt) + deadline));
    ReadPutInt16(l.token.producerEpoch, PutInt64(l.grantedAt) + deadline);
    ReadPutInt64(l.grantedAt, deadline);
    assert deadline + [] == deadline;
    ReadPutInt64(l.deadline, []);
  }

  lemma {:induction false} DecodeEncodeLease(l: Lease)
    requires IsName(l.member)
    ensures DecodeLease(EncodeLease(l)) == Ok(l) <==> Utf8.Valid(l.member) && l.token.Minted()
  {
    ReadPutVersion(PutString(l.member) + EncodeClaim(l));
    ReadPutString(l.member, EncodeClaim(l));
    ReadPutClaim(l);
  }

  lemma {:induction false} ReadClaimInverse(data: Bytes, member: Bytes)
    requires ReadClaim(data, member).Done? && ReadClaim(data, member).rest == []
    ensures data == EncodeClaim(ReadClaim(data, member).value)
  {
    var epoch := ReadInt64(data).rest;
    var granted := ReadInt16(epoch).rest;
    var deadline := ReadInt64(granted).rest;
    ReadInt64Inverse(data);
    ReadInt16Inverse(epoch);
    ReadInt64Inverse(granted);
    ReadInt64Inverse(deadline);
    assert PutInt64(ReadInt64(deadline).value) + [] == PutInt64(ReadInt64(deadline).value);
  }

  lemma {:induction false} EncodeDecodeLease(data: Bytes)
    requires DecodeLease(data).Ok?
    ensures var l := DecodeLease(data).value; IsName(l.member) && l.token.Minted() && EncodeLease(l) == data
  {
    var named := ReadVersion(data).rest;
    ReadVersionInverse(data);
    ReadStringInverse(named);
    ReadClaimInverse(ReadString(named).rest, ReadString(named).value);
  }
}
