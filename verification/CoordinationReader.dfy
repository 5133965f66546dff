/** The reader that takes a coordination record apart from the front. */
module CoordinationReaders {
  import opened Wrappers
  import opened Machine
  import opened ByteCodec
  import opened ValueReaders
  import opened CoordinationRecords
  import Utf8

  class StateReader {
    var data: Bytes

    constructor (record: Bytes)
      ensures data == record
    {
      data := record;
    }

    method Short() returns (r: Result<Int16, ParseError>)
      modifies this
      ensures Reads(r, ReadInt16(old(data)), data)
    {
      if |data| < 2 { return Err(Truncated); }
      PutGet(data[..2]);
      BaseValues();
      var u: int := GetUint(data[..2]);
      data := data[2..];
      r := Ok(if u < 0x8000 then u else u - 0x1_0000);
    }

    method Long() returns (r: Result<Int64, ParseError>)
      modifies this
      ensures Reads(r, ReadInt64(old(data)), data)
    {
      if |data| < 8 { return Err(Truncated); }
      PutGet(data[..8]);
      BaseValues();
      r := Ok(AsSigned(GetUint(data[..8])));
      data := data[8..];
    }

    method Text() returns (r: Result<Bytes, ParseError>)
      modifies this
      ensures Reads(r, ReadString(old(data)), data)
    {
      var length :- Short();
      if length < 0 { return Err(BadLength); }
      if |data| < length { return Err(Truncated); }
      var text := data[..length];
      data := data[length..];
      if !Utf8.Valid(text) { return Err(BadUtf8); }
      r := Ok(text);
    }

    method Version() returns (r: Result<(), ParseError>)
      modifies this
      ensures Reads(r, ReadVersion(old(data)), data)
    {
      var version :- Short();
      if version != RECORD_VERSION { return Err(BadVersion); }
      r := Ok(());
    }
  }

  method ParseKey(data: Bytes) returns (r: Result<Key, ParseError>)
    ensures r == DecodeKey(data)
  {
    var reader := new StateReader(data);
    var _ :- reader.Version();
    var code :- reader.Short();
    if code != 0 && code != 1 { return Err(BadKind); }
    var role :- reader.Text();
    var member :- reader.Text();
    if reader.data != [] { return Err(TrailingBytes); }
    if !IsName(role) { return Err(BadName); }
    if code == 1 {
      return if member != [] then Err(BadName) else Ok(Key(Leasing, role, []));
    }
    if !IsName(member) { return Err(BadName); }
    r := Ok(Key(Registering, role, member));
  }

  method ParseRegistration(data: Bytes) returns (r: Result<Registration, ParseError>)
    ensures r == DecodeRegistration(data)
  {
    var reader := new StateReader(data);
    var _ :- reader.Version();
    var member :- reader.Text();
    var registeredAt :- reader.Long();
    if reader.data != [] { return Err(TrailingBytes); }
    if !IsName(member) { return Err(BadName); }
    r := Ok(Registration(member, registeredAt));
  }

  method ParseLease(data: Bytes) returns (r: Result<Lease, ParseError>)
    ensures r == DecodeLease(data)
  {
    var reader := new StateReader(data);
    var _ :- reader.Version();
    var member :- reader.Text();
    var producerId :- reader.Long();
    var producerEpoch :- reader.Short();
    var grantedAt :- reader.Long();
    var deadline :- reader.Long();
    if reader.data != [] { return Err(TrailingBytes); }
    if !IsName(member) { return Err(BadName); }
    var token := Token(producerId, producerEpoch);
    if !token.Minted() { return Err(BadToken); }
    r := Ok(Lease(member, token, grantedAt, deadline));
  }
}
