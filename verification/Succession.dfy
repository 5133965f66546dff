/** The state of a role as a fold over its log, and what a member does about it. */
module Successions {
  import opened Wrappers
  import opened Machine
  import opened ByteCodec
  import opened CoordinationRecords
  import opened LeaseTimings

  /** A record of the topic at its offset; an empty value is a tombstone. */
  datatype StateRecord = StateRecord(offset: Int64, key: Bytes, value: Bytes)

  /** What the last record of a member said. The slot stays after a tombstone. */
  datatype Slot = Slot(offset: Int64, registeredAt: Int64, registered: bool)

  datatype LeaseSlot = LeaseSlot(offset: Int64, lease: Option<Lease>)

  datatype Slots = Slots(members: map<Name, Slot>, lease: Option<LeaseSlot>)

  const NO_SLOTS := Slots(map[], None)

  /** What one record asks of the fold of a role. */
  datatype Update = MemberUpdate(member: Name, slot: Slot) | LeaseUpdate(leaseSlot: LeaseSlot) | NoUpdate

  function DecodeUpdate(role: Name, record: StateRecord): Result<Update, ParseError> {
    var key :- DecodeKey(record.key);
    if key.role != role then Ok(NoUpdate)
    else if key.kind == Registering then
      if record.value == [] then Ok(MemberUpdate(key.member, Slot(record.offset, 0, false)))
      else
        var registration :- DecodeRegistration(record.value);
        Ok(MemberUpdate(key.member, Slot(record.offset, registration.registeredAt, true)))
    else if record.value == [] then Ok(LeaseUpdate(LeaseSlot(record.offset, None)))
    else
      var lease :- DecodeLease(record.value);
      Ok(LeaseUpdate(LeaseSlot(record.offset, Some(lease))))
  }

  /** The record of the higher offset stays. */
  function Put(slots: Slots, update: Update): Slots {
    match update
    case MemberUpdate(member, slot) =>
      if member in slots.members && slots.members[member].offset >= slot.offset then slots
      else slots.(members := slots.members[member := slot])
    case LeaseUpdate(slot) =>
      if slots.lease.Some? && slots.lease.value.offset >= slot.offset then slots
      else slots.(lease := Some(slot))
    case NoUpdate => slots
  }

  function PutAll(updates: seq<Update>): Slots {
    if updates == [] then NO_SLOTS else Put(PutAll(updates[..|updates| - 1]), updates[|updates| - 1])
  }

  type Decoder = StateRecord -> Result<Update, ParseError>

  function DecoderOf(role: Name): Decoder { r => DecodeUpdate(role, r) }

  function DecodeEach(decode: Decoder, records: seq<StateRecord>): (r: Result<seq<Update>, ParseError>)
    ensures r.Ok? ==> |r.value| == |records|
  {
    if records == [] then Ok([])
    else
      var before :- DecodeEach(decode, records[..|records| - 1]);
      var update :- decode(records[|records| - 1]);
      Ok(before + [update])
  }

  function DecodeAll(role: Name, records: seq<StateRecord>): (r: Result<seq<Update>, ParseError>)
    ensures r.Ok? ==> |r.value| == |records|
  {
    DecodeEach(DecoderOf(role), records)
  }

  /** The slots of a role, or the first record that does not decode. */
  function Fold(role: Name, records: seq<StateRecord>): Result<Slots, ParseError> {
    var updates :- DecodeAll(role, records);
    Ok(PutAll(updates))
  }

  // ------------------------------------------------------------- the role state

  datatype Entry = Entry(member: Name, offset: Int64, registeredAt: Int64)

  datatype RoleState = RoleState(roster: seq<Entry>, lease: Option<Lease>)

  predicate InRoster(members: map<Name, Slot>, e: Entry) {
    e.member in members && members[e.member] == Slot(e.offset, e.registeredAt, true)
  }

  /** The registered members, in ascending order of their offsets. */
  ghost predicate IsRoster(members: map<Name, Slot>, roster: seq<Entry>) {
    && (forall i :: 0 <= i < |roster| ==> InRoster(members, roster[i]))
    && (forall m :: m in members && members[m].registered ==> Entry(m, members[m].offset, members[m].registeredAt) in roster)
    && (forall i, j :: 0 <= i < j < |roster| ==> roster[i].offset < roster[j].offset)
  }

  function LeaseOf(slots: Slots): Option<Lease> {
    match slots.lease
    case Some(slot) => slot.lease
    case None => None
  }

  /** `state` is the state of the role that the records fold into. */
  ghost predicate IsRoleState(role: Name, records: seq<StateRecord>, state: RoleState) {
    && Fold(role, records).Ok?
    && IsRoster(Fold(role, records).value.members, state.roster)
    && state.lease == LeaseOf(Fold(role, records).value)
  }

  /** Two folds show the same role when they agree on the registered members and on
      the lease; slots of tombstones do not show. */
  ghost predicate ShowTheSame(a: Slots, b: Slots) {
    LeaseOf(a) == LeaseOf(b) && forall e :: InRoster(a.members, e) <==> InRoster(b.members, e)
  }

  lemma {:induction false} RosterMembers(a: map<Name, Slot>, x: seq<Entry>, e: Entry)
    requires IsRoster(a, x)
    ensures e in x <==> InRoster(a, e)
  {
  }

  lemma {:induction false} AscendingRostersAgree(x: seq<Entry>, y: seq<Entry>)
    requires forall i, j :: 0 <= i < j < |x| ==> x[i].offset < x[j].offset
    requires forall i, j :: 0 <= i < j < |y| ==> y[i].offset < y[j].offset
    requires forall e :: e in x <==> e in y
    ensures x == y
  {
    assert (x != [] ==> x[0] in y) && (y != [] ==> y[0] in x);
    if x != [] && y != [] {
      TailEntries(x);
      TailEntries(y);
      AscendingRostersAgree(x[1..], y[1..]);
      assert x == [x[0]] + x[1..] && y == [y[0]] + y[1..];
    }
  }

  lemma {:induction false} TailEntries(x: seq<Entry>)
    requires x != [] && forall i, j :: 0 <= i < j < |x| ==> x[i].offset < x[j].offset
    ensures forall e :: e in x[1..] <==> e in x && e != x[0]
  {
    assert x == [x[0]] + x[1..];
  }

  lemma {:induction false} RosterIsUnique(a: Slots, b: Slots, x: seq<Entry>, y: seq<Entry>)
    requires IsRoster(a.members, x) && IsRoster(b.members, y) && ShowTheSame(a, b)
    ensures x == y
  {
    forall e ensures e in x <==> e in y {
      RosterMembers(a.members, x, e);
      RosterMembers(b.members, y, e);
    }
    AscendingRostersAgree(x, y);
  }

  // --------------------------------------------------- the last record of a key

  ghost predicate LastOfMember(updates: seq<Update>, m: Name, slot: Slot) {
    && MemberUpdate(m, slot) in updates
    && forall u :: u in updates && u.MemberUpdate? && u.member == m ==> u.slot.offset <= slot.offset
  }

  ghost predicate LastOfLease(updates: seq<Update>, slot: LeaseSlot) {
    && LeaseUpdate(slot) in updates
    && forall u :: u in updates && u.LeaseUpdate? ==> u.leaseSlot.offset <= slot.offset
  }

  /** The slots hold, for every key, its update of the highest offset. */
  ghost predicate HoldsLast(updates: seq<Update>, slots: Slots) {
    && (forall m :: m in slots.members ==> LastOfMember(updates, m, slots.members[m]))
    && (forall u :: u in updates && u.MemberUpdate? ==> u.member in slots.members)
    && (slots.lease.Some? ==> LastOfLease(updates, slots.lease.value))
    && (forall u :: u in updates && u.LeaseUpdate? ==> slots.lease.Some?)
  }

  lemma {:induction false} PutHoldsLast(updates: seq<Update>, slots: Slots, update: Update)
    requires HoldsLast(updates, slots)
    ensures HoldsLast(updates + [update], Put(slots, update))
  {
    var after, more := Put(slots, update), updates + [update];
    forall m | m in after.members ensures LastOfMember(more, m, after.members[m]) {
      if m in slots.members {
        assert LastOfMember(updates, m, slots.members[m]);
      }
    }
  }

  lemma {:induction false} PutAllHoldsLast(updates: seq<Update>)
    ensures HoldsLast(updates, PutAll(updates))
  {
    if updates != [] {
      var before, last := updates[..|updates| - 1], updates[|updates| - 1];
      assert before + [last] == updates;
      PutAllHoldsLast(before);
      PutHoldsLast(before, PutAll(before), last);
    }
  }

  /** Updates of one offset are one update. */
  ghost predicate Distinct(updates: seq<Update>) {
    && (forall u, v :: u in updates && v in updates && u.MemberUpdate? && v.MemberUpdate? && u.slot.offset == v.slot.offset ==> u == v)
    && (forall u, v :: u in updates && v in updates && u.LeaseUpdate? && v.LeaseUpdate? && u.leaseSlot.offset == v.leaseSlot.offset ==> u == v)
  }

  /** What compaction may do to a list of updates: leave out any but the last of a
      key, and all of a key whose last is a tombstone. */
  ghost predicate Retains(us: seq<Update>, vs: seq<Update>) {
    && (forall v :: v in vs ==> v in us)
    && (forall m, slot :: LastOfMember(us, m, slot) ==>
          MemberUpdate(m, slot) in vs || (!slot.registered && forall v :: v in vs ==> !(v.MemberUpdate? && v.member == m)))
    && (forall slot :: LastOfLease(us, slot) ==>
          LeaseUpdate(slot) in vs || (slot.lease.None? && forall v :: v in vs ==> !v.LeaseUpdate?))
  }

  lemma {:induction false} RetainedMemberShows(us: seq<Update>, vs: seq<Update>, e: Entry)
    requires Distinct(us) && Retains(us, vs)
    ensures InRoster(PutAll(us).members, e) <==> InRoster(PutAll(vs).members, e)
  {
    PutAllHoldsLast(us);
    PutAllHoldsLast(vs);
    MemberShows(us, vs, PutAll(us), PutAll(vs), e);
  }

  lemma {:induction false} MemberShows(us: seq<Update>, vs: seq<Update>, a: Slots, b: Slots, e: Entry)
    requires Distinct(us) && Retains(us, vs) && HoldsLast(us, a) && HoldsLast(vs, b)
    ensures InRoster(a.members, e) <==> InRoster(b.members, e)
  {
    var m, slot := e.member, Slot(e.offset, e.registeredAt, true);
    if InRoster(a.members, e) {
      assert LastOfMember(us, m, slot) && MemberUpdate(m, slot) in vs;
      assert LastOfMember(vs, m, b.members[m]);
    }
    if InRoster(b.members, e) {
      assert LastOfMember(vs, m, slot) && MemberUpdate(m, slot) in us;
      assert LastOfMember(us, m, a.members[m]);
    }
  }

  lemma {:induction false} RetainedLeaseShows(us: seq<Update>, vs: seq<Update>)
    requires Distinct(us) && Retains(us, vs)
    ensures LeaseOf(PutAll(us)) == LeaseOf(PutAll(vs))
  {
    var a, b := PutAll(us), PutAll(vs);
    PutAllHoldsLast(us);
    PutAllHoldsLast(vs);
    if b.lease.Some? {
      assert LastOfLease(vs, b.lease.value) && LeaseUpdate(b.lease.value) in us;
    }
    if a.lease.Some? {
      assert LastOfLease(us, a.lease.value);
    }
  }

  lemma {:induction false} RetainedShowsTheSame(us: seq<Update>, vs: seq<Update>)
    requires Distinct(us) && Retains(us, vs)
    ensures ShowTheSame(PutAll(us), PutAll(vs))
  {
    RetainedLeaseShows(us, vs);
    forall e ensures InRoster(PutAll(us).members, e) <==> InRoster(PutAll(vs).members, e) {
      RetainedMemberShows(us, vs, e);
    }
  }

  // -------------------------------------------------------- permuted, compacted

  ghost predicate Asks(decode: Decoder, records: seq<StateRecord>, u: Update) {
    exists r :: r in records && decode(r) == Ok(u)
  }

  lemma {:induction false} AskOneMore(decode: Decoder, records: seq<StateRecord>, last: StateRecord, u: Update)
    ensures Asks(decode, records + [last], u) <==> Asks(decode, records, u) || decode(last) == Ok(u)
  {
    assert last in records + [last];
    if Asks(decode, records, u) {
      var r :| r in records && decode(r) == Ok(u);
      assert r in records + [last];
    }
  }

  lemma {:induction false} DecodedAreAsked(decode: Decoder, records: seq<StateRecord>, u: Update)
    requires DecodeEach(decode, records).Ok?
    ensures u in DecodeEach(decode, records).value <==> Asks(decode, records, u)
  {
    if records != [] {
      var before, last := records[..|records| - 1], records[|records| - 1];
      DecodedAreAsked(decode, before, u);
      AskOneMore(decode, before, last, u);
      assert records == before + [last];
    }
  }

  lemma {:induction false} DecodedMembers(role: Name, records: seq<StateRecord>, u: Update)
    requires DecodeAll(role, records).Ok?
    ensures u in DecodeAll(role, records).value <==> exists r :: r in records && DecodeUpdate(role, r) == Ok(u)
  {
    DecodedAreAsked(DecoderOf(role), records, u);
    if Asks(DecoderOf(role), records, u) {
      var r :| r in records && DecoderOf(role)(r) == Ok(u);
      assert DecodeUpdate(role, r) == Ok(u);
    }
    if exists r :: r in records && DecodeUpdate(role, r) == Ok(u) {
      var r :| r in records && DecodeUpdate(role, r) == Ok(u);
      assert DecoderOf(role)(r) == Ok(u);
    }
  }

  /** The offsets of the log are distinct. */
  ghost predicate DistinctOffsets(records: seq<StateRecord>) {
    forall r, s :: r in records && s in records && r.offset == s.offset ==> r == s
  }

  function OffsetOf(u: Update): Option<Int64> {
    match u
    case MemberUpdate(_, slot) => Some(slot.offset)
    case LeaseUpdate(slot) => Some(slot.offset)
    case NoUpdate => None
  }

  lemma {:induction false} UpdateKeepsOffset(role: Name, r: StateRecord)
    ensures DecodeUpdate(role, r).Ok? && DecodeUpdate(role, r).value != NoUpdate ==>
              OffsetOf(DecodeUpdate(role, r).value) == Some(r.offset)
  {
  }

  lemma {:induction false} DecodedAreDistinct(role: Name, records: seq<StateRecord>)
    requires DecodeAll(role, records).Ok? && DistinctOffsets(records)
    ensures Distinct(DecodeAll(role, records).value)
  {
    var us := DecodeAll(role, records).value;
    forall u, v | u in us && v in us && u != NoUpdate && v != NoUpdate && OffsetOf(u) == OffsetOf(v) ensures u == v {
      DecodedMembers(role, records, u);
      DecodedMembers(role, records, v);
      var r :| r in records && DecodeUpdate(role, r) == Ok(u);
      var s :| s in records && DecodeUpdate(role, s) == Ok(v);
      UpdateKeepsOffset(role, r);
      UpdateKeepsOffset(role, s);
    }
    forall u, v | u in us && v in us && u.MemberUpdate? && v.MemberUpdate? && u.slot.offset == v.slot.offset ensures u == v {
      assert OffsetOf(u) == OffsetOf(v);
    }
    forall u, v | u in us && v in us && u.LeaseUpdate? && v.LeaseUpdate? && u.leaseSlot.offset == v.leaseSlot.offset ensures u == v {
      assert OffsetOf(u) == OffsetOf(v);
    }
  }

  ghost predicate IsLast(records: seq<StateRecord>, r: StateRecord) {
    r in records && forall s :: s in records && s.key == r.key ==> s.offset <= r.offset
  }

  /** What log compaction may do: leave out any record but the last of its key, and
      every record of a key whose last one is a tombstone. Any order is allowed, so
      a permutation is a compaction that leaves nothing out. */
  ghost predicate Compacted(xs: seq<StateRecord>, ys: seq<StateRecord>) {
    && (forall y :: y in ys ==> y in xs)
    && forall x :: IsLast(xs, x) ==> x in ys || (x.value == [] && forall y :: y in ys ==> y.key != x.key)
  }

  function KeyOf(role: Name, u: Update): Key {
    match u
    case MemberUpdate(m, _) => Key(Registering, role, m)
    case _ => Key(Leasing, role, [])
  }

  lemma {:induction false} UpdateNamesKey(role: Name, r: StateRecord)
    requires DecodeUpdate(role, r).Ok? && DecodeUpdate(role, r).value != NoUpdate
    ensures DecodeKey(r.key) == Ok(KeyOf(role, DecodeUpdate(role, r).value))
  {
    EncodeDecodeKey(r.key);
  }

  lemma {:induction false} DecodedKeysAreKeys(a: Bytes, b: Bytes)
    requires DecodeKey(a).Ok? && DecodeKey(b).Ok?
    ensures DecodeKey(a) == DecodeKey(b) <==> a == b
  {
    EncodeDecodeKey(a);
    EncodeDecodeKey(b);
  }

  /** A decoded key determines the bytes of the key. */
  lemma {:induction false} SameUpdateSameKey(role: Name, r: StateRecord, s: StateRecord)
    requires DecodeUpdate(role, r).Ok? && DecodeUpdate(role, s).Ok?
    requires DecodeUpdate(role, r).value != NoUpdate && DecodeUpdate(role, s).value != NoUpdate
    ensures r.key == s.key <==>
              match (DecodeUpdate(role, r).value, DecodeUpdate(role, s).value)
              case (MemberUpdate(m, _), MemberUpdate(n, _)) => m == n
              case (LeaseUpdate(_), LeaseUpdate(_)) => true
              case _ => false
  {
    UpdateNamesKey(role, r);
    UpdateNamesKey(role, s);
    DecodedKeysAreKeys(r.key, s.key);
  }

  lemma {:induction false} TombstoneUpdate(role: Name, r: StateRecord)
    requires DecodeUpdate(role, r).Ok? && r.value == []
    ensures var u := DecodeUpdate(role, r).value;
            (u.MemberUpdate? ==> !u.slot.registered) && (u.LeaseUpdate? ==> u.leaseSlot.lease.None?)
  {
  }

  /** The record behind the last update of a key is the last of its key. */
  lemma {:induction false} LastUpdateLastRecord(role: Name, xs: seq<StateRecord>, ys: seq<StateRecord>, u: Update)
    requires DecodeAll(role, xs).Ok? && DecodeAll(role, ys).Ok? && Compacted(xs, ys)
    requires match u
             case MemberUpdate(m, slot) => LastOfMember(DecodeAll(role, xs).value, m, slot)
             case LeaseUpdate(slot) => LastOfLease(DecodeAll(role, xs).value, slot)
             case NoUpdate => false
    ensures u in DecodeAll(role, ys).value
            || match u
               case MemberUpdate(m, slot) =>
                 !slot.registered && forall v :: v in DecodeAll(role, ys).value ==> !(v.MemberUpdate? && v.member == m)
               case LeaseUpdate(slot) => slot.lease.None? && forall v :: v in DecodeAll(role, ys).value ==> !v.LeaseUpdate?
               case NoUpdate => false
  {
    DecodedMembers(role, xs, u);
    var x :| x in xs && DecodeUpdate(role, x) == Ok(u);
    UpdateKeepsOffset(role, x);
    forall s | s in xs && s.key == x.key ensures s.offset <= x.offset {
      SameKeyNotLater(role, xs, x, s, u);
    }
    assert IsLast(xs, x);
    DecodedMembers(role, ys, u);
    if x !in ys {
      TombstoneUpdate(role, x);
      forall v | v in DecodeAll(role, ys).value && v != NoUpdate
        ensures !(v.MemberUpdate? && u.MemberUpdate? && v.member == u.member) && !(v.LeaseUpdate? && u.LeaseUpdate?)
      {
        DecodedMembers(role, ys, v);
        var y :| y in ys && DecodeUpdate(role, y) == Ok(v);
        SameUpdateSameKey(role, x, y);
      }
    }
  }

  lemma {:induction false} SameKeyNotLater(role: Name, xs: seq<StateRecord>, x: StateRecord, s: StateRecord, u: Update)
    requires DecodeAll(role, xs).Ok? && x in xs && s in xs && s.key == x.key && DecodeUpdate(role, x) == Ok(u)
    requires match u
             case MemberUpdate(m, slot) => LastOfMember(DecodeAll(role, xs).value, m, slot)
             case LeaseUpdate(slot) => LastOfLease(DecodeAll(role, xs).value, slot)
             case NoUpdate => false
    ensures s.offset <= x.offset
  {
    AllDecode(role, xs, s);
    var v := DecodeUpdate(role, s).value;
    UpdateKeepsOffset(role, x);
    UpdateKeepsOffset(role, s);
    assert v != NoUpdate;
    SameUpdateSameKey(role, x, s);
    DecodedMembers(role, xs, v);
  }

  lemma {:induction false} EachDecodes(decode: Decoder, records: seq<StateRecord>, r: StateRecord)
    requires DecodeEach(decode, records).Ok? && r in records
    ensures decode(r).Ok?
  {
    if r != records[|records| - 1] {
      assert r in records[..|records| - 1];
      EachDecodes(decode, records[..|records| - 1], r);
    }
  }

  lemma {:induction false} AllDecode(role: Name, records: seq<StateRecord>, r: StateRecord)
    requires DecodeAll(role, records).Ok? && r in records
    ensures DecodeUpdate(role, r).Ok?
  {
    EachDecodes(DecoderOf(role), records, r);
    assert DecoderOf(role)(r).Ok?;
  }

  lemma {:induction false} CompactionRetains(role: Name, xs: seq<StateRecord>, ys: seq<StateRecord>)
    requires DecodeAll(role, xs).Ok? && DecodeAll(role, ys).Ok? && Compacted(xs, ys)
    ensures Retains(DecodeAll(role, xs).value, DecodeAll(role, ys).value)
  {
    var us, vs := DecodeAll(role, xs).value, DecodeAll(role, ys).value;
    forall v | v in vs ensures v in us {
      DecodedMembers(role, ys, v);
      DecodedMembers(role, xs, v);
    }
    forall m, slot | LastOfMember(us, m, slot)
      ensures MemberUpdate(m, slot) in vs || (!slot.registered && forall v :: v in vs ==> !(v.MemberUpdate? && v.member == m))
    {
      LastUpdateLastRecord(role, xs, ys, MemberUpdate(m, slot));
    }
    forall slot | LastOfLease(us, slot)
      ensures LeaseUpdate(slot) in vs || (slot.lease.None? && forall v :: v in vs ==> !v.LeaseUpdate?)
    {
      LastUpdateLastRecord(role, xs, ys, LeaseUpdate(slot));
    }
  }

  lemma {:induction false} CompactedDecodes(decode: Decoder, xs: seq<StateRecord>, ys: seq<StateRecord>)
    requires DecodeEach(decode, xs).Ok? && forall y :: y in ys ==> y in xs
    ensures DecodeEach(decode, ys).Ok?
  {
    if ys != [] {
      CompactedDecodes(decode, xs, ys[..|ys| - 1]);
      EachDecodes(decode, xs, ys[|ys| - 1]);
    }
  }

  /** The role state depends on the last record of each key alone: a permuted or
      compacted log, final tombstones dropped or not, folds into the same state. */
  lemma {:induction false} CompactionIsInvisible(role: Name, xs: seq<StateRecord>, ys: seq<StateRecord>, s: RoleState, t: RoleState)
    requires DistinctOffsets(xs) && Compacted(xs, ys)
    requires IsRoleState(role, xs, s) && IsRoleState(role, ys, t)
    ensures s == t
  {
    CompactedDecodes(DecoderOf(role), xs, ys);
    CompactionRetains(role, xs, ys);
    DecodedAreDistinct(role, xs);
    RetainedShowsTheSame(DecodeAll(role, xs).value, DecodeAll(role, ys).value);
    RosterIsUnique(Fold(role, xs).value, Fold(role, ys).value, s.roster, t.roster);
  }

  /** Reading the log in any order folds into the same state. */
  lemma {:induction false} PermutationIsInvisible(role: Name, xs: seq<StateRecord>, ys: seq<StateRecord>, s: RoleState, t: RoleState)
    requires DistinctOffsets(xs) && multiset(xs) == multiset(ys)
    requires IsRoleState(role, xs, s) && IsRoleState(role, ys, t)
    ensures s == t
  {
    forall r ensures r in xs <==> r in ys {
      assert r in xs <==> r in multiset(xs);
      assert r in ys <==> r in multiset(ys);
    }
    CompactionIsInvisible(role, xs, ys, s, t);
  }

  // ------------------------------------------------ the state told by its records

  /** The last record of a member's key registers it, and is no tombstone. */
  ghost predicate Registers(role: Name, records: seq<StateRecord>, r: StateRecord, e: Entry) {
    && IsLast(records, r)
    && DecodeKey(r.key) == Ok(Key(Registering, role, e.member))
    && r.value != [] && r.offset == e.offset
    && DecodeRegistration(r.value).Ok? && DecodeRegistration(r.value).value.registeredAt == e.registeredAt
  }

  /** The last record of the lease key is this lease, and is no tombstone. */
  ghost predicate Leases(role: Name, records: seq<StateRecord>, r: StateRecord, lease: Lease) {
    && IsLast(records, r)
    && DecodeKey(r.key) == Ok(Key(Leasing, role, []))
    && r.value != [] && DecodeLease(r.value) == Ok(lease)
  }

  lemma {:induction false} LastRecordLastUpdate(role: Name, records: seq<StateRecord>, r: StateRecord)
    requires DecodeAll(role, records).Ok? && IsLast(records, r) && DecodeUpdate(role, r).Ok?
    ensures match DecodeUpdate(role, r).value
            case MemberUpdate(m, slot) => LastOfMember(DecodeAll(role, records).value, m, slot)
            case LeaseUpdate(slot) => LastOfLease(DecodeAll(role, records).value, slot)
            case NoUpdate => true
  {
    var us, u := DecodeAll(role, records).value, DecodeUpdate(role, r).value;
    DecodedMembers(role, records, u);
    UpdateKeepsOffset(role, r);
    forall v | v in us && v != NoUpdate && u != NoUpdate && KeyOf(role, v) == KeyOf(role, u) ensures OffsetOf(v).value <= r.offset {
      DecodedMembers(role, records, v);
      var x :| x in records && DecodeUpdate(role, x) == Ok(v);
      UpdateKeepsOffset(role, x);
      SameUpdateSameKey(role, x, r);
    }
    forall v | v in us && v.MemberUpdate? && u.MemberUpdate? && v.member == u.member ensures v.slot.offset <= u.slot.offset {
      assert KeyOf(role, v) == KeyOf(role, u);
    }
    forall v | v in us && v.LeaseUpdate? && u.LeaseUpdate? ensures v.leaseSlot.offset <= u.leaseSlot.offset {
      assert KeyOf(role, v) == KeyOf(role, u);
    }
  }

  /** The record an update of the slots comes from is the last of its key. */
  lemma {:induction false} LastUpdateHasRecord(role: Name, records: seq<StateRecord>, u: Update) returns (r: StateRecord)
    requires DecodeAll(role, records).Ok?
    requires match u
             case MemberUpdate(m, slot) => LastOfMember(DecodeAll(role, records).value, m, slot)
             case LeaseUpdate(slot) => LastOfLease(DecodeAll(role, records).value, slot)
             case NoUpdate => false
    ensures IsLast(records, r) && DecodeUpdate(role, r) == Ok(u)
  {
    DecodedMembers(role, records, u);
    r :| r in records && DecodeUpdate(role, r) == Ok(u);
    forall s | s in records && s.key == r.key ensures s.offset <= r.offset {
      SameKeyNotLater(role, records, r, s, u);
    }
  }

  lemma {:induction false} ListedIsLast(role: Name, records: seq<StateRecord>, e: Entry)
    requires Fold(role, records).Ok? && InRoster(Fold(role, records).value.members, e)
    ensures exists r :: Registers(role, records, r, e)
  {
    PutAllHoldsLast(DecodeAll(role, records).value);
    var slot := Slot(e.offset, e.registeredAt, true);
    assert LastOfMember(DecodeAll(role, records).value, e.member, slot);
    var r := LastUpdateHasRecord(role, records, MemberUpdate(e.member, slot));
    assert Registers(role, records, r, e);
  }

  lemma {:induction false} LastIsListed(role: Name, records: seq<StateRecord>, e: Entry, r: StateRecord)
    requires Fold(role, records).Ok? && DistinctOffsets(records) && Registers(role, records, r, e)
    ensures InRoster(Fold(role, records).value.members, e)
  {
    var us := DecodeAll(role, records).value;
    PutAllHoldsLast(us);
    LastRecordLastUpdate(role, records, r);
    DecodedAreDistinct(role, records);
    SlotIsLast(us, PutAll(us), e.member, Slot(e.offset, e.registeredAt, true));
  }

  lemma {:induction false} SlotIsLast(us: seq<Update>, slots: Slots, m: Name, slot: Slot)
    requires HoldsLast(us, slots) && Distinct(us) && LastOfMember(us, m, slot)
    ensures m in slots.members && slots.members[m] == slot
  {
    assert LastOfMember(us, m, slots.members[m]);
  }

  lemma {:induction false} LeaseIsLast(us: seq<Update>, slots: Slots, slot: LeaseSlot)
    requires HoldsLast(us, slots) && Distinct(us) && LastOfLease(us, slot)
    ensures slots.lease == Some(slot)
  {
    assert LastOfLease(us, slots.lease.value);
  }

  lemma {:induction false} LeaseTellsLast(role: Name, records: seq<StateRecord>, lease: Lease)
    requires Fold(role, records).Ok? && DistinctOffsets(records)
    ensures LeaseOf(Fold(role, records).value) == Some(lease) <==> exists r :: Leases(role, records, r, lease)
  {
    var us, slots := DecodeAll(role, records).value, Fold(role, records).value;
    PutAllHoldsLast(us);
    if LeaseOf(slots) == Some(lease) {
      var r := LastUpdateHasRecord(role, records, LeaseUpdate(slots.lease.value));
      assert Leases(role, records, r, lease);
    }
    if exists r :: Leases(role, records, r, lease) {
      var r :| Leases(role, records, r, lease);
      LastRecordLastUpdate(role, records, r);
      DecodedAreDistinct(role, records);
      LeaseIsLast(us, slots, LeaseSlot(r.offset, Some(lease)));
    }
  }

  /** The state of a role, told by its records alone: registered is who the last record
      of its key registers, in offset order, and the lease is what the last record of
      the lease key says. */
  lemma {:induction false} StateTellsLastRecords(role: Name, records: seq<StateRecord>, state: RoleState)
    requires IsRoleState(role, records, state) && DistinctOffsets(records)
    ensures forall e :: e in state.roster <==> exists r :: Registers(role, records, r, e)
    ensures forall lease :: state.lease == Some(lease) <==> exists r :: Leases(role, records, r, lease)
    ensures forall i, j :: 0 <= i < j < |state.roster| ==> state.roster[i].offset < state.roster[j].offset
  {
    forall e ensures e in state.roster <==> exists r :: Registers(role, records, r, e) {
      RosterMembers(Fold(role, records).value.members, state.roster, e);
      if e in state.roster { ListedIsLast(role, records, e); }
      if r :| Registers(role, records, r, e) { LastIsListed(role, records, e, r); }
    }
    forall lease ensures state.lease == Some(lease) <==> exists r :: Leases(role, records, r, lease) {
      LeaseTellsLast(role, records, lease);
    }
  }
}
