/** The fold of a role as it runs, the ranks of its candidates, and what a member
    does next. */
module RoleStates {
  import opened Wrappers
  import opened Machine
  import opened ByteCodec
  import opened CoordinationRecords
  import opened LeaseTimings
  import opened Successions

  /** Registered members have slots of their own offsets. */
  ghost predicate DistinctSlots(members: map<Name, Slot>) {
    forall m, n :: (m in members && n in members && members[m].registered && members[n].registered
                    && members[m].offset == members[n].offset) ==> m == n
  }

  /** A roster of the members outside `rest`. */
  ghost predicate IsRosterBut(members: map<Name, Slot>, rest: set<Name>, roster: seq<Entry>) {
    && (forall i :: 0 <= i < |roster| ==> InRoster(members, roster[i]) && roster[i].member !in rest)
    && (forall m :: m in members && m !in rest && members[m].registered ==>
                      Entry(m, members[m].offset, members[m].registeredAt) in roster)
    && (forall i, j :: 0 <= i < j < |roster| ==> roster[i].offset < roster[j].offset)
  }

  lemma {:induction false} InsertKeepsRoster(members: map<Name, Slot>, rest: set<Name>, roster: seq<Entry>, m: Name, at: nat)
    requires IsRosterBut(members, rest, roster) && DistinctSlots(members)
    requires m in rest && m in members && members[m].registered && at <= |roster|
    requires forall i :: 0 <= i < at ==> roster[i].offset < members[m].offset
    requires at < |roster| ==> roster[at].offset >= members[m].offset
    ensures IsRosterBut(members, rest - {m}, roster[..at] + [Entry(m, members[m].offset, members[m].registeredAt)] + roster[at..])
  {
    var e := Entry(m, members[m].offset, members[m].registeredAt);
    var more := roster[..at] + [e] + roster[at..];
    forall i | 0 <= i < |roster| ensures roster[i].offset != e.offset && roster[i] in more {
      assert InRoster(members, roster[i]);
      assert roster[i] == more[if i < at then i else i + 1];
    }
    assert more[at] == e;
    forall i, j | 0 <= i < j < |more| ensures more[i].offset < more[j].offset {
      if i != at && j != at {
        assert roster[if i < at then i else i - 1].offset < roster[if j < at then j else j - 1].offset;
      } else if i == at {
        assert at < |roster| && roster[at].offset > e.offset;
      }
    }
  }

  class RoleStateBuilder {
    const role: Name
    var members: map<Name, Slot>
    var lease: Option<LeaseSlot>

    function Content(): Slots
      reads this
    {
      Slots(members, lease)
    }

    constructor (role: Name)
      ensures this.role == role && Content() == NO_SLOTS
    {
      this.role := role;
      members, lease := map[], None;
    }

    /** Applies one record. One that does not decode is refused and changes nothing. */
    method Apply(record: StateRecord) returns (r: Result<(), ParseError>)
      modifies this
      ensures match DecodeUpdate(role, record)
              case Ok(update) => r == Ok(()) && Content() == Put(old(Content()), update)
              case Err(error) => r == Err(error) && Content() == old(Content())
    {
      var key :- DecodeKey(record.key);
      if key.role != role { return Ok(()); }
      var tombstone := |record.value| == 0;
      if key.kind == Registering {
        if tombstone {
          PutMember(key.member, Slot(record.offset, 0, false));
          return Ok(());
        }
        var registration :- DecodeRegistration(record.value);
        PutMember(key.member, Slot(record.offset, registration.registeredAt, true));
      } else {
        if tombstone {
          PutLease(LeaseSlot(record.offset, None));
          return Ok(());
        }
        var decoded :- DecodeLease(record.value);
        PutLease(LeaseSlot(record.offset, Some(decoded)));
      }
      r := Ok(());
    }

    method PutMember(member: Name, slot: Slot)
      modifies `members
      ensures Content() == Put(old(Content()), MemberUpdate(member, slot))
    {
      if member in members && members[member].offset >= slot.offset { return; }
      members := members[member := slot];
    }

    method PutLease(slot: LeaseSlot)
      modifies `lease
      ensures Content() == Put(old(Content()), LeaseUpdate(slot))
    {
      if lease.Some? && lease.value.offset >= slot.offset { return; }
      lease := Some(slot);
    }

    /** The state of the role, with the roster in offset order. */
    method Build() returns (state: RoleState)
      requires DistinctSlots(members)
      ensures IsRoster(members, state.roster) && state.lease == LeaseOf(Content())
    {
      var roster: seq<Entry> := [];
      var rest := members.Keys;
      while rest != {}
        invariant rest <= members.Keys && IsRosterBut(members, rest, roster)
        decreases |rest|
      {
        var m :| m in rest;
        if members[m].registered {
          var at := 0;
          while at < |roster| && roster[at].offset < members[m].offset
            invariant at <= |roster| && forall i :: 0 <= i < at ==> roster[i].offset < members[m].offset
          {
            at := at + 1;
          }
          InsertKeepsRoster(members, rest, roster, m, at);
          roster := roster[..at] + [Entry(m, members[m].offset, members[m].registeredAt)] + roster[at..];
        }
        rest := rest - {m};
      }
      state := RoleState(roster, if lease.Some? then lease.value.lease else None);
    }
  }

  lemma {:induction false} DecodeEachNext(decode: Decoder, records: seq<StateRecord>, n: nat)
    requires n < |records| && DecodeEach(decode, records[..n]).Ok?
    ensures DecodeEach(decode, records[..n + 1])
            == match decode(records[n])
               case Ok(update) => Ok(DecodeEach(decode, records[..n]).value + [update])
               case Err(error) => Err(error)
  {
    assert records[..n + 1][..n] == records[..n];
  }

  lemma {:induction false} DecodeEachFails(decode: Decoder, records: seq<StateRecord>, n: nat)
    requires n <= |records| && DecodeEach(decode, records[..n]).Err?
    ensures DecodeEach(decode, records) == DecodeEach(decode, records[..n])
  {
    if n < |records| {
      assert records[..|records| - 1][..n] == records[..n];
      DecodeEachFails(decode, records[..|records| - 1], n);
    } else {
      assert records[..n] == records;
    }
  }

  lemma {:induction false} FoldedSlotsAreDistinct(role: Name, records: seq<StateRecord>)
    requires Fold(role, records).Ok? && DistinctOffsets(records)
    ensures DistinctSlots(Fold(role, records).value.members)
  {
    var us := DecodeAll(role, records).value;
    DecodedAreDistinct(role, records);
    PutAllHoldsLast(us);
    var members := PutAll(us).members;
    forall m, n | m in members && n in members && members[m].offset == members[n].offset ensures m == n {
      assert LastOfMember(us, m, members[m]) && LastOfMember(us, n, members[n]);
      assert MemberUpdate(m, members[m]) == MemberUpdate(n, members[n]);
    }
  }

  /** Folds the records of a partition into the state of a role. */
  method BuildRoleState(role: Name, records: seq<StateRecord>) returns (r: Result<RoleState, ParseError>)
    requires DistinctOffsets(records)
    ensures r.Ok? ==> IsRoleState(role, records, r.value)
    ensures r.Err? ==> Fold(role, records) == Err(r.error)
  {
    var builder := new RoleStateBuilder(role);
    ghost var updates: seq<Update> := [];
    for i := 0 to |records|
      invariant DecodeEach(DecoderOf(role), records[..i]) == Ok(updates)
      invariant builder.Content() == PutAll(updates)
    {
      DecodeEachNext(DecoderOf(role), records, i);
      var applied := builder.Apply(records[i]);
      if applied.Err? {
        DecodeEachFails(DecoderOf(role), records, i + 1);
        return Err(applied.error);
      }
      ghost var before := updates;
      updates := updates + [DecodeUpdate(role, records[i]).value];
      assert updates[..|before|] == before;
    }
    assert records[..|records|] == records;
    FoldedSlotsAreDistinct(role, records);
    var state := builder.Build();
    r := Ok(state);
  }

  // -------------------------------------------------------------------- ranks

  function EntryOf(roster: seq<Entry>, member: Name): Option<Entry> {
    if roster == [] then None
    else if roster[0].member == member then Some(roster[0])
    else EntryOf(roster[1..], member)
  }

  predicate Holds(state: RoleState, member: Name) { state.lease.Some? && state.lease.value.member == member }

  /** The index of a member in the roster without the holder. */
  function RankFrom(state: RoleState, roster: seq<Entry>, member: Name, rank: nat): Option<nat> {
    if roster == [] then None
    else if Holds(state, roster[0].member) then RankFrom(state, roster[1..], member, rank)
    else if roster[0].member == member then Some(rank)
    else RankFrom(state, roster[1..], member, rank + 1)
  }

  function RankOf(state: RoleState, member: Name): Option<nat> {
    if EntryOf(state.roster, member).None? then None
    else if Holds(state, member) then Some(0)
    else RankFrom(state, state.roster, member, 0)
  }

  method ComputeRank(state: RoleState, member: Name) returns (rank: Option<nat>)
    ensures rank == RankOf(state, member)
  {
    if EntryOf(state.roster, member).None? { return None; }
    if Holds(state, member) { return Some(0); }
    var n := 0;
    assert state.roster[0..] == state.roster;
    for i := 0 to |state.roster|
      invariant RankFrom(state, state.roster, member, 0) == RankFrom(state, state.roster[i..], member, n)
    {
      var entry := state.roster[i];
      assert state.roster[i..][1..] == state.roster[i + 1..];
      if Holds(state, entry.member) { continue; }
      if entry.member == member { return Some(n); }
      n := n + 1;
    }
    rank := None;
  }

  /** The roster without the holder. */
  function Others(state: RoleState, roster: seq<Entry>): seq<Entry> {
    if roster == [] then []
    else if Holds(state, roster[0].member) then Others(state, roster[1..])
    else [roster[0]] + Others(state, roster[1..])
  }

  ghost predicate DistinctMembers(roster: seq<Entry>) {
    forall i, j :: 0 <= i < j < |roster| ==> roster[i].member != roster[j].member
  }

  lemma {:induction false} RankIsIndex(state: RoleState, roster: seq<Entry>, member: Name, rank: nat)
    requires DistinctMembers(roster) && !Holds(state, member)
    ensures match RankFrom(state, roster, member, rank)
            case Some(n) => rank <= n < rank + |Others(state, roster)| && Others(state, roster)[n - rank].member == member
            case None => EntryOf(roster, member).None?
    ensures forall k :: 0 <= k < |Others(state, roster)| && Others(state, roster)[k].member == member ==>
                          RankFrom(state, roster, member, rank) == Some(rank + k)
  {
    if roster != [] {
      RankIsIndex(state, roster[1..], member, if Holds(state, roster[0].member) then rank else rank + 1);
      if roster[0].member == member {
        OthersHaveMembersOf(state, roster[1..]);
        assert forall i :: 0 <= i < |roster[1..]| ==> roster[1..][i] == roster[i + 1];
      }
    }
  }

  lemma {:induction false} OthersHaveMembersOf(state: RoleState, roster: seq<Entry>)
    ensures forall k :: 0 <= k < |Others(state, roster)| ==>
                          Others(state, roster)[k] in roster && !Holds(state, Others(state, roster)[k].member)
    ensures forall e :: e in roster && !Holds(state, e.member) ==> e in Others(state, roster)
  {
    if roster != [] {
      OthersHaveMembersOf(state, roster[1..]);
      assert roster == [roster[0]] + roster[1..];
    }
  }

  lemma {:induction false} EntryOfMember(roster: seq<Entry>, member: Name)
    ensures EntryOf(roster, member).Some? ==> EntryOf(roster, member).value in roster && EntryOf(roster, member).value.member == member
    ensures EntryOf(roster, member).None? <==> forall e :: e in roster ==> e.member != member
  {
    if roster != [] {
      EntryOfMember(roster[1..], member);
      assert roster == [roster[0]] + roster[1..];
    }
  }

  /** A roster of a fold names every member once. */
  lemma {:induction false} RosterIsDistinct(members: map<Name, Slot>, roster: seq<Entry>)
    requires IsRoster(members, roster)
    ensures DistinctMembers(roster)
  {
    forall i, j | 0 <= i < j < |roster| ensures roster[i].member != roster[j].member {
      assert InRoster(members, roster[i]) && InRoster(members, roster[j]);
    }
  }

  lemma {:induction false} RanksAreIndexes(state: RoleState, member: Name)
    requires DistinctMembers(state.roster) && !Holds(state, member)
    ensures RankOf(state, member).Some? <==> exists e :: e in state.roster && e.member == member
    ensures RankOf(state, member).Some? ==>
              && RankOf(state, member).value < |Others(state, state.roster)|
              && Others(state, state.roster)[RankOf(state, member).value].member == member
    ensures forall k :: 0 <= k < |Others(state, state.roster)| && Others(state, state.roster)[k].member == member ==>
                          RankOf(state, member) == Some(k)
  {
    EntryOfMember(state.roster, member);
    RankIsIndex(state, state.roster, member, 0);
    OthersHaveMembersOf(state, state.roster);
  }

  /** In the state of any records the standbys map one to one onto the ranks from zero
      up, in offset order. */
  lemma {:induction false} RanksAreBijective(role: Name, records: seq<StateRecord>, state: RoleState, member: Name)
    requires IsRoleState(role, records, state) && !Holds(state, member)
    ensures RankOf(state, member).Some? <==> exists e :: e in state.roster && e.member == member
    ensures RankOf(state, member).Some? ==>
              && RankOf(state, member).value < |Others(state, state.roster)|
              && Others(state, state.roster)[RankOf(state, member).value].member == member
    ensures forall k :: 0 <= k < |Others(state, state.roster)| && Others(state, state.roster)[k].member == member ==>
                          RankOf(state, member) == Some(k)
  {
    RosterIsDistinct(Fold(role, records).value.members, state.roster);
    RanksAreIndexes(state, member);
  }

  // --------------------------------------------------------------- what to do

  datatype Decision = NotRegistered | Hold | Challenge | Wait(until: Int64)

  /** The decision of a member at an instant. */
  function Evaluate(state: RoleState, member: Name, now: Int64, config: LeaseConfig): Decision {
    var rank := RankOf(state, member);
    if EntryOf(state.roster, member).None? || rank.None? then NotRegistered
    else if state.lease.Some? && Holds(state, member) && LiveAt(state.lease.value, now) then Hold
    else
      var challengeAt :=
        if state.lease.Some? then config.ChallengeAt(state.lease.value, Wrap(rank.value))
        else AddMillis(EntryOf(state.roster, member).value.registeredAt, config.ChallengeDelay(Wrap(rank.value)));
      if now >= challengeAt then Challenge else Wait(challengeAt)
  }

  /** The instant from which a member challenges: a matter of the role state, not of
      the present. */
  function ChallengeInstant(state: RoleState, member: Name, config: LeaseConfig): Int64
    requires RankOf(state, member).Some?
  {
    var delay := config.ChallengeDelay(Wrap(RankOf(state, member).value));
    match state.lease
    case Some(lease) => AddMillis(lease.deadline, delay)
    case None => AddMillis(EntryOf(state.roster, member).value.registeredAt, delay)
  }

  /** A member challenges exactly from its instant on; before it the holder holds,
      and any other member waits for exactly that instant. */
  lemma {:induction false} EvaluateIsTimed(state: RoleState, member: Name, now: Int64, config: LeaseConfig)
    requires config.Legal() && RankOf(state, member).Some?
    ensures var instant := ChallengeInstant(state, member, config);
            && Evaluate(state, member, now, config)
               == (if now >= instant then Challenge else if Holds(state, member) then Hold else Wait(instant))
            && (Holds(state, member) ==> instant == state.lease.value.deadline)
  {
    if Holds(state, member) {
      AddMillisIsExact(state.lease.value.deadline, 0);
    }
  }

  /** The instant in plain arithmetic: the deadline of the lease, or without one the
      registration, and the stagger for every rank before. */
  lemma {:induction false} InstantIsExact(state: RoleState, member: Name, config: LeaseConfig)
    requires config.Legal() && RankOf(state, member).Some? && |state.roster| <= MAX_INT64
    ensures var start := if state.lease.Some? then state.lease.value.deadline else EntryOf(state.roster, member).value.registeredAt;
            ChallengeInstant(state, member, config)
            == Saturated(start + Saturated(RankOf(state, member).value * config.challengeStagger) / NANOS_PER_MILLI)
  {
    var rank := RankOf(state, member).value;
    RankIsSmall(state, state.roster, member, 0);
    ChallengeDelayIsExact(config, rank);
    DelayIsMonotone(config, 0, rank);
    AddMillisIsExact(if state.lease.Some? then state.lease.value.deadline else EntryOf(state.roster, member).value.registeredAt,
                     config.ChallengeDelay(rank));
  }

  ghost predicate IsRegistered(state: RoleState, member: Name) { exists e :: e in state.roster && e.member == member }

  /** A registered member has a rank, and nobody else has. */
  lemma {:induction false} RegisteredIsRanked(state: RoleState, member: Name)
    ensures RankOf(state, member).Some? <==> IsRegistered(state, member)
  {
    EntryOfMember(state.roster, member);
    if !Holds(state, member) {
      ListedIsRanked(state, state.roster, member, 0);
    }
  }

  lemma {:induction false} ListedIsRanked(state: RoleState, roster: seq<Entry>, member: Name, rank: nat)
    requires !Holds(state, member)
    ensures RankFrom(state, roster, member, rank).Some? <==> exists e :: e in roster && e.member == member
  {
    if roster != [] {
      ListedIsRanked(state, roster[1..], member, rank);
      ListedIsRanked(state, roster[1..], member, rank + 1);
      assert roster == [roster[0]] + roster[1..];
    }
  }

  /** It is the turn of a registered member: it holds the role already, or its instant
      has come. */
  predicate IsDue(state: RoleState, member: Name, now: Int64, config: LeaseConfig)
    requires RankOf(state, member).Some?
  {
    Holds(state, member) || now >= ChallengeInstant(state, member, config)
  }

  /** What a decision comes to: register, wait, or take the role. */
  lemma {:induction false} DecisionIsDue(state: RoleState, member: Name, now: Int64, config: LeaseConfig)
    requires config.Legal()
    ensures Evaluate(state, member, now, config).NotRegistered? <==> !IsRegistered(state, member)
    ensures IsRegistered(state, member) ==> RankOf(state, member).Some?
    ensures IsRegistered(state, member) ==> (Evaluate(state, member, now, config).Wait? <==> !IsDue(state, member, now, config))
  {
    RegisteredIsRanked(state, member);
    if IsRegistered(state, member) {
      EvaluateIsTimed(state, member, now, config);
    } else {
      EntryOfMember(state.roster, member);
    }
  }

  /** The lease of another member is respected as long as it lives. */
  lemma {:induction false} LiveLeaseIsRespected(state: RoleState, member: Name, now: Int64, config: LeaseConfig)
    requires config.Legal() && RankOf(state, member).Some? && |state.roster| <= MAX_INT64
    requires state.lease.Some? && !Holds(state, member) && LiveAt(state.lease.value, now)
    ensures !IsDue(state, member, now, config)
  {
    SuccessionIsStaggered(state, member, member, config);
  }

  /** Under a lease nobody challenges before the deadline, nor a later standby
      before an earlier one. */
  lemma {:induction false} SuccessionIsStaggered(state: RoleState, a: Name, b: Name, config: LeaseConfig)
    requires config.Legal() && state.lease.Some? && |state.roster| <= MAX_INT64
    requires RankOf(state, a).Some? && RankOf(state, b).Some? && RankOf(state, a).value <= RankOf(state, b).value
    ensures state.lease.value.deadline <= ChallengeInstant(state, a, config) <= ChallengeInstant(state, b, config)
  {
    RankIsSmall(state, state.roster, b, 0);
    ChallengeAtIsMonotone(config, state.lease.value, RankOf(state, a).value, RankOf(state, b).value);
  }

  lemma {:induction false} RankIsSmall(state: RoleState, roster: seq<Entry>, member: Name, rank: nat)
    ensures RankFrom(state, roster, member, rank).Some? ==> RankFrom(state, roster, member, rank).value < rank + |roster|
  {
    if roster != [] {
      RankIsSmall(state, roster[1..], member, rank);
      RankIsSmall(state, roster[1..], member, rank + 1);
    }
  }

  // -------------------------------------------------------------- no failback

  function Without(roster: seq<Entry>, member: Name): seq<Entry> {
    if roster == [] then []
    else if roster[0].member == member then Without(roster[1..], member)
    else [roster[0]] + Without(roster[1..], member)
  }

  lemma {:induction false} WithoutKeepsOrder(roster: seq<Entry>, member: Name)
    requires forall i, j :: 0 <= i < j < |roster| ==> roster[i].offset < roster[j].offset
    ensures forall e :: e in Without(roster, member) <==> e in roster && e.member != member
    ensures forall i, j :: 0 <= i < j < |Without(roster, member)| ==> Without(roster, member)[i].offset < Without(roster, member)[j].offset
  {
    if roster != [] {
      WithoutKeepsOrder(roster[1..], member);
      assert roster == [roster[0]] + roster[1..];
      var rest := Without(roster[1..], member);
      forall i | 0 <= i < |rest| ensures roster[0].offset < rest[i].offset {
        assert rest[i] in roster[1..];
      }
    }
  }

  /** A registration above every other offset puts its member last, and keeps the
      others as they were. */
  lemma {:induction false} JoinsLast(members: map<Name, Slot>, roster: seq<Entry>, m: Name, slot: Slot)
    requires IsRoster(members, roster) && slot.registered && forall n :: n in members ==> members[n].offset < slot.offset
    ensures IsRoster(members[m := slot], Without(roster, m) + [Entry(m, slot.offset, slot.registeredAt)])
  {
    WithoutKeepsOrder(roster, m);
    var kept, last, now := Without(roster, m), Entry(m, slot.offset, slot.registeredAt), members[m := slot];
    var more := kept + [last];
    forall i | 0 <= i < |more| ensures InRoster(now, more[i]) {
      if i < |kept| {
        assert kept[i] in roster && InRoster(members, kept[i]);
      }
    }
    forall n | n in now && now[n].registered ensures Entry(n, now[n].offset, now[n].registeredAt) in more {
      if n != m {
        assert Entry(n, now[n].offset, now[n].registeredAt) in kept;
      } else {
        assert more[|kept|] == last;
      }
    }
    forall i, j | 0 <= i < j < |more| ensures more[i].offset < more[j].offset {
      if j == |kept| {
        assert kept[i] in roster && InRoster(members, kept[i]);
      }
    }
  }

  /** And it never worsens the rank of another member. */
  lemma {:induction false} RankNeverWorsens(state: RoleState, roster: seq<Entry>, e: Entry, member: Name, rank: nat, rank': nat)
    requires rank' <= rank && member != e.member
    ensures match (RankFrom(state, roster, member, rank), RankFrom(state, Without(roster, e.member) + [e], member, rank'))
            case (Some(before), Some(after)) => after <= before
            case (None, None) => true
            case _ => false
  {
    var now := Without(roster, e.member) + [e];
    if roster == [] {
      assert now == [e] && [e][1..] == [];
      assert RankFrom(state, [e], member, rank').None?;
    } else {
      var tail := Without(roster[1..], e.member) + [e];
      var next := if Holds(state, roster[0].member) then rank else rank + 1;
      if roster[0].member == e.member {
        assert now == tail;
        RankNeverWorsens(state, roster[1..], e, member, next, rank');
      } else {
        assert now[1..] == tail;
        RankNeverWorsens(state, roster[1..], e, member, next, if Holds(state, roster[0].member) then rank' else rank' + 1);
      }
    }
  }

  /** No failback: whoever joins or comes back is last, and no standby falls behind. */
  lemma {:induction false} NoFailback(slots: Slots, state: RoleState, m: Name, slot: Slot, member: Name)
    requires IsRoster(slots.members, state.roster) && state.lease == LeaseOf(slots)
    requires slot.registered && (forall n :: n in slots.members ==> slots.members[n].offset < slot.offset)
    requires member != m && RankOf(state, member).Some?
    ensures var after := Put(slots, MemberUpdate(m, slot));
            var state' := RoleState(Without(state.roster, m) + [Entry(m, slot.offset, slot.registeredAt)], state.lease);
            && IsRoster(after.members, state'.roster) && state'.lease == LeaseOf(after)
            && RankOf(state', member).Some? && RankOf(state', member).value <= RankOf(state, member).value
  {
    var e := Entry(m, slot.offset, slot.registeredAt);
    var state' := RoleState(Without(state.roster, m) + [e], state.lease);
    JoinsLast(slots.members, state.roster, m, slot);
    EntryOfMember(state.roster, member);
    EntryOfMember(state'.roster, member);
    WithoutKeepsOrder(state.roster, m);
    assert EntryOf(state.roster, member).value in Without(state.roster, m);
    RankNeverWorsens(state, state.roster, e, member, 0, 0);
    RankLooksAtLease(state, state', state'.roster, member, 0);
  }

  lemma {:induction false} RankLooksAtLease(a: RoleState, b: RoleState, roster: seq<Entry>, member: Name, rank: nat)
    requires a.lease == b.lease
    ensures RankFrom(a, roster, member, rank) == RankFrom(b, roster, member, rank)
  {
    if roster != [] {
      RankLooksAtLease(a, b, roster[1..], member, rank);
      RankLooksAtLease(a, b, roster[1..], member, rank + 1);
    }
  }
}
