/** The alignment of a runner on the cuts of a barrier group: one pure step for
    every operation of the aligner. */
module Barriers {
  import opened Wrappers
  import opened Records
  import opened IntOrders

  /** The records of each partition, in the order they were fetched. */
  type Polled = map<TopicPartition, seq<Record>>

  type Offsets = map<TopicPartition, int>

  /** The offset of the marker of one epoch in every partition that received it. */
  datatype Cut = Cut(epoch: int, complete: bool, offsets: Offsets)

  datatype Aligner = Aligner(
    lastEpoch: int,
    pending: Option<Cut>,
    aligned: Offsets,
    reached: set<TopicPartition>,
    held: Polled,
    positions: Offsets,
    assignment: set<TopicPartition>)

  const NEW_ALIGNER := Aligner(-1, None, map[], {}, map[], map[], {})

  /** What a runner reached: the cut, the logical partitions it snapshots and the
      offsets it commits. */
  datatype Barrier = Barrier(cut: Cut, partitions: seq<int>, offsets: Offsets)

  function Max(a: int, b: int): int { if a < b then b else a }

  function PositionOf(positions: Offsets, tp: TopicPartition): int {
    if tp in positions then positions[tp] else 0
  }

  function RecordsOf(polled: Polled, tp: TopicPartition): seq<Record> {
    if tp in polled then polled[tp] else []
  }

  /** Without an assignment the runner waits for every partition of a cut. */
  predicate Owns(a: Aligner, tp: TopicPartition) { a.assignment == {} || tp in a.assignment }

  function AlignedOf(a: Aligner, cut: Cut): Offsets { OwnedPart(a.assignment, cut.offsets) }

  function OwnedPart(assignment: set<TopicPartition>, offsets: Offsets): Offsets {
    map tp | tp in offsets && (assignment == {} || tp in assignment) :: offsets[tp]
  }

  function Passed(positions: Offsets, cut: Offsets): set<TopicPartition> {
    set tp | tp in cut && PositionOf(positions, tp) >= cut[tp]
  }

  function Realign(a: Aligner): Aligner
    requires a.pending.Some?
  {
    var aligned := AlignedOf(a, a.pending.value);
    a.(aligned := aligned,
       reached := (set tp | tp in aligned && (tp in a.reached || PositionOf(a.positions, tp) >= aligned[tp])),
       held := map tp | tp in a.held && (tp in aligned || Owns(a, tp)) :: a.held[tp])
  }

  function Begin(a: Aligner, cut: Cut): Aligner {
    Realign(a.(pending := Some(cut), reached := {}))
  }

  /** Takes the oldest of the cuts the reader offers when none is pending. */
  function Refresh(a: Aligner, assignment: set<TopicPartition>, cuts: seq<Cut>): Aligner {
    var now := a.(assignment := assignment);
    if a.pending.Some? then Realign(now)
    else if cuts == [] then now
    else Begin(now, cuts[0])
  }

  /** What precedes a poll: a runner takes up the next cut and observes positions. */
  function Prepare(a: Aligner, assignment: set<TopicPartition>, cuts: seq<Cut>, reported: Option<Offsets>): Aligner {
    var refreshed := Refresh(a, assignment, cuts);
    match reported
    case None => refreshed
    case Some(positions) => ObservePositions(refreshed, positions)
  }

  function Raise(positions: Offsets, reported: Offsets): Offsets {
    map tp | tp in positions.Keys + reported.Keys ::
      if tp in reported then Max(PositionOf(positions, tp), reported[tp]) else positions[tp]
  }

  function ObservePositions(a: Aligner, reported: Offsets): Aligner {
    if a.pending.None? then a else Realign(a.(positions := Raise(a.positions, reported)))
  }

  /** The held records go in front of the fetched ones. */
  function Merge(held: Polled, polled: Polled): Polled {
    if held == map[] then polled
    else Append(held, polled)
  }

  function Append(held: Polled, polled: Polled): Polled {
    map tp | tp in held.Keys + polled.Keys :: RecordsOf(held, tp) + RecordsOf(polled, tp)
  }

  /** The first record at or past a cut, or the number of records. */
  function Split(records: seq<Record>, cut: int): (i: nat)
    ensures i <= |records| && (i < |records| ==> records[i].offset >= cut)
    ensures forall k :: 0 <= k < i ==> records[k].offset < cut
  {
    if records == [] then 0
    else
      var before := Split(records[..|records| - 1], cut);
      if before < |records| - 1 || records[|records| - 1].offset >= cut then before else |records|
  }

  function Taken(a: Aligner, tp: TopicPartition, records: seq<Record>): seq<Record> {
    if tp in a.aligned then records[..Split(records, a.aligned[tp])] else records
  }

  function Rest(a: Aligner, tp: TopicPartition, records: seq<Record>): seq<Record> {
    if tp in a.aligned then records[Split(records, a.aligned[tp])..] else []
  }

  function PositionAfter(a: Aligner, tp: TopicPartition, records: seq<Record>): int {
    if records == [] then PositionOf(a.positions, tp)
    else Max(PositionOf(a.positions, tp), records[|records| - 1].offset + 1)
  }

  /** Truncates the records of one partition at the cut and holds the rest. */
  function Accept(a: Aligner, tp: TopicPartition, records: seq<Record>): (Aligner, seq<Record>) {
    var position := PositionAfter(a, tp, records);
    var moved := a.(positions := if records == [] then a.positions else a.positions[tp := position]);
    if tp !in a.aligned then (moved, records)
    else
      (moved.(held := if Rest(a, tp, records) == [] then a.held
                      else a.held[tp := RecordsOf(a.held, tp) + Rest(a, tp, records)],
              reached := if position >= a.aligned[tp] then a.reached + {tp} else a.reached),
       Taken(a, tp, records))
  }

  /** The partitions that have records. */
  function Present(polled: Polled): (present: Polled)
    ensures AllPresent(present)
  {
    map tp | tp in polled && polled[tp] != [] :: polled[tp]
  }

  /** The logical partitions that have records. */
  function LogicalOf(polled: Polled): set<int> { set tp | tp in polled :: tp.partition }

  ghost predicate AllPresent(polled: Polled) { forall tp :: tp in polled ==> polled[tp] != [] }

  function PositionsAfter(a: Aligner, merged: Polled): Offsets {
    a.positions + map tp | tp in merged :: PositionAfter(a, tp, merged[tp])
  }

  function HeldAfter(a: Aligner, merged: Polled): Polled {
    AddHeld(a.held, merged, (tp, records) => Rest(a, tp, records))
  }

  /** The held records with what is left of each partition behind them. */
  function AddHeld(held: Polled, merged: Polled, left: (TopicPartition, seq<Record>) -> seq<Record>): Polled {
    held + LeftOver(held, merged, left)
  }

  function LeftOver(held: Polled, merged: Polled, left: (TopicPartition, seq<Record>) -> seq<Record>): Polled {
    map tp | tp in merged && left(tp, merged[tp]) != [] :: RecordsOf(held, tp) + left(tp, merged[tp])
  }

  function ReachedAfter(a: Aligner, merged: Polled): set<TopicPartition> {
    a.reached + set tp | tp in merged && tp in a.aligned && PositionAfter(a, tp, merged[tp]) >= a.aligned[tp]
  }

  /** Accepting every partition of a poll, in whatever order. */
  function AcceptAll(a: Aligner, merged: Polled): Aligner {
    a.(positions := PositionsAfter(a, merged), held := HeldAfter(a, merged), reached := ReachedAfter(a, merged))
  }

  /** What a round takes in: the nonempty truncated records. */
  function Accepted(a: Aligner, merged: Polled): Polled {
    map tp | tp in merged && Taken(a, tp, merged[tp]) != [] :: Taken(a, tp, merged[tp])
  }

  /** The aligner once every partition of a poll has been accepted, and what it
      let through. */
  datatype Intake = Intake(aligner: Aligner, taken: Polled)

  function TakeIn(a: Aligner, polled: Polled): Intake {
    var merged, emptied := Present(Merge(a.held, polled)), a.(held := map[]);
    Intake(AcceptAll(emptied, merged), Accepted(emptied, merged))
  }

  function OffsetsOf(accepted: Polled): Offsets {
    map tp | tp in accepted :: if accepted[tp] == [] then 0 else accepted[tp][|accepted[tp]| - 1].offset + 1
  }

  predicate Fired(a: Aligner) { a.pending.Some? && a.aligned.Keys <= a.reached }

  /** The offsets of a round, raised to the cut for the aligned partitions. */
  function Raised(a: Aligner, offsets: Offsets): Offsets { RaiseTo(offsets, a.aligned) }

  function RaiseTo(offsets: Offsets, cut: Offsets): Offsets {
    map tp | tp in offsets.Keys + cut.Keys ::
      if tp in cut && (tp !in offsets || offsets[tp] < cut[tp]) then cut[tp] else offsets[tp]
  }

  /** The part of the raised offsets that belongs to the cut. */
  function Committed(offsets: Offsets, cut: Offsets): Offsets {
    map tp | tp in cut :: RaiseTo(offsets, cut)[tp]
  }

  function Logical(offsets: Offsets): set<int> { set tp | tp in offsets :: tp.partition }

  function BarrierOf(a: Aligner, offsets: Offsets): Barrier
    requires a.pending.Some?
  {
    Barrier(a.pending.value, SortedInts(Logical(a.aligned)), Committed(offsets, a.aligned))
  }

  /** The barrier of a round, if it fires. */
  function BarrierBy(i: Intake): Option<Barrier> {
    if Fired(i.aligner) then Some(BarrierOf(i.aligner, OffsetsOf(i.taken))) else None
  }

  function FinishedBy(i: Intake): Aligner {
    if Fired(i.aligner) then Finish(i.aligner, BarrierOf(i.aligner, OffsetsOf(i.taken))) else i.aligner
  }

  /** The offsets a round commits. */
  function CommittedBy(i: Intake): Offsets {
    if Fired(i.aligner) then Raised(i.aligner, OffsetsOf(i.taken)) else OffsetsOf(i.taken)
  }

  function Finish(a: Aligner, barrier: Barrier): Aligner {
    a.(lastEpoch := barrier.cut.epoch, pending := None, aligned := map[], reached := {},
       positions := Raise(a.positions, barrier.offsets))
  }

  function Restored(a: Aligner, cut: Cut, targets: set<TopicPartition>): Aligner
    requires targets <= cut.offsets.Keys
  {
    a.(lastEpoch := cut.epoch, pending := None, aligned := map[], reached := {}, held := map[],
       positions := Overwrite(a.positions, cut.offsets, targets))
  }

  function Overwrite(positions: Offsets, cut: Offsets, targets: set<TopicPartition>): Offsets
    requires targets <= cut.Keys
  {
    map tp | tp in positions.Keys + targets :: if tp in targets then cut[tp] else positions[tp]
  }

  /** The partitions of a cut that a runner acts on when it restores. */
  function Targets(assignment: set<TopicPartition>, cut: Cut): set<TopicPartition> {
    set tp | tp in cut.offsets && (assignment == {} || tp in assignment)
  }

  // ---------------------------------------------------------------- one round

  /** The round takes in nothing at or past the cut. */
  ghost predicate TakesBelow(aligned: Offsets, taken: Polled) {
    forall tp :: tp in aligned && tp in taken ==>
                   taken[tp] != [] && taken[tp][|taken[tp]| - 1].offset < aligned[tp]
  }

  lemma {:induction false} RaisedIsTheCut(a: Aligner, taken: Polled)
    requires a.pending.Some? && TakesBelow(a.aligned, taken)
    ensures BarrierOf(a, OffsetsOf(taken)).offsets == a.aligned
    ensures forall tp :: tp in a.aligned ==> Raised(a, OffsetsOf(taken))[tp] == a.aligned[tp]
  {
  }

  lemma {:induction false} AcceptedIsBelow(a: Aligner, merged: Polled)
    ensures TakesBelow(a.aligned, Accepted(a, merged))
  {
    var taken: Polled := Accepted(a, merged);
    forall tp: TopicPartition | tp in a.aligned && tp in taken
      ensures taken[tp] != [] && taken[tp][|taken[tp]| - 1].offset < a.aligned[tp]
    {
      assert taken[tp] == merged[tp][..Split(merged[tp], a.aligned[tp])];
    }
  }

  /** Every offset a barrier commits is the offset of its cut, whatever was
      committed before: a round never takes in a record at or past the cut. */
  lemma {:induction false} BarrierCommitsTheCut(a: Aligner, merged: Polled)
    requires a.pending.Some?
    ensures BarrierOf(AcceptAll(a, merged), OffsetsOf(Accepted(a, merged))).offsets == a.aligned
  {
    AcceptedIsBelow(a, merged);
    RaisedIsTheCut(AcceptAll(a, merged), Accepted(a, merged));
  }

  lemma {:induction false} PositionsNext(a: Aligner, merged: Polled, tp: TopicPartition, records: seq<Record>)
    requires tp !in merged && records != []
    ensures PositionsAfter(a, merged[tp := records]) == PositionsAfter(a, merged)[tp := PositionAfter(a, tp, records)]
  {
  }

  lemma {:induction false} LeftOverNext(held: Polled, merged: Polled, left: (TopicPartition, seq<Record>) -> seq<Record>, tp: TopicPartition, records: seq<Record>)
    requires tp !in merged
    ensures tp !in LeftOver(held, merged, left)
    ensures LeftOver(held, merged[tp := records], left)
            == if left(tp, records) == [] then LeftOver(held, merged, left)
               else LeftOver(held, merged, left)[tp := RecordsOf(held, tp) + left(tp, records)]
  {
    var a, b := LeftOver(held, merged[tp := records], left), LeftOver(held, merged, left);
    assert forall k :: k != tp ==> (k in a <==> k in b);
    assert forall k :: k != tp && k in a ==> a[k] == b[k];
  }

  lemma {:induction false} HeldNext(held: Polled, merged: Polled, left: (TopicPartition, seq<Record>) -> seq<Record>, tp: TopicPartition, records: seq<Record>)
    requires tp !in merged
    ensures RecordsOf(AddHeld(held, merged, left), tp) == RecordsOf(held, tp)
    ensures AddHeld(held, merged[tp := records], left)
            == if left(tp, records) == [] then AddHeld(held, merged, left)
               else AddHeld(held, merged, left)[tp := RecordsOf(held, tp) + left(tp, records)]
  {
    LeftOverNext(held, merged, left, tp, records);
    if left(tp, records) != [] {
      assert held + LeftOver(held, merged, left)[tp := RecordsOf(held, tp) + left(tp, records)]
             == (held + LeftOver(held, merged, left))[tp := RecordsOf(held, tp) + left(tp, records)];
    }
  }

  lemma {:induction false} ReachedNext(a: Aligner, merged: Polled, tp: TopicPartition, records: seq<Record>)
    requires tp !in merged
    ensures ReachedAfter(a, merged[tp := records])
            == if tp in a.aligned && PositionAfter(a, tp, records) >= a.aligned[tp] then ReachedAfter(a, merged) + {tp}
               else ReachedAfter(a, merged)
  {
  }

  /** The order in which partitions are accepted does not matter. */
  lemma {:induction false} AcceptNext(a: Aligner, merged: Polled, tp: TopicPartition, records: seq<Record>)
    requires tp !in merged && records != []
    ensures var before := AcceptAll(a, merged);
            && Accept(before, tp, records).0 == AcceptAll(a, merged[tp := records])
            && Accept(before, tp, records).1 == Taken(a, tp, records)
  {
    PositionsNext(a, merged, tp, records);
    HeldNext(a.held, merged, (p, left) => Rest(a, p, left), tp, records);
    ReachedNext(a, merged, tp, records);
    assert PositionOf(PositionsAfter(a, merged), tp) == PositionOf(a.positions, tp);
  }
}
