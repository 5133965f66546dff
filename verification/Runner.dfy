/** One poll, process, send and commit cycle of a group runner, and what is left of
    it in the processors when it fails. */
module Runners {
  import opened Wrappers
  import opened ByteCodec
  import opened Records
  import opened Orders
  import opened IntOrders
  import opened Sequences
  import opened Topologies
  import opened PartitionSnapshots
  import opened BuiltTopologies
  import opened Barriers
  import opened BarrierAligners
  import TopologyMeanings
  import Decimal

  datatype Action = Fail | Skip | DeadLetter

  /** What to do with the records of a partition that failed, and what a failure is
      called in a dead letter. */
  datatype Policy = Policy(action: Action, deadLetterTopic: Bytes, className: Failure -> Bytes) {
    predicate Valid() { action == DeadLetter <==> deadLetterTopic != [] }

    /** A failure that stops the whole poll. */
    predicate Stops(failure: Failure) { action == Fail || failure.retriable }
  }

  /** A record of a failed batch as it was, with the cause and its origin in its last
      headers. */
  function DeadLetterOf(policy: Policy, topic: Bytes, record: Record, cause: Failure): Outgoing {
    Outgoing(record.key, record.value, record.timestamp,
             record.headers + [Header(Ascii("krabka.error.class"), Some(policy.className(cause))),
                               Header(Ascii("krabka.error.message"), Some(cause.message)),
                               Header(Ascii("krabka.source.topic"), Some(topic)),
                               Header(Ascii("krabka.source.partition"), Some(Decimal.IntText(record.partition))),
                               Header(Ascii("krabka.source.offset"), Some(Decimal.IntText(record.offset)))])
  }

  /** From a dead letter the record, its headers and the place it came from can be told. */
  lemma {:induction false} DeadLetterTellsOrigin(policy: Policy, topic: Bytes, record: Record, cause: Failure)
    ensures var letter := DeadLetterOf(policy, topic, record, cause);
            var n := |letter.headers| - 5;
            && n == |record.headers| && letter.headers[..n] == record.headers
            && letter.key == record.key && letter.value == record.value && letter.timestamp == record.timestamp
            && letter.headers[n + 1].value == Some(cause.message) && letter.headers[n + 2].value == Some(topic)
            && letter.headers[n + 3].value.Some? && Decimal.ParseInt(letter.headers[n + 3].value.value) == Some(record.partition)
            && letter.headers[n + 4].value.Some? && Decimal.ParseInt(letter.headers[n + 4].value.value) == Some(record.offset)
  {
    Decimal.ParseIntText(record.partition);
    Decimal.ParseIntText(record.offset);
  }

  const INVALID_POLICY := Failure([], false)

  /** The state of a partition before a round: its snapshots, if it had processors. */
  datatype Prior = Prior(existed: bool, snapshot: Snapshots)

  datatype Poll = Poll(offsets: Offsets, outputs: seq<Produced>, prior: map<int, Prior>, barrier: Option<Barrier>)

  // --------------------------------------------------------------- restoring

  ghost predicate IsPrior(nodes: Nodes, was: Processors, partition: int, prior: Prior) {
    prior.existed == (partition in was) && SnapshotAt(nodes, was, partition) == Ok(prior.snapshot)
  }

  method PriorStateOf(topology: BuiltTopology, partition: int) returns (r: Result<Prior, Failure>)
    ensures r.Ok? ==> IsPrior(topology.nodes, topology.processors, partition, r.value)
    ensures r.Ok? <==> SnapshotAt(topology.nodes, topology.processors, partition).Ok?
    ensures r.Err? ==> SnapshotAt(topology.nodes, topology.processors, partition) == Err(r.error)
  {
    var existed := topology.HasPartition(partition);
    var snapshot :- topology.SnapshotPartition(partition);
    r := Ok(Prior(existed, snapshot));
  }

  /** The processors of a partition, if it has any. */
  type Slot = Option<States>

  function SlotOf(processors: Processors, p: int): Slot {
    if p in processors then Some(processors[p]) else None
  }

  /** What a rollback leaves: new processors filled from the snapshot. */
  function Undone(nodes: Nodes, slot: Slot): Slot {
    match slot
    case None => None
    case Some(states) =>
      match Take(nodes, states)
      case Err(_) => slot
      case Ok(snapshots) =>
        match PartitionSnapshots.Restored(nodes, Fresh(nodes), snapshots)
        case Err(_) => slot
        case Ok(restored) => Some(restored)
  }

  ghost predicate RolledBack(nodes: Nodes, was: Processors, now: Processors, p: int) {
    SnapshotAt(nodes, was, p).Ok? && SlotOf(now, p) == Undone(nodes, SlotOf(was, p))
  }

  /** Untouched or rolled back. */
  ghost predicate PutBack(nodes: Nodes, was: Processors, now: Processors, p: int) {
    SameAt(was, now, p) || RolledBack(nodes, was, now, p)
  }

  /** The processors of a round can be rolled back: names are unique, and a fresh
      processor filled from its snapshot takes that snapshot again. */
  ghost predicate CanRollBack(nodes: Nodes, was: Processors) {
    UniqueNames(nodes) && forall p :: p in was ==> AllFaithfulAt(nodes, was[p])
  }

  /** Every partition looks as it did. */
  ghost predicate NoTrace(nodes: Nodes, was: Processors, now: Processors) {
    forall p :: LooksTheSame(nodes, was, now, p)
  }

  lemma {:induction false} PutBackLooksTheSame(nodes: Nodes, was: Processors, now: Processors, p: int)
    requires CanRollBack(nodes, was) && PutBack(nodes, was, now, p)
    ensures LooksTheSame(nodes, was, now, p) && (p in now ==> AllFaithfulAt(nodes, now[p]))
  {
    if !SameAt(was, now, p) && p in was {
      RestoredTakesTheSame(nodes, was[p]);
    }
  }

  /** Where every partition is put back a failed round leaves no trace, and the next
      one can be rolled back too. */
  lemma {:induction false} PutBackLeavesNoTrace(nodes: Nodes, was: Processors, now: Processors)
    requires CanRollBack(nodes, was) && forall p :: PutBack(nodes, was, now, p)
    ensures NoTrace(nodes, was, now) && CanRollBack(nodes, now)
  {
    forall p ensures LooksTheSame(nodes, was, now, p) && (p in now ==> AllFaithfulAt(nodes, now[p])) {
      PutBackLooksTheSame(nodes, was, now, p);
    }
  }

  /** Throws the processors of a partition away and fills new ones. */
  method RestorePrior(topology: BuiltTopology, partition: int, prior: Prior, ghost was: Processors)
    requires topology.Valid() && CanRollBack(topology.nodes, was) && IsPrior(topology.nodes, was, partition, prior)
    modifies topology
    ensures topology.Valid() && OnlyPartition(old(topology.processors), topology.processors, partition)
    ensures RolledBack(topology.nodes, was, topology.processors, partition)
    ensures LooksTheSame(topology.nodes, was, topology.processors, partition)
  {
    topology.ReleasePartition(partition);
    if prior.existed {
      RestoredTakesTheSame(topology.nodes, was[partition]);
      var _ := topology.RestorePartition(partition, prior.snapshot);
    }
  }

  /** Restores the partitions of a round; the others have not changed. */
  method Rollback(topology: BuiltTopology, prior: map<int, Prior>, ghost was: Processors)
    requires topology.Valid() && CanRollBack(topology.nodes, was)
    requires forall p :: p in prior ==> IsPrior(topology.nodes, was, p, prior[p])
    requires forall p :: p !in prior ==> PutBack(topology.nodes, was, topology.processors, p)
    modifies topology
    ensures topology.Valid()
    ensures forall p :: PutBack(topology.nodes, was, topology.processors, p)
    ensures NoTrace(topology.nodes, was, topology.processors) && CanRollBack(topology.nodes, topology.processors)
  {
    var rest := prior.Keys;
    while rest != {}
      invariant rest <= prior.Keys && topology.Valid()
      invariant forall p :: p !in rest ==> PutBack(topology.nodes, was, topology.processors, p)
      decreases |rest|
    {
      var p :| p in rest;
      rest := rest - {p};
      ghost var before := topology.processors;
      RestorePrior(topology, p, prior[p], was);
      OthersPutBack(topology.nodes, was, before, topology.processors, p, rest);
    }
    PutBackLeavesNoTrace(topology.nodes, was, topology.processors);
  }

  lemma {:induction false} OthersPutBack(nodes: Nodes, was: Processors, before: Processors, now: Processors, p: int, rest: set<int>)
    requires OnlyPartition(before, now, p) && PutBack(nodes, was, now, p)
    requires forall q :: q !in rest && q != p ==> PutBack(nodes, was, before, q)
    ensures forall q :: q !in rest ==> PutBack(nodes, was, now, q)
  {
    forall q | q !in rest ensures PutBack(nodes, was, now, q) {
      if q != p {
        assert PutBack(nodes, was, before, q);
        assert SlotOf(now, q) == SlotOf(before, q);
      }
    }
  }

  // ------------------------------------------------------- gathering the input

  /** The records of one logical partition by topic. */
  function InputOf(taken: Polled, partition: int): Input {
    map tp | tp in taken && tp.partition == partition :: tp.topic := taken[tp]
  }

  function ByPartition(taken: Polled): map<int, Input> {
    map p | p in LogicalOf(taken) :: InputOf(taken, p)
  }

  /** Every record taken in is given to its own partition, under its topic, and nothing
      else is given to anyone. */
  lemma {:induction false} GatheringIsExact(taken: Polled)
    ensures forall tp :: tp in taken ==>
              && tp.partition in ByPartition(taken) && tp.topic in ByPartition(taken)[tp.partition]
              && ByPartition(taken)[tp.partition][tp.topic] == taken[tp]
    ensures forall p, topic :: p in ByPartition(taken) && topic in ByPartition(taken)[p] ==> TopicPartition(topic, p) in taken
    ensures forall p :: p in ByPartition(taken) ==> ByPartition(taken)[p] != map[]
  {
    forall p | p in ByPartition(taken) ensures ByPartition(taken)[p] != map[] {
      var tp :| tp in taken && tp.partition == p;
      assert tp.topic in ByPartition(taken)[p];
    }
    forall tp | tp in taken
      ensures tp.partition in ByPartition(taken) && tp.topic in ByPartition(taken)[tp.partition]
      ensures ByPartition(taken)[tp.partition][tp.topic] == taken[tp]
    {
      assert tp.topic in InputOf(taken, tp.partition);
    }
  }

  lemma {:induction false} ByPartitionNext(taken: Polled, tp: TopicPartition, records: seq<Record>)
    requires tp !in taken
    ensures var before := ByPartition(taken);
            var inputs := if tp.partition in before then before[tp.partition] else map[];
            ByPartition(taken[tp := records]) == before[tp.partition := inputs[tp.topic := records]]
  {
    var before, after := ByPartition(taken), ByPartition(taken[tp := records]);
    var inputs := if tp.partition in before then before[tp.partition] else map[];
    forall p | p in after ensures after[p] == before[tp.partition := inputs[tp.topic := records]][p] {
      InputOfNext(taken, tp, records, p);
    }
    assert after.Keys == before.Keys + {tp.partition};
  }

  lemma {:induction false} InputOfOther(taken: Polled, tp: TopicPartition, records: seq<Record>, p: int)
    requires tp !in taken && p != tp.partition
    ensures InputOf(taken[tp := records], p) == InputOf(taken, p)
  {
    var a, b := InputOf(taken[tp := records], p), InputOf(taken, p);
    forall topic ensures topic in a <==> topic in b {
      assert topic in a ==> TopicPartition(topic, p) in taken;
      assert topic in b ==> TopicPartition(topic, p) in taken;
    }
    assert forall topic :: topic in a ==> a[topic] == b[topic];
  }

  lemma {:induction false} InputOfSame(taken: Polled, tp: TopicPartition, records: seq<Record>)
    requires tp !in taken
    ensures InputOf(taken[tp := records], tp.partition) == InputOf(taken, tp.partition)[tp.topic := records]
  {
    var p := tp.partition;
    var a, b := InputOf(taken[tp := records], p), InputOf(taken, p);
    assert tp in taken[tp := records];
    forall topic | topic != tp.topic ensures topic in a <==> topic in b {
      assert topic in a ==> TopicPartition(topic, p) in taken;
      assert topic in b ==> TopicPartition(topic, p) in taken;
    }
    forall topic | topic in a && topic != tp.topic ensures a[topic] == b[topic] {
      assert TopicPartition(topic, p) in taken;
    }
  }

  lemma {:induction false} InputOfNext(taken: Polled, tp: TopicPartition, records: seq<Record>, p: int)
    requires tp !in taken
    ensures InputOf(taken[tp := records], p)
            == if p == tp.partition then InputOf(taken, p)[tp.topic := records] else InputOf(taken, p)
    ensures p !in LogicalOf(taken) ==> InputOf(taken, p) == map[]
  {
    if p == tp.partition {
      InputOfSame(taken, tp, records);
    } else {
      InputOfOther(taken, tp, records, p);
    }
  }

  lemma {:induction false} AcceptedNext(a: Aligner, merged: Polled, tp: TopicPartition, records: seq<Record>)
    requires tp !in merged
    ensures tp !in Accepted(a, merged)
    ensures Accepted(a, merged[tp := records])
            == if Taken(a, tp, records) == [] then Accepted(a, merged) else Accepted(a, merged)[tp := Taken(a, tp, records)]
  {
    var b, c := Accepted(a, merged[tp := records]), Accepted(a, merged);
    assert forall k :: k != tp ==> (k in b <==> k in c);
    assert forall k :: k != tp && k in b ==> b[k] == c[k];
  }

  lemma {:induction false} OffsetsNext(taken: Polled, tp: TopicPartition, records: seq<Record>)
    requires tp !in taken && records != []
    ensures OffsetsOf(taken[tp := records]) == OffsetsOf(taken)[tp := records[|records| - 1].offset + 1]
  {
    var b, c := OffsetsOf(taken[tp := records]), OffsetsOf(taken);
    assert forall k :: k != tp ==> (k in b <==> k in c);
    assert forall k :: k != tp && k in b ==> b[k] == c[k];
  }

  /** The records of a poll by logical partition, and the offsets to commit. */
  datatype Gathered = Gathered(offsets: Offsets, byPartition: map<int, Input>)

  function GatheredOf(taken: Polled): Gathered { Gathered(OffsetsOf(taken), ByPartition(taken)) }

  function Gather(g: Gathered, tp: TopicPartition, records: seq<Record>): Gathered
    requires records != []
  {
    var inputs := if tp.partition in g.byPartition then g.byPartition[tp.partition] else map[];
    Gathered(g.offsets[tp := records[|records| - 1].offset + 1],
             g.byPartition[tp.partition := inputs[tp.topic := records]])
  }

  lemma {:induction false} GatherNext(taken: Polled, tp: TopicPartition, records: seq<Record>)
    requires tp !in taken && records != []
    ensures Gather(GatheredOf(taken), tp, records) == GatheredOf(taken[tp := records])
  {
    OffsetsNext(taken, tp, records);
    ByPartitionNext(taken, tp, records);
  }

  lemma {:induction false} PresentNext(polled: Polled, rest: set<TopicPartition>, tp: TopicPartition)
    requires tp in rest && tp in polled
    ensures tp !in Present(polled - rest)
    ensures Present(polled - (rest - {tp}))
            == if polled[tp] == [] then Present(polled - rest) else Present(polled - rest)[tp := polled[tp]]
  {
  }

  method GatherAll(polled: Polled) returns (g: Gathered)
    ensures g == GatheredOf(Present(polled))
  {
    g := Gathered(map[], map[]);
    var rest := polled.Keys;
    GatherNothing(polled);
    while rest != {}
      invariant rest <= polled.Keys && g == GatheredOf(Present(polled - rest))
      decreases |rest|
    {
      var tp :| tp in rest;
      PresentNext(polled, rest, tp);
      if |polled[tp]| > 0 {
        GatherNext(Present(polled - rest), tp, polled[tp]);
        g := Gather(g, tp, polled[tp]);
      }
      rest := rest - {tp};
    }
    assert polled - {} == polled;
  }

  lemma {:induction false} GatherNothing(polled: Polled)
    ensures GatheredOf(Present(polled - polled.Keys)) == Gathered(map[], map[])
  {
    assert Present(polled - polled.Keys) == map[];
  }

  /** With a barrier every partition is truncated at the pending cut. */
  method GatherAligned(aligner: BarrierAligner, polled: Polled) returns (g: Gathered)
    requires aligner.held == map[]
    modifies aligner
    ensures aligner.Content() == AcceptAll(old(aligner.Content()), Present(polled))
    ensures g == GatheredOf(Accepted(old(aligner.Content()), Present(polled)))
  {
    ghost var a := aligner.Content();
    g := Gathered(map[], map[]);
    var rest := polled.Keys;
    GatherNoneAligned(a, polled);
    while rest != {}
      invariant rest <= polled.Keys
      invariant aligner.Content() == AcceptAll(a, Present(polled - rest))
      invariant g == GatheredOf(Accepted(a, Present(polled - rest)))
      decreases |rest|
    {
      var tp :| tp in rest;
      PresentNext(polled, rest, tp);
      if |polled[tp]| > 0 {
        ghost var before := Present(polled - rest);
        AcceptNext(a, before, tp, polled[tp]);
        AcceptedNext(a, before, tp, polled[tp]);
        var taken := aligner.AcceptRecords(tp, polled[tp]);
        if |taken| > 0 {
          GatherNext(Accepted(a, before), tp, taken);
          g := Gather(g, tp, taken);
        }
      }
      rest := rest - {tp};
    }
    assert polled - {} == polled;
  }

  lemma {:induction false} GatherNoneAligned(a: Aligner, polled: Polled)
    requires a.held == map[]
    ensures AcceptAll(a, Present(polled - polled.Keys)) == a
    ensures GatheredOf(Accepted(a, Present(polled - polled.Keys))) == Gathered(map[], map[])
  {
    assert Present(polled - polled.Keys) == map[];
    assert PositionsAfter(a, map[]) == a.positions;
    assert ReachedAfter(a, map[]) == a.reached;
    assert Accepted(a, map[]) == map[];
  }

  // ------------------------------------------------------ running the partitions

  /** What a partition would send, from the processors before the round. */
  function PartitionOutcome(nodes: Nodes, was: Processors, p: int, input: Input): Result<seq<Produced>, Failure>
    requires Ordered(nodes)
  {
    if !AllBelong(input, p) then Err(WRONG_PARTITION)
    else Produce(Outcomes(nodes, StartOf(nodes, was, p), Trim(input)))
  }

  /** It is the evaluation of the topology from the states the partition has, or new ones:
      the sinks send what they are given, or the first node that fails has the failure. */
  lemma {:induction false} OutcomeIsEvaluation(nodes: Nodes, was: Processors, p: int, input: Input)
    requires Ordered(nodes)
    ensures var start := if p in was then was[p] else Fresh(nodes);
            var given := map topic | topic in input && input[topic] != [] :: input[topic];
            var frames := TopologyMeanings.Frames(nodes, start, given);
            match PartitionOutcome(nodes, was, p, input)
            case Ok(sent) =>
              AllBelong(input, p)
              && exists blocks :: TopologyMeanings.AllSend(nodes, given, frames, blocks) && IsConcatenation(blocks, sent)
            case Err(failure) =>
              if !AllBelong(input, p) then failure == WRONG_PARTITION
              else exists i: nat :: i < |nodes| && TopologyMeanings.Fails(nodes, frames, i, failure)
                                    && forall j: nat :: j < i ==> Topologies.Succeeds(nodes, start, given, j)
  {
    TopologyMeanings.RunSendsAll(nodes, if p in was then was[p] else Fresh(nodes), Trim(input));
  }

  /** The processors a partition would leave. */
  function PartitionAfter(nodes: Nodes, was: Processors, p: int, input: Input): Processors
    requires Ordered(nodes)
  {
    Reached(nodes, was, p, Outcomes(nodes, StartOf(nodes, was, p), Trim(input)), |nodes|)
  }

  function Letters(policy: Policy, topic: Bytes, records: seq<Record>, cause: Failure): (r: seq<Produced>)
    ensures |r| == |records|
  {
    seq(|records|, k requires 0 <= k < |records| => Produced(policy.deadLetterTopic, DeadLetterOf(policy, topic, records[k], cause)))
  }

  function AllLetters(policy: Policy, input: Input, topics: seq<Bytes>, cause: Failure): seq<Produced>
    requires forall topic :: topic in topics ==> topic in input
  {
    if topics == [] then []
    else
      var last := topics[|topics| - 1];
      AllLetters(policy, input, topics[..|topics| - 1], cause) + Letters(policy, last, input[last], cause)
  }

  /** What a round sends for a partition: its output, or under the dead-letter
      policy its records with the cause. */
  function OutputOf(policy: Policy, input: Input, outcome: Result<seq<Produced>, Failure>): seq<Produced> {
    match outcome
    case Ok(sent) => sent
    case Err(cause) => if policy.action == DeadLetter then AllLetters(policy, input, Sorted(input.Keys), cause) else []
  }

  function OutputsOf(policy: Policy, nodes: Nodes, was: Processors, inputs: map<int, Input>, partitions: seq<int>): seq<Produced>
    requires Ordered(nodes) && forall p :: p in partitions ==> p in inputs
  {
    if partitions == [] then []
    else
      var last := partitions[|partitions| - 1];
      OutputsOf(policy, nodes, was, inputs, partitions[..|partitions| - 1])
      + OutputOf(policy, inputs[last], PartitionOutcome(nodes, was, last, inputs[last]))
  }

  /** Where a partition stands after its turn: advanced with its prior state on
      record, or failed and rolled back. */
  ghost predicate Ran(nodes: Nodes, was: Processors, now: Processors, prior: map<int, Prior>, p: int, input: Input)
    requires Ordered(nodes)
  {
    if PartitionOutcome(nodes, was, p, input).Ok? then
      p in prior && IsPrior(nodes, was, p, prior[p]) && SameAt(PartitionAfter(nodes, was, p, input), now, p)
    else p !in prior && RolledBack(nodes, was, now, p)
  }

  ghost predicate RanUpTo(nodes: Nodes, was: Processors, now: Processors, prior: map<int, Prior>, inputs: map<int, Input>, done: seq<int>)
    requires Ordered(nodes) && forall p :: p in done ==> p in inputs
  {
    && (forall p :: p in prior ==> p in done)
    && (forall p :: p !in done ==> SameAt(was, now, p))
    && (forall p :: p in done ==> Ran(nodes, was, now, prior, p, inputs[p]))
  }

  lemma {:induction false} RanIsRecoverable(nodes: Nodes, was: Processors, now: Processors, prior: map<int, Prior>, inputs: map<int, Input>, done: seq<int>)
    requires Ordered(nodes) && (forall p :: p in done ==> p in inputs) && RanUpTo(nodes, was, now, prior, inputs, done)
    ensures forall p :: p in prior ==> IsPrior(nodes, was, p, prior[p])
    ensures forall p :: p !in prior ==> PutBack(nodes, was, now, p)
  {
    forall p ensures p in prior ==> IsPrior(nodes, was, p, prior[p]) ensures p !in prior ==> PutBack(nodes, was, now, p) {
      if p in done {
        assert Ran(nodes, was, now, prior, p, inputs[p]);
      } else {
        assert SameAt(was, now, p);
      }
    }
  }

  lemma {:induction false} RanNext(nodes: Nodes, was: Processors, before: Processors, now: Processors, prior: map<int, Prior>, prior': map<int, Prior>,
                inputs: map<int, Input>, done: seq<int>, p: int)
    requires Ordered(nodes) && (forall q :: q in done ==> q in inputs) && p in inputs && p !in done
    requires RanUpTo(nodes, was, before, prior, inputs, done)
    requires OnlyPartition(before, now, p)
    requires forall q :: q != p ==> (q in prior' <==> q in prior) && (q in prior' ==> prior'[q] == prior[q])
    requires Ran(nodes, was, now, prior', p, inputs[p])
    ensures RanUpTo(nodes, was, now, prior', inputs, done + [p])
  {
    forall q | q in done + [p] ensures Ran(nodes, was, now, prior', q, inputs[q]) {
      if q != p {
        assert Ran(nodes, was, before, prior, q, inputs[q]);
      }
    }
  }

  lemma {:induction false} FailedIsRecoverable(nodes: Nodes, was: Processors, before: Processors, now: Processors, prior: map<int, Prior>,
                            inputs: map<int, Input>, done: seq<int>, p: int)
    requires Ordered(nodes) && (forall q :: q in done ==> q in inputs) && RanUpTo(nodes, was, before, prior, inputs, done)
    requires OnlyPartition(before, now, p) && p !in done && PutBack(nodes, was, now, p)
    ensures forall q :: q in prior ==> IsPrior(nodes, was, q, prior[q])
    ensures forall q :: q !in prior ==> PutBack(nodes, was, now, q)
  {
    RanIsRecoverable(nodes, was, before, prior, inputs, done);
    forall q | q !in prior && q != p ensures PutBack(nodes, was, now, q) {
      assert PutBack(nodes, was, before, q);
    }
  }

  lemma {:induction false} TurnedNext(nodes: Nodes, was: Processors, before: Processors, now: Processors, prior: map<int, Prior>, next: Option<Prior>,
                   inputs: map<int, Input>, done: seq<int>, p: int)
    requires Ordered(nodes) && (forall q :: q in done ==> q in inputs) && p in inputs && p !in done
    requires RanUpTo(nodes, was, before, prior, inputs, done) && OnlyPartition(before, now, p)
    requires Turned(nodes, was, now, next, p, inputs[p])
    ensures RanUpTo(nodes, was, now, if next.Some? then prior[p := next.value] else prior, inputs, done + [p])
  {
    RanNext(nodes, was, before, now, prior, if next.Some? then prior[p := next.value] else prior, inputs, done, p);
  }

  lemma {:induction false} PartitionIsLocal(nodes: Nodes, a: Processors, b: Processors, p: int, input: Input)
    requires Ordered(nodes) && SameAt(a, b, p)
    ensures PartitionOutcome(nodes, a, p, input) == PartitionOutcome(nodes, b, p, input)
    ensures SameAt(PartitionAfter(nodes, a, p, input), PartitionAfter(nodes, b, p, input), p)
    ensures SnapshotAt(nodes, a, p) == SnapshotAt(nodes, b, p)
  {
  }

  /** A partition that succeeds, or whose failure does not stop the round. */
  predicate Goes(policy: Policy, nodes: Nodes, was: Processors, p: int, input: Input)
    requires Ordered(nodes)
  {
    match PartitionOutcome(nodes, was, p, input)
    case Ok(_) => true
    case Err(failure) => !policy.Stops(failure)
  }

  ghost predicate AllGo(policy: Policy, nodes: Nodes, was: Processors, inputs: map<int, Input>, partitions: seq<int>)
    requires Ordered(nodes) && forall p :: p in partitions ==> p in inputs
  {
    forall p :: p in partitions ==> Goes(policy, nodes, was, p, inputs[p])
  }

  /** As `Ran`, with the prior state of this partition alone. */
  ghost predicate Turned(nodes: Nodes, was: Processors, now: Processors, prior: Option<Prior>, p: int, input: Input)
    requires Ordered(nodes)
  {
    if PartitionOutcome(nodes, was, p, input).Ok? then
      prior.Some? && IsPrior(nodes, was, p, prior.value) && SameAt(PartitionAfter(nodes, was, p, input), now, p)
    else prior.None? && RolledBack(nodes, was, now, p)
  }

  // ------------------------------------------------ what a round sends, and when

  /** The dead letters of one topic: one for each of its records, in order. */
  ghost predicate AreLetters(policy: Policy, topic: Bytes, records: seq<Record>, cause: Failure, sent: seq<Produced>) {
    && |sent| == |records|
    && forall k :: 0 <= k < |sent| ==> sent[k] == Produced(policy.deadLetterTopic, DeadLetterOf(policy, topic, records[k], cause))
  }

  ghost predicate LetterBlocks(policy: Policy, input: Input, topics: seq<Bytes>, cause: Failure, blocks: seq<seq<Produced>>)
    requires forall topic :: topic in topics ==> topic in input
  {
    && |blocks| == |topics|
    && forall k :: 0 <= k < |topics| ==> AreLetters(policy, topics[k], input[topics[k]], cause, blocks[k])
  }

  /** The dead letters of every topic, topics in ascending order. */
  ghost predicate AreAllLetters(policy: Policy, input: Input, cause: Failure, sent: seq<Produced>) {
    exists topics, blocks ::
      && Ascends(topics) && (forall topic :: topic in topics <==> topic in input)
      && LetterBlocks(policy, input, topics, cause, blocks) && IsConcatenation(blocks, sent)
  }

  lemma {:induction false} LettersAreBlocks(policy: Policy, input: Input, topics: seq<Bytes>, cause: Failure)
    requires forall topic :: topic in topics ==> topic in input
    ensures exists blocks :: LetterBlocks(policy, input, topics, cause, blocks)
                             && IsConcatenation(blocks, AllLetters(policy, input, topics, cause))
  {
    if topics == [] {
      NoBlocks<Produced>();
      assert LetterBlocks(policy, input, topics, cause, []);
    } else {
      var before, last := topics[..|topics| - 1], topics[|topics| - 1];
      LettersAreBlocks(policy, input, before, cause);
      var blocks :| LetterBlocks(policy, input, before, cause, blocks)
                    && IsConcatenation(blocks, AllLetters(policy, input, before, cause));
      var next := Letters(policy, last, input[last], cause);
      OneMoreBlock(blocks, AllLetters(policy, input, before, cause), next);
      LetterBlocksNext(policy, input, topics, cause, blocks, next);
    }
  }

  lemma {:induction false} LetterBlocksNext(policy: Policy, input: Input, topics: seq<Bytes>, cause: Failure, blocks: seq<seq<Produced>>, next: seq<Produced>)
    requires topics != [] && forall topic :: topic in topics ==> topic in input
    requires LetterBlocks(policy, input, topics[..|topics| - 1], cause, blocks)
    requires next == Letters(policy, topics[|topics| - 1], input[topics[|topics| - 1]], cause)
    ensures LetterBlocks(policy, input, topics, cause, blocks + [next])
  {
    forall k | 0 <= k < |topics| ensures AreLetters(policy, topics[k], input[topics[k]], cause, (blocks + [next])[k]) {
      if k < |blocks| {
        assert topics[..|topics| - 1][k] == topics[k];
      }
    }
  }

  lemma {:induction false} SortedLettersAreAll(policy: Policy, input: Input, cause: Failure)
    ensures AreAllLetters(policy, input, cause, AllLetters(policy, input, Sorted(input.Keys), cause))
  {
    LettersAreBlocks(policy, input, Sorted(input.Keys), cause);
  }

  /** What one partition adds to the records of a round: all that its nodes send, in the
      states from before the round, or, when it failed, a dead letter for every record it
      was given, or nothing. */
  ghost predicate Contributes(policy: Policy, nodes: Nodes, was: Processors, p: int, input: Input, sent: seq<Produced>)
    requires Ordered(nodes)
  {
    match PartitionOutcome(nodes, was, p, input)
    case Ok(_) => Produce(Outcomes(nodes, StartOf(nodes, was, p), Trim(input))) == Ok(sent)
    case Err(cause) => if policy.action == DeadLetter then AreAllLetters(policy, input, cause, sent) else sent == []
  }

  /** A partition does not stop the round: its snapshot can be taken, and it succeeds or
      the policy puts up with its failure. */
  ghost predicate Proceeds(policy: Policy, nodes: Nodes, was: Processors, p: int, input: Input)
    requires Ordered(nodes)
  {
    && SnapshotAt(nodes, was, p).Ok?
    && (PartitionOutcome(nodes, was, p, input).Err? ==> policy.action != Fail && !PartitionOutcome(nodes, was, p, input).error.retriable)
  }

  /** It stops the round, with this failure. */
  ghost predicate StopsWith(policy: Policy, nodes: Nodes, was: Processors, p: int, input: Input, failure: Failure)
    requires Ordered(nodes)
  {
    match SnapshotAt(nodes, was, p)
    case Err(error) => failure == error
    case Ok(_) => PartitionOutcome(nodes, was, p, input) == Err(failure) && (policy.action == Fail || failure.retriable)
  }

  ghost predicate RoundBlocks(policy: Policy, nodes: Nodes, was: Processors, inputs: map<int, Input>, partitions: seq<int>, blocks: seq<seq<Produced>>)
    requires Ordered(nodes) && forall p :: p in partitions ==> p in inputs
  {
    && |blocks| == |partitions|
    && forall k :: 0 <= k < |partitions| ==> Contributes(policy, nodes, was, partitions[k], inputs[partitions[k]], blocks[k])
  }

  /** What some partitions add, one after the other. */
  ghost predicate AddUp(policy: Policy, nodes: Nodes, was: Processors, inputs: map<int, Input>, partitions: seq<int>, outputs: seq<Produced>)
    requires Ordered(nodes) && forall p :: p in partitions ==> p in inputs
  {
    exists blocks :: RoundBlocks(policy, nodes, was, inputs, partitions, blocks) && IsConcatenation(blocks, outputs)
  }

  lemma {:induction false} AddNothing(policy: Policy, nodes: Nodes, was: Processors, inputs: map<int, Input>)
    requires Ordered(nodes)
    ensures AddUp(policy, nodes, was, inputs, [], [])
  {
    NoBlocks<Produced>();
    assert RoundBlocks(policy, nodes, was, inputs, [], []);
  }

  lemma {:induction false} AddOneMore(policy: Policy, nodes: Nodes, was: Processors, inputs: map<int, Input>, done: seq<int>, outputs: seq<Produced>,
                                      p: int, sent: seq<Produced>)
    requires Ordered(nodes) && (forall q :: q in done ==> q in inputs) && p in inputs
    requires AddUp(policy, nodes, was, inputs, done, outputs) && Contributes(policy, nodes, was, p, inputs[p], sent)
    ensures AddUp(policy, nodes, was, inputs, done + [p], outputs + sent)
  {
    var blocks :| RoundBlocks(policy, nodes, was, inputs, done, blocks) && IsConcatenation(blocks, outputs);
    OneMoreBlock(blocks, outputs, sent);
    assert RoundBlocks(policy, nodes, was, inputs, done + [p], blocks + [sent]);
  }

  /** The round goes through all its partitions. */
  ghost predicate AllProceed(policy: Policy, nodes: Nodes, was: Processors, inputs: map<int, Input>)
    requires Ordered(nodes)
  {
    forall p :: p in inputs ==> Proceeds(policy, nodes, was, p, inputs[p])
  }

  /** Partition `k` is the first that stops the round, with this failure. */
  ghost predicate StopsFirst(policy: Policy, nodes: Nodes, was: Processors, inputs: map<int, Input>, partitions: seq<int>, failure: Failure, k: nat)
    requires Ordered(nodes) && forall p :: p in partitions ==> p in inputs
  {
    && k < |partitions|
    && StopsWith(policy, nodes, was, partitions[k], inputs[partitions[k]], failure)
    && GoThrough(policy, nodes, was, inputs, partitions[..k])
  }

  ghost predicate GoThrough(policy: Policy, nodes: Nodes, was: Processors, inputs: map<int, Input>, partitions: seq<int>)
    requires Ordered(nodes) && forall p :: p in partitions ==> p in inputs
  {
    forall p :: p in partitions ==> Proceeds(policy, nodes, was, p, inputs[p])
  }

  /** Some partitions went through, and this is what they add. */
  ghost predicate Through(policy: Policy, nodes: Nodes, was: Processors, inputs: map<int, Input>, partitions: seq<int>, outputs: seq<Produced>)
    requires Ordered(nodes) && forall p :: p in partitions ==> p in inputs
  {
    GoThrough(policy, nodes, was, inputs, partitions) && AddUp(policy, nodes, was, inputs, partitions, outputs)
  }

  lemma {:induction false} ThroughNext(policy: Policy, nodes: Nodes, was: Processors, inputs: map<int, Input>, partitions: seq<int>, i: nat,
                                       outputs: seq<Produced>, sent: seq<Produced>)
    requires Ordered(nodes) && i < |partitions| && forall p :: p in partitions ==> p in inputs
    requires Through(policy, nodes, was, inputs, partitions[..i], outputs)
    requires Proceeds(policy, nodes, was, partitions[i], inputs[partitions[i]])
    requires Contributes(policy, nodes, was, partitions[i], inputs[partitions[i]], sent)
    ensures Through(policy, nodes, was, inputs, partitions[..i + 1], outputs + sent)
  {
    assert partitions[..i + 1] == partitions[..i] + [partitions[i]];
    AddOneMore(policy, nodes, was, inputs, partitions[..i], outputs, partitions[i], sent);
  }

  lemma {:induction false} StopsThere(policy: Policy, nodes: Nodes, was: Processors, inputs: map<int, Input>, partitions: seq<int>, i: nat, failure: Failure)
    requires Ordered(nodes) && i < |partitions| && forall p :: p in partitions ==> p in inputs
    requires GoThrough(policy, nodes, was, inputs, partitions[..i])
    requires !Proceeds(policy, nodes, was, partitions[i], inputs[partitions[i]])
    requires StopsWith(policy, nodes, was, partitions[i], inputs[partitions[i]], failure)
    ensures !GoThrough(policy, nodes, was, inputs, partitions)
    ensures exists k :: StopsFirst(policy, nodes, was, inputs, partitions, failure, k)
  {
    assert partitions[i] in partitions;
    assert StopsFirst(policy, nodes, was, inputs, partitions, failure, i);
  }

  /** What a whole round sends: what its partitions add, in ascending order. */
  ghost predicate IsOutput(policy: Policy, nodes: Nodes, was: Processors, inputs: map<int, Input>, outputs: seq<Produced>)
    requires Ordered(nodes)
  {
    AddUp(policy, nodes, was, inputs, SortedInts(inputs.Keys), outputs)
  }

  lemma {:induction false} LettersAreUnique(policy: Policy, input: Input, cause: Failure, a: seq<Produced>, b: seq<Produced>)
    requires AreAllLetters(policy, input, cause, a) && AreAllLetters(policy, input, cause, b)
    ensures a == b
  {
    var t, x :| Ascends(t) && (forall topic :: topic in t <==> topic in input)
                && LetterBlocks(policy, input, t, cause, x) && IsConcatenation(x, a);
    var u, y :| Ascends(u) && (forall topic :: topic in u <==> topic in input)
                && LetterBlocks(policy, input, u, cause, y) && IsConcatenation(y, b);
    AscendingIsUnique(t, u);
    forall k | 0 <= k < |t| ensures x[k] == y[k] {
      assert AreLetters(policy, t[k], input[t[k]], cause, x[k]) && AreLetters(policy, t[k], input[t[k]], cause, y[k]);
    }
    assert x == y;
    ConcatenationIsUnique(x, a, b);
  }

  /** A round can send nothing else. */
  lemma {:induction false} OutputIsUnique(policy: Policy, nodes: Nodes, was: Processors, inputs: map<int, Input>, a: seq<Produced>, b: seq<Produced>)
    requires Ordered(nodes) && IsOutput(policy, nodes, was, inputs, a) && IsOutput(policy, nodes, was, inputs, b)
    ensures a == b
  {
    var partitions := SortedInts(inputs.Keys);
    var x :| RoundBlocks(policy, nodes, was, inputs, partitions, x) && IsConcatenation(x, a);
    var y :| RoundBlocks(policy, nodes, was, inputs, partitions, y) && IsConcatenation(y, b);
    BlocksAreUnique(policy, nodes, was, inputs, partitions, x, y);
    ConcatenationIsUnique(x, a, b);
  }

  lemma {:induction false} BlocksAreUnique(policy: Policy, nodes: Nodes, was: Processors, inputs: map<int, Input>, partitions: seq<int>,
                                           x: seq<seq<Produced>>, y: seq<seq<Produced>>)
    requires Ordered(nodes) && forall p :: p in partitions ==> p in inputs
    requires RoundBlocks(policy, nodes, was, inputs, partitions, x) && RoundBlocks(policy, nodes, was, inputs, partitions, y)
    ensures x == y
  {
    forall k | 0 <= k < |partitions| ensures x[k] == y[k] {
      ContributionIsUnique(policy, nodes, was, partitions[k], inputs[partitions[k]], x[k], y[k]);
    }
  }

  lemma {:induction false} ContributionIsUnique(policy: Policy, nodes: Nodes, was: Processors, p: int, input: Input, a: seq<Produced>, b: seq<Produced>)
    requires Ordered(nodes) && Contributes(policy, nodes, was, p, input, a) && Contributes(policy, nodes, was, p, input, b)
    ensures a == b
  {
    match PartitionOutcome(nodes, was, p, input) {
      case Err(cause) => if policy.action == DeadLetter { LettersAreUnique(policy, input, cause, a, b); }
      case Ok(_) =>
    }
  }

  /** The turn of one partition of a round. */
  method RunOne(topology: BuiltTopology, policy: Policy, p: int, input: Input, ghost was: Processors)
    returns (r: Result<(Option<Prior>, seq<Produced>), Failure>)
    requires topology.Valid() && CanRollBack(topology.nodes, was) && Complete(topology.nodes, was)
    requires SameAt(was, topology.processors, p)
    modifies topology
    ensures topology.Valid() && OnlyPartition(old(topology.processors), topology.processors, p)
    ensures r.Err? ==> PutBack(topology.nodes, was, topology.processors, p)
    ensures r.Ok? ==>
              && r.value.1 == OutputOf(policy, input, PartitionOutcome(topology.nodes, was, p, input))
              && Goes(policy, topology.nodes, was, p, input)
              && Turned(topology.nodes, was, topology.processors, r.value.0, p, input)
    ensures r.Ok? <==> Proceeds(policy, topology.nodes, was, p, input)
    ensures r.Ok? ==> Contributes(policy, topology.nodes, was, p, input, r.value.1)
    ensures r.Err? ==> StopsWith(policy, topology.nodes, was, p, input, r.error)
  {
    PartitionIsLocal(topology.nodes, was, topology.processors, p, input);
    var before :- PriorStateOf(topology, p);
    assert IsPrior(topology.nodes, was, p, before);
    var outcome := topology.RunPartition(p, input);
    if outcome.Ok? { return Ok((Some(before), outcome.value)); }
    RestorePrior(topology, p, before, was);
    if policy.action == Fail || outcome.error.retriable { return Err(outcome.error); }
    var letters: seq<Produced> := [];
    if policy.action == DeadLetter {
      letters := LettersFor(policy, input, outcome.error);
    }
    r := Ok((None, letters));
  }

  /** Dead letters for every record of a failed batch, topics in order. */
  method LettersFor(policy: Policy, input: Input, cause: Failure) returns (letters: seq<Produced>)
    ensures letters == AllLetters(policy, input, Sorted(input.Keys), cause)
    ensures AreAllLetters(policy, input, cause, letters)
  {
    letters := LettersOf(policy, input, Sorted(input.Keys), cause);
    SortedLettersAreAll(policy, input, cause);
  }

  method LettersOf(policy: Policy, input: Input, topics: seq<Bytes>, cause: Failure) returns (letters: seq<Produced>)
    requires forall topic :: topic in topics ==> topic in input
    ensures letters == AllLetters(policy, input, topics, cause)
  {
    letters := [];
    for i := 0 to |topics|
      invariant letters == AllLetters(policy, input, topics[..i], cause)
    {
      assert topics[..i + 1][..i] == topics[..i];
      letters := letters + Letters(policy, topics[i], input[topics[i]], cause);
    }
    assert topics[..|topics|] == topics;
  }

  /** The turns of some partitions: what they left, what they sent, and that none
      of them stopped the round. */
  ghost predicate RoundUpTo(policy: Policy, nodes: Nodes, was: Processors, now: Processors, prior: map<int, Prior>, outputs: seq<Produced>,
                            inputs: map<int, Input>, done: seq<int>)
    requires Ordered(nodes) && forall p :: p in done ==> p in inputs
  {
    && RanUpTo(nodes, was, now, prior, inputs, done)
    && outputs == OutputsOf(policy, nodes, was, inputs, done)
    && AllGo(policy, nodes, was, inputs, done)
  }

  lemma {:induction false} RoundNothing(policy: Policy, nodes: Nodes, was: Processors, inputs: map<int, Input>)
    requires Ordered(nodes)
    ensures RoundUpTo(policy, nodes, was, was, map[], [], inputs, [])
  {
  }

  lemma {:induction false} RoundNext(policy: Policy, nodes: Nodes, was: Processors, before: Processors, now: Processors, prior: map<int, Prior>,
                  outputs: seq<Produced>, next: Option<Prior>, inputs: map<int, Input>, done: seq<int>, p: int)
    requires Ordered(nodes) && (forall q :: q in done ==> q in inputs) && p in inputs && p !in done
    requires RoundUpTo(policy, nodes, was, before, prior, outputs, inputs, done) && OnlyPartition(before, now, p)
    requires Turned(nodes, was, now, next, p, inputs[p]) && Goes(policy, nodes, was, p, inputs[p])
    ensures RoundUpTo(policy, nodes, was, now, if next.Some? then prior[p := next.value] else prior,
                      outputs + OutputOf(policy, inputs[p], PartitionOutcome(nodes, was, p, inputs[p])), inputs, done + [p])
  {
    TurnedNext(nodes, was, before, now, prior, next, inputs, done, p);
    assert (done + [p])[..|done|] == done;
  }

  /** The next partition of a round. When it stops the round, every partition looks as it
      did before. */
  method RunNext(topology: BuiltTopology, policy: Policy, inputs: map<int, Input>, partitions: seq<int>, i: nat,
                 prior: map<int, Prior>, outputs: seq<Produced>, ghost was: Processors)
    returns (r: Result<(map<int, Prior>, seq<Produced>), Failure>)
    requires topology.Valid() && CanRollBack(topology.nodes, was) && BuiltTopologies.Complete(topology.nodes, was)
    requires i < |partitions| && forall p :: p in partitions ==> p in inputs
    requires forall i, j :: 0 <= i < j < |partitions| ==> partitions[i] < partitions[j]
    requires RoundUpTo(policy, topology.nodes, was, topology.processors, prior, outputs, inputs, partitions[..i])
    requires Through(policy, topology.nodes, was, inputs, partitions[..i], outputs)
    modifies topology
    ensures topology.Valid()
    ensures r.Err? ==> NoTrace(topology.nodes, was, topology.processors) && CanRollBack(topology.nodes, topology.processors)
    ensures r.Err? ==> !GoThrough(policy, topology.nodes, was, inputs, partitions)
    ensures r.Err? ==> exists k :: StopsFirst(policy, topology.nodes, was, inputs, partitions, r.error, k)
    ensures r.Ok? ==> RoundUpTo(policy, topology.nodes, was, topology.processors, r.value.0, r.value.1, inputs, partitions[..i + 1])
    ensures r.Ok? ==> Through(policy, topology.nodes, was, inputs, partitions[..i + 1], r.value.1)
  {
    var p := partitions[i];
    ghost var before := topology.processors;
    NotYetRun(topology.nodes, was, before, prior, inputs, partitions, i);
    var turn := RunOne(topology, policy, p, inputs[p], was);
    if turn.Err? {
      StopsThere(policy, topology.nodes, was, inputs, partitions, i, turn.error);
      FailedIsRecoverable(topology.nodes, was, before, topology.processors, prior, inputs, partitions[..i], p);
      Rollback(topology, prior, was);
      return Err(turn.error);
    }
    RoundNext(policy, topology.nodes, was, before, topology.processors, prior, outputs, turn.value.0, inputs, partitions[..i], p);
    ThroughNext(policy, topology.nodes, was, inputs, partitions, i, outputs, turn.value.1);
    assert partitions[..i + 1] == partitions[..i] + [p];
    r := Ok((if turn.value.0.Some? then prior[p := turn.value.0.value] else prior, outputs + turn.value.1));
  }

  /** Some partitions in turn. When one of them stops the round, every partition
      looks as it did before. */
  method RunEach(topology: BuiltTopology, policy: Policy, inputs: map<int, Input>, partitions: seq<int>)
    returns (r: Result<(map<int, Prior>, seq<Produced>), Failure>)
    requires topology.Valid() && CanRollBack(topology.nodes, topology.processors)
    requires forall p :: p in partitions ==> p in inputs
    requires forall i, j :: 0 <= i < j < |partitions| ==> partitions[i] < partitions[j]
    modifies topology
    ensures topology.Valid()
    ensures r.Err? ==>
              NoTrace(topology.nodes, old(topology.processors), topology.processors) && CanRollBack(topology.nodes, topology.processors)
    ensures r.Ok? ==> RoundUpTo(policy, topology.nodes, old(topology.processors), topology.processors, r.value.0, r.value.1, inputs, partitions)
    ensures r.Ok? ==> AddUp(policy, topology.nodes, old(topology.processors), inputs, partitions, r.value.1)
    ensures r.Ok? <==> GoThrough(policy, topology.nodes, old(topology.processors), inputs, partitions)
    ensures r.Err? ==> exists k :: StopsFirst(policy, topology.nodes, old(topology.processors), inputs, partitions, r.error, k)
  {
    ghost var was := topology.processors;
    var prior: map<int, Prior> := map[];
    var outputs: seq<Produced> := [];
    RoundNothing(policy, topology.nodes, was, inputs);
    AddNothing(policy, topology.nodes, was, inputs);
    assert partitions[..0] == [];
    for i := 0 to |partitions|
      invariant topology.Valid()
      invariant RoundUpTo(policy, topology.nodes, was, topology.processors, prior, outputs, inputs, partitions[..i])
      invariant Through(policy, topology.nodes, was, inputs, partitions[..i], outputs)
    {
      r := RunNext(topology, policy, inputs, partitions, i, prior, outputs, was);
      if r.Err? { return; }
      prior, outputs := r.value.0, r.value.1;
    }
    assert partitions[..|partitions|] == partitions;
    r := Ok((prior, outputs));
  }

  lemma {:induction false} NotYetRun(nodes: Nodes, was: Processors, now: Processors, prior: map<int, Prior>, inputs: map<int, Input>, partitions: seq<int>, i: nat)
    requires Ordered(nodes) && i < |partitions| && (forall p :: p in partitions ==> p in inputs)
    requires forall i, j :: 0 <= i < j < |partitions| ==> partitions[i] < partitions[j]
    requires RanUpTo(nodes, was, now, prior, inputs, partitions[..i])
    ensures partitions[i] !in partitions[..i] && SameAt(was, now, partitions[i])
  {
  }

  lemma {:induction false} AllGoThrough(policy: Policy, nodes: Nodes, was: Processors, inputs: map<int, Input>)
    requires Ordered(nodes)
    ensures GoThrough(policy, nodes, was, inputs, SortedInts(inputs.Keys)) <==> AllProceed(policy, nodes, was, inputs)
  {
    assert forall p :: p in SortedInts(inputs.Keys) <==> p in inputs;
  }

  /** The partitions of a round in ascending order. */
  method RunPartitions(topology: BuiltTopology, policy: Policy, inputs: map<int, Input>)
    returns (r: Result<(map<int, Prior>, seq<Produced>), Failure>)
    requires topology.Valid() && CanRollBack(topology.nodes, topology.processors)
    modifies topology
    ensures topology.Valid()
    ensures r.Err? ==>
              NoTrace(topology.nodes, old(topology.processors), topology.processors) && CanRollBack(topology.nodes, topology.processors)
    ensures r.Ok? ==> RoundUpTo(policy, topology.nodes, old(topology.processors), topology.processors, r.value.0, r.value.1, inputs, SortedInts(inputs.Keys))
    ensures r.Ok? ==> IsOutput(policy, topology.nodes, old(topology.processors), inputs, r.value.1)
    ensures r.Ok? <==> AllProceed(policy, topology.nodes, old(topology.processors), inputs)
    ensures r.Err? ==> exists k :: StopsFirst(policy, topology.nodes, old(topology.processors), inputs, SortedInts(inputs.Keys), r.error, k)
  {
    AllGoThrough(policy, topology.nodes, topology.processors, inputs);
    r := RunEach(topology, policy, inputs, SortedInts(inputs.Keys));
  }

  // ------------------------------------------------------------------- rounds

  /** How the world outside answers in a round: the broker to the records sent, the
      store to the snapshot of each partition, the broker to the offsets, and the
      producer to the beginning and the commit of its transaction, if there is one. */
  datatype Outside = Outside(
    send: seq<Produced> -> Option<Failure>,
    save: int -> Option<Failure>,
    commit: Option<Failure>,
    begin: Option<Failure>,
    transaction: Option<Failure>)
  {
    /** Everything that leaves with a poll is accepted. */
    predicate Accepts(poll: Poll, transactional: bool) {
      send(poll.outputs).None? && (poll.offsets != map[] ==> commit.None?) && (transactional ==> transaction.None?)
    }
  }

  /** The store holds the snapshot of each of these partitions, and nothing else in
      it has changed. */
  ghost predicate SavedUpTo(nodes: Nodes, now: Processors, was: Store, store: Store,
                            epoch: int, done: seq<int>)
  {
    && (forall p :: p in done ==> (p, epoch) in store && SnapshotAt(nodes, now, p) == Ok(store[(p, epoch)]))
    && (forall p, e :: (e != epoch || p !in done) ==>
          ((p, e) in store <==> (p, e) in was) && ((p, e) in store ==> store[(p, e)] == was[(p, e)]))
  }

  type Store = map<(int, int), Snapshots>

  /** A round whose partitions ran: those whose batch succeeded have advanced by it,
      those whose batch was skipped are rolled back, and no other has changed. */
  ghost predicate Advanced(policy: Policy, nodes: Nodes, was: Processors, now: Processors, inputs: map<int, Input>)
    requires Ordered(nodes)
  {
    && (forall p :: p !in inputs ==> SameAt(was, now, p))
    && (forall p :: p in inputs ==> AdvancedAt(policy, nodes, was, now, p, inputs[p]))
  }

  ghost predicate AdvancedAt(policy: Policy, nodes: Nodes, was: Processors, now: Processors, p: int, input: Input)
    requires Ordered(nodes)
  {
    && SnapshotAt(nodes, was, p).Ok?
    && match PartitionOutcome(nodes, was, p, input)
       case Ok(_) => SameAt(PartitionAfter(nodes, was, p, input), now, p)
       case Err(cause) => !policy.Stops(cause) && RolledBack(nodes, was, now, p)
  }

  lemma {:induction false} RoundAdvances(policy: Policy, nodes: Nodes, was: Processors, now: Processors, prior: map<int, Prior>,
                                         outputs: seq<Produced>, inputs: map<int, Input>)
    requires Ordered(nodes) && RoundUpTo(policy, nodes, was, now, prior, outputs, inputs, SortedInts(inputs.Keys))
    ensures Advanced(policy, nodes, was, now, inputs)
  {
    forall p | p in inputs ensures AdvancedAt(policy, nodes, was, now, p, inputs[p]) {
      assert p in SortedInts(inputs.Keys);
      assert Ran(nodes, was, now, prior, p, inputs[p]);
      assert Goes(policy, nodes, was, p, inputs[p]);
    }
  }

  /** The processors a partition has once a round went through. */
  function SlotAfter(nodes: Nodes, was: Processors, inputs: map<int, Input>, p: int): Slot
    requires Ordered(nodes)
  {
    if p !in inputs then SlotOf(was, p)
    else
      match PartitionOutcome(nodes, was, p, inputs[p])
      case Ok(_) => SlotOf(PartitionAfter(nodes, was, p, inputs[p]), p)
      case Err(_) => Undone(nodes, SlotOf(was, p))
  }

  /** The snapshot of every partition of a barrier can be taken and is saved. */
  ghost predicate CanSave(nodes: Nodes, now: Processors, i: Intake, save: int -> Option<Failure>) {
    BarrierBy(i).Some? ==>
      forall p :: p in BarrierBy(i).value.partitions ==> SnapshotAt(nodes, now, p).Ok? && save(p).None?
  }

  /** The same, told from the processors before the round. */
  ghost predicate CanSaveAfter(nodes: Nodes, was: Processors, i: Intake, save: int -> Option<Failure>)
    requires Ordered(nodes)
  {
    BarrierBy(i).Some? ==>
      forall p :: p in BarrierBy(i).value.partitions ==>
                    SnapshotOf(nodes, SlotAfter(nodes, was, ByPartition(i.taken), p)).Ok? && save(p).None?
  }

  function SnapshotOf(nodes: Nodes, slot: Slot): Result<Snapshots, Failure> {
    match slot
    case None => Ok(map[])
    case Some(states) => Take(nodes, states)
  }

  lemma {:induction false} AdvancedSlot(policy: Policy, nodes: Nodes, was: Processors, now: Processors, inputs: map<int, Input>, p: int)
    requires Ordered(nodes) && Advanced(policy, nodes, was, now, inputs)
    ensures SlotOf(now, p) == SlotAfter(nodes, was, inputs, p)
    ensures SnapshotAt(nodes, now, p) == SnapshotOf(nodes, SlotAfter(nodes, was, inputs, p))
  {
    if p in inputs {
      assert AdvancedAt(policy, nodes, was, now, p, inputs[p]);
    }
  }

  lemma {:induction false} SavingIsForeseen(policy: Policy, nodes: Nodes, was: Processors, now: Processors, i: Intake, save: int -> Option<Failure>)
    requires Ordered(nodes) && Advanced(policy, nodes, was, now, ByPartition(i.taken))
    ensures CanSave(nodes, now, i, save) <==> CanSaveAfter(nodes, was, i, save)
  {
    forall p ensures SnapshotAt(nodes, now, p) == SnapshotOf(nodes, SlotAfter(nodes, was, ByPartition(i.taken), p)) {
      AdvancedSlot(policy, nodes, was, now, ByPartition(i.taken), p);
    }
  }

  /** What a round sends. */
  function RoundSends(policy: Policy, nodes: Nodes, was: Processors, taken: Polled): seq<Produced>
    requires Ordered(nodes)
  {
    OutputsOf(policy, nodes, was, ByPartition(taken), SortedInts(ByPartition(taken).Keys))
  }

  /** What a round that succeeds leaves in the store: the snapshots of a barrier that
      fired. */
  ghost predicate Stored(nodes: Nodes, now: Processors, was: Store, store: Store, i: Intake) {
    match BarrierBy(i)
    case None => store == was
    case Some(barrier) => SavedUpTo(nodes, now, was, store, barrier.cut.epoch, barrier.partitions)
  }

  /** What one that fails leaves: nothing new, or the snapshots of some partitions of
      a barrier, as the partitions stood before they were rolled back. */
  ghost predicate PartlyStored(policy: Policy, nodes: Nodes, was: Processors, before: Store, store: Store, i: Intake)
    requires Ordered(nodes)
  {
    store == before || exists now: Processors, n: nat :: StoredSome(policy, nodes, was, now, before, store, i, n)
  }

  ghost predicate StoredSome(policy: Policy, nodes: Nodes, was: Processors, now: Processors, before: Store, store: Store, i: Intake, n: nat)
    requires Ordered(nodes)
  {
    && Advanced(policy, nodes, was, now, ByPartition(i.taken))
    && BarrierBy(i).Some? && n <= |BarrierBy(i).value.partitions|
    && SavedUpTo(nodes, now, before, store, BarrierBy(i).value.cut.epoch, BarrierBy(i).value.partitions[..n])
  }

  /** What the group hands a runner before a round: its assignment, the complete cuts
      above the last epoch, and positions if the consumer can report them. */
  datatype Offer = Offer(assignment: set<TopicPartition>, cuts: Result<seq<Cut>, Failure>, reported: Option<Result<Offsets, Failure>>) {
    function Cuts(): seq<Cut> {
      match cuts
      case Ok(value) => value
      case Err(_) => []
    }

    /** Positions are asked for once the runner has an assignment. */
    function Reported(): Option<Offsets> {
      if assignment == {} then None
      else
        match reported
        case None => None
        case Some(Ok(value)) => Some(value)
        case Some(Err(_)) => None
    }
  }

  class GroupRun {
    const topology: BuiltTopology
    const aligner: BarrierAligner?
    const policy: Policy
    var store: Store

    constructor (topology: BuiltTopology, aligner: BarrierAligner?, policy: Policy)
      ensures this.topology == topology && this.aligner == aligner && this.policy == policy && store == map[]
    {
      this.topology, this.aligner, this.policy := topology, aligner, policy;
      store := map[];
    }

    ghost predicate Ready()
      reads topology
    {
      topology.Valid() && CanRollBack(topology.nodes, topology.processors)
    }

    ghost function Aligners(): set<object> { if aligner == null then {} else {aligner} }

    /** Where the aligner stands; without one nothing is ever pending. */
    ghost function Alignment(): Aligner
      reads Aligners()
    {
      if aligner == null then NEW_ALIGNER else aligner.Content()
    }

    /** What a round takes in of the polled records from here. */
    ghost function IntakeFrom(a: Aligner, polled: Polled): Intake {
      if aligner == null then Intake(NEW_ALIGNER, Present(polled)) else TakeIn(a, polled)
    }

    method Collect(polled: Polled) returns (g: Gathered)
      modifies Aligners()
      ensures var i := IntakeFrom(old(Alignment()), polled); g == GatheredOf(i.taken) && Alignment() == i.aligner
    {
      if aligner == null {
        g := GatherAll(polled);
      } else {
        var merged := aligner.MergeHeld(polled);
        g := GatherAligned(aligner, merged);
      }
    }

    /** Polls, aligns and runs every partition. When it fails, every partition looks
        as it did before. */
    method ProcessPoll(fetched: Result<Polled, Failure>) returns (r: Result<Poll, Failure>)
      requires Ready()
      modifies topology, Aligners()
      ensures topology.Valid()
      ensures r.Err? ==> NoTrace(topology.nodes, old(topology.processors), topology.processors) && Ready()
      ensures r.Ok? ==>
                && policy.Valid() && fetched.Ok?
                && Processed(old(topology.processors), r.value, IntakeFrom(old(Alignment()), fetched.value))
                && Alignment() == IntakeFrom(old(Alignment()), fetched.value).aligner
      ensures r.Ok? <==>
                && policy.Valid() && fetched.Ok?
                && AllProceed(policy, topology.nodes, old(topology.processors), ByPartition(IntakeFrom(old(Alignment()), fetched.value).taken))
      ensures r.Ok? ==> IsOutput(policy, topology.nodes, old(topology.processors),
                                 ByPartition(IntakeFrom(old(Alignment()), fetched.value).taken), r.value.outputs)
    {
      if !policy.Valid() { return Err(INVALID_POLICY); }
      var polled :- fetched;
      var g := Collect(polled);
      r := RunGathered(g, IntakeFrom(old(Alignment()), polled));
    }

    /** Runs what was taken in and announces the barrier of the round. */
    method RunGathered(g: Gathered, ghost i: Intake) returns (r: Result<Poll, Failure>)
      requires Ready() && g == GatheredOf(i.taken) && Alignment() == i.aligner
      modifies topology
      ensures topology.Valid()
      ensures r.Err? ==> NoTrace(topology.nodes, old(topology.processors), topology.processors) && Ready()
      ensures r.Ok? ==> Processed(old(topology.processors), r.value, i)
      ensures r.Ok? <==> AllProceed(policy, topology.nodes, old(topology.processors), ByPartition(i.taken))
      ensures r.Ok? ==> IsOutput(policy, topology.nodes, old(topology.processors), ByPartition(i.taken), r.value.outputs)
    {
      var run :- RunPartitions(topology, policy, g.byPartition);
      var offsets, barrier := Announce(g.offsets, i);
      r := Ok(Poll(offsets, run.1, run.0, barrier));
    }

    /** The barrier of a round that fired, and the offsets raised to its cut. */
    method Announce(taken: Offsets, ghost i: Intake) returns (offsets: Offsets, barrier: Option<Barrier>)
      requires taken == OffsetsOf(i.taken) && Alignment() == i.aligner
      ensures offsets == CommittedBy(i) && barrier == BarrierBy(i)
    {
      offsets, barrier := taken, None;
      if aligner != null {
        var fired := aligner.HasFired();
        if fired {
          var b;
          offsets, b := aligner.Describe(taken);
          barrier := Some(b);
        }
      }
    }

    /** A poll that was processed: the partitions ran, and the offsets are those of
        the records taken in, raised to the cut of a barrier that fired. */
    ghost predicate Processed(was: Processors, poll: Poll, i: Intake)
      requires topology.Valid()
      reads topology
    {
      && RoundUpTo(policy, topology.nodes, was, topology.processors, poll.prior, poll.outputs, ByPartition(i.taken),
                   SortedInts(ByPartition(i.taken).Keys))
      && poll.offsets == CommittedBy(i) && poll.barrier == BarrierBy(i)
    }

    /** Saves the snapshot of every partition of a barrier under its epoch. */
    method SaveBarrier(barrier: Barrier, save: int -> Option<Failure>) returns (failure: Option<Failure>, ghost n: nat)
      modifies `store
      ensures n <= |barrier.partitions| && (failure.None? ==> n == |barrier.partitions|)
      ensures SavedUpTo(topology.nodes, topology.processors, old(store), store, barrier.cut.epoch, barrier.partitions[..n])
      ensures failure.None? <==>
                forall p :: p in barrier.partitions ==> SnapshotAt(topology.nodes, topology.processors, p).Ok? && save(p).None?
    {
      n := 0;
      for i := 0 to |barrier.partitions|
        invariant n == i
        invariant SavedUpTo(topology.nodes, topology.processors, old(store), store, barrier.cut.epoch, barrier.partitions[..i])
        invariant forall k :: 0 <= k < i ==> SnapshotAt(topology.nodes, topology.processors, barrier.partitions[k]).Ok? && save(barrier.partitions[k]).None?
      {
        var p := barrier.partitions[i];
        var snapshot := topology.SnapshotPartition(p);
        if snapshot.Err? { return Some(snapshot.error), i; }
        if save(p).Some? { return save(p), i; }
        store := store[(p, barrier.cut.epoch) := snapshot.value];
        assert barrier.partitions[..i + 1] == barrier.partitions[..i] + [p];
        n := i + 1;
      }
      failure := None;
    }

    method UndoPoll(poll: Poll, ghost was: Processors, ghost i: Intake)
      requires topology.Valid() && CanRollBack(topology.nodes, was) && Processed(was, poll, i)
      modifies topology
      ensures Ready() && NoTrace(topology.nodes, was, topology.processors)
    {
      RanIsRecoverable(topology.nodes, was, topology.processors, poll.prior, ByPartition(i.taken), SortedInts(ByPartition(i.taken).Keys));
      Rollback(topology, poll.prior, was);
    }

    /** Saves the barrier of a round, if there is one. */
    method SaveRound(poll: Poll, save: int -> Option<Failure>, ghost was: Processors, ghost i: Intake) returns (failure: Option<Failure>)
      requires topology.Valid() && poll.barrier == BarrierBy(i)
      requires Advanced(policy, topology.nodes, was, topology.processors, ByPartition(i.taken))
      modifies `store
      ensures PartlyStored(policy, topology.nodes, was, old(store), store, i)
      ensures failure.None? ==> Stored(topology.nodes, topology.processors, old(store), store, i)
      ensures failure.None? <==> CanSave(topology.nodes, topology.processors, i, save)
    {
      if poll.barrier.None? { return None; }
      ghost var n;
      failure, n := SaveBarrier(poll.barrier.value, save);
      assert StoredSome(policy, topology.nodes, was, topology.processors, old(store), store, i, n);
      assert poll.barrier.value.partitions[..|poll.barrier.value.partitions|] == poll.barrier.value.partitions;
    }

    /** Sends, saves and commits what a poll came to. */
    method Deliver(poll: Poll, outside: Outside, transactional: bool, ghost was: Processors, ghost i: Intake) returns (failure: Option<Failure>)
      requires topology.Valid() && poll.barrier == BarrierBy(i)
      requires Advanced(policy, topology.nodes, was, topology.processors, ByPartition(i.taken))
      modifies `store
      ensures PartlyStored(policy, topology.nodes, was, old(store), store, i)
      ensures failure.None? ==> Stored(topology.nodes, topology.processors, old(store), store, i) && outside.Accepts(poll, transactional)
      ensures failure.None? <==> outside.Accepts(poll, transactional) && CanSave(topology.nodes, topology.processors, i, outside.save)
    {
      failure := outside.send(poll.outputs);
      if failure.Some? { return; }
      failure := SaveRound(poll, outside.save, was, i);
      if failure.Some? { return; }
      if |poll.offsets| > 0 && outside.commit.Some? { return outside.commit; }
      if transactional && outside.transaction.Some? { return outside.transaction; }
      failure := None;
    }

    /** What follows the processing of a poll: any failure rolls the processors back,
        and otherwise the barrier is finished. */
    method Complete(poll: Poll, outside: Outside, transactional: bool, ghost was: Processors, ghost i: Intake) returns (r: Result<Offsets, Failure>)
      requires topology.Valid() && CanRollBack(topology.nodes, was) && Processed(was, poll, i) && Alignment() == i.aligner
      modifies this, topology, Aligners()
      ensures topology.Valid()
      ensures r.Err? ==> Ready() && NoTrace(topology.nodes, was, topology.processors)
      ensures r.Err? ==> PartlyStored(policy, topology.nodes, was, old(store), store, i)
      ensures r.Ok? ==> Done(was, old(store), i, r.value) && outside.Accepts(poll, transactional)
      ensures r.Ok? <==> outside.Accepts(poll, transactional) && CanSaveAfter(topology.nodes, was, i, outside.save)
    {
      RoundAdvances(policy, topology.nodes, was, topology.processors, poll.prior, poll.outputs, ByPartition(i.taken));
      SavingIsForeseen(policy, topology.nodes, was, topology.processors, i, outside.save);
      var failure := Deliver(poll, outside, transactional, was, i);
      if failure.Some? {
        UndoPoll(poll, was, i);
        return Err(failure.value);
      }
      if poll.barrier.Some? {
        aligner.FinishBarrier(poll.barrier.value);
      }
      r := Ok(poll.offsets);
    }

    /** A round that succeeded: the partitions have advanced, a barrier that fired is
        saved and finished, and the offsets are those of the round. */
    ghost predicate Done(was: Processors, before: Store, i: Intake, offsets: Offsets)
      requires topology.Valid()
      reads this, topology, Aligners()
    {
      && Advanced(policy, topology.nodes, was, topology.processors, ByPartition(i.taken))
      && Stored(topology.nodes, topology.processors, before, store, i)
      && Alignment() == FinishedBy(i) && offsets == CommittedBy(i)
    }

    /** What the broker accepts: all that a round sends. */
    ghost predicate SendsAccepted(was: Processors, i: Intake, outside: Outside)
      requires Ordered(topology.nodes)
    {
      exists sent :: IsOutput(policy, topology.nodes, was, ByPartition(i.taken), sent) && outside.send(sent).None?
    }

    /** Everything a round needs: no partition stops it, all it sends is accepted, the
        snapshots of its barrier can be taken and are saved, and its offsets are accepted,
        in its transaction if it has one. */
    ghost predicate Succeeds(was: Processors, i: Intake, outside: Outside, transactional: bool)
      requires Ordered(topology.nodes)
    {
      && policy.Valid()
      && AllProceed(policy, topology.nodes, was, ByPartition(i.taken))
      && SendsAccepted(was, i, outside)
      && CanSaveAfter(topology.nodes, was, i, outside.save)
      && (CommittedBy(i) != map[] ==> outside.commit.None?)
      && (transactional ==> outside.begin.None? && outside.transaction.None?)
    }

    /** What was sent is what the round sends, and it was accepted or not. */
    lemma {:induction false} SentIsOutput(was: Processors, i: Intake, outside: Outside, sent: seq<Produced>)
      requires Ordered(topology.nodes) && IsOutput(policy, topology.nodes, was, ByPartition(i.taken), sent)
      ensures SendsAccepted(was, i, outside) <==> outside.send(sent).None?
    {
      if SendsAccepted(was, i, outside) {
        var other :| IsOutput(policy, topology.nodes, was, ByPartition(i.taken), other) && outside.send(other).None?;
        OutputIsUnique(policy, topology.nodes, was, ByPartition(i.taken), sent, other);
      }
    }

    /** One cycle. A round that fails leaves no trace in the processors, wherever it
        fails; a round that succeeds has advanced them. */
    method RunGroupOnce(fetched: Result<Polled, Failure>, outside: Outside) returns (r: Result<Offsets, Failure>)
      requires Ready()
      modifies this, topology, Aligners()
      ensures topology.Valid()
      ensures r.Err? ==> NoTrace(topology.nodes, old(topology.processors), topology.processors) && Ready()
      ensures r.Err? ==> store == old(store) ||
                         (fetched.Ok? && PartlyStored(policy, topology.nodes, old(topology.processors), old(store), store,
                                                      IntakeFrom(old(Alignment()), fetched.value)))
      ensures r.Ok? ==>
                && fetched.Ok?
                && Done(old(topology.processors), old(store), IntakeFrom(old(Alignment()), fetched.value), r.value)
                && outside.send(RoundSends(policy, topology.nodes, old(topology.processors),
                                           IntakeFrom(old(Alignment()), fetched.value).taken)).None?
                && (r.value != map[] ==> outside.commit.None?)
      ensures r.Ok? <==>
                fetched.Ok? && Succeeds(old(topology.processors), IntakeFrom(old(Alignment()), fetched.value), outside, false)
    {
      ghost var was := topology.processors;
      var poll :- ProcessPoll(fetched);
      SentIsOutput(was, IntakeFrom(old(Alignment()), fetched.value), outside, poll.outputs);
      r := Complete(poll, outside, false, was, IntakeFrom(old(Alignment()), fetched.value));
    }

    /** The same in one producer transaction, which is aborted when the round fails. */
    method RunGroupOnceTransactional(fetched: Result<Polled, Failure>, outside: Outside)
      returns (r: Result<Offsets, Failure>, aborted: bool)
      requires Ready()
      modifies this, topology, Aligners()
      ensures topology.Valid()
      ensures r.Err? ==> NoTrace(topology.nodes, old(topology.processors), topology.processors) && Ready()
      ensures r.Err? <==> aborted || outside.begin.Some?
      ensures r.Err? ==> store == old(store) ||
                         (fetched.Ok? && PartlyStored(policy, topology.nodes, old(topology.processors), old(store), store,
                                                      IntakeFrom(old(Alignment()), fetched.value)))
      ensures r.Ok? ==>
                && fetched.Ok?
                && Done(old(topology.processors), old(store), IntakeFrom(old(Alignment()), fetched.value), r.value)
                && outside.send(RoundSends(policy, topology.nodes, old(topology.processors),
                                      IntakeFrom(old(Alignment()), fetched.value).taken)).None?
                && (r.value != map[] ==> outside.commit.None?) && outside.transaction.None?
      ensures r.Ok? <==>
                fetched.Ok? && Succeeds(old(topology.processors), IntakeFrom(old(Alignment()), fetched.value), outside, true)
    {
      if outside.begin.Some? { return Err(outside.begin.value), false; }
      ghost var was := topology.processors;
      var processed := ProcessPoll(fetched);
      if processed.Err? { return Err(processed.error), true; }
      SentIsOutput(was, IntakeFrom(old(Alignment()), fetched.value), outside, processed.value.outputs);
      r := Complete(processed.value, outside, true, was, IntakeFrom(old(Alignment()), fetched.value));
      aborted := r.Err?;
    }

    /** The cuts can be read if they are asked for, and so can the positions. */
    ghost predicate TakesUp(offer: Offer)
      reads Aligners()
    {
      aligner == null ||
      ((Alignment().pending.None? ==> offer.cuts.Ok?) && (offer.reported.Some? && offer.assignment != {} ==> offer.reported.value.Ok?))
    }

    /** Takes up the next cut of the group, if one is due, and observes positions. */
    method TakeUp(offer: Offer) returns (failure: Option<Failure>)
      modifies Aligners()
      ensures failure.None? ==>
                Alignment() == if aligner == null then NEW_ALIGNER
                               else Prepare(old(Alignment()), offer.assignment, offer.Cuts(), offer.Reported())
      ensures failure.Some? ==>
                || (old(Alignment()).pending.None? && offer.cuts.Err? && failure == Some(offer.cuts.error))
                || (offer.reported.Some? && offer.reported.value.Err? && failure == Some(offer.reported.value.error))
      ensures failure.None? <==> old(TakesUp(offer))
    {
      if aligner == null { return None; }
      if aligner.pending.None? && offer.cuts.Err? {
        aligner.RefreshWith(offer.assignment, []);
        return Some(offer.cuts.error);
      }
      aligner.RefreshWith(offer.assignment, offer.Cuts());
      if offer.reported.Some? && |offer.assignment| > 0 {
        if offer.reported.value.Err? { return Some(offer.reported.value.error); }
        aligner.Observe(offer.reported.value.value);
      }
      failure := None;
    }

    /** What a round takes in of the polled records, once it took up the offer. */
    ghost function IntakeOf(offer: Offer, polled: Polled): Intake
      reads Aligners()
    {
      IntakeFrom(Prepare(Alignment(), offer.assignment, offer.Cuts(), offer.Reported()), polled)
    }

    /** One cycle of a reusable runner, with or without a transaction. */
    method RunOnce(offer: Offer, fetched: Result<Polled, Failure>, outside: Outside, transactional: bool) returns (r: Result<Offsets, Failure>)
      requires Ready()
      modifies this, topology, Aligners()
      ensures topology.Valid()
      ensures r.Err? ==> NoTrace(topology.nodes, old(topology.processors), topology.processors) && Ready()
      ensures r.Err? ==> store == old(store) ||
                         (fetched.Ok? && PartlyStored(policy, topology.nodes, old(topology.processors), old(store), store,
                                                      old(IntakeOf(offer, fetched.value))))
      ensures r.Ok? ==> fetched.Ok? && Done(old(topology.processors), old(store), old(IntakeOf(offer, fetched.value)), r.value)
      ensures r.Ok? ==>
                && outside.send(RoundSends(policy, topology.nodes, old(topology.processors), old(IntakeOf(offer, fetched.value)).taken)).None?
                && (r.value != map[] ==> outside.commit.None?) && (transactional ==> outside.transaction.None?)
      ensures r.Ok? <==>
                && old(TakesUp(offer)) && fetched.Ok?
                && Succeeds(old(topology.processors), old(IntakeOf(offer, fetched.value)), outside, transactional)
    {
      var failure := TakeUp(offer);
      if failure.Some? { return Err(failure.value); }
      if transactional {
        var aborted;
        r, aborted := RunGroupOnceTransactional(fetched, outside);
      } else {
        r := RunGroupOnce(fetched, outside);
      }
    }

    /** Rewinds to a cut: every partition of the cut gets new processors filled from
        its snapshot of that epoch, every input is sought to its marker, and the
        aligner starts again from there. It succeeds exactly when every snapshot
        loads and fills, and every seek succeeds. */
    method RestoreToCut(cut: Cut, assignment: set<TopicPartition>, load: int -> Option<Failure>, seek: TopicPartition -> Option<Failure>)
      returns (r: Result<Offsets, Failure>)
      requires topology.Valid() && aligner != null
      modifies topology, Aligners()
      ensures topology.Valid()
      ensures r.Ok? <==>
                && (forall q :: q in LogicalTargets(assignment, cut) ==> Fillable(topology.nodes, store, q, cut.epoch, load))
                && (forall tp :: tp in Targets(assignment, cut) ==> seek(tp).None?)
      ensures forall q :: q !in LogicalTargets(assignment, cut) ==> SameAt(old(topology.processors), topology.processors, q)
      ensures r.Ok? ==>
                && aligner.Content() == Barriers.Restored(old(aligner.Content()), cut, Targets(assignment, cut))
                && r.value == SoughtTo(assignment, cut)
                && (forall q :: q in LogicalTargets(assignment, cut) ==> FilledFrom(topology.nodes, topology.processors, store, q, cut.epoch))
    {
      var partitions := SortedInts(LogicalTargets(assignment, cut));
      var failure := FillAll(partitions, cut.epoch, load);
      assert forall q :: q in partitions <==> q in LogicalTargets(assignment, cut);
      if failure.Some? { return Err(failure.value); }
      failure := SeekAll(Targets(assignment, cut), seek);
      if failure.Some? { return Err(failure.value); }
      aligner.RestoredTo(cut, Targets(assignment, cut));
      r := Ok(SoughtTo(assignment, cut));
    }

    /** Fills new processors of the next of some partitions. */
    method FillNext(partitions: seq<int>, i: nat, epoch: int, load: int -> Option<Failure>, ghost was: Processors) returns (failure: Option<Failure>)
      requires topology.Valid() && i < |partitions| && forall i, j :: 0 <= i < j < |partitions| ==> partitions[i] < partitions[j]
      requires FilledUpTo(topology.nodes, was, topology.processors, store, epoch, load, partitions[..i])
      requires forall q :: q !in partitions ==> SameAt(was, topology.processors, q)
      modifies topology
      ensures topology.Valid()
      ensures failure.None? <==> Fillable(topology.nodes, store, partitions[i], epoch, load)
      ensures failure.None? ==> FilledUpTo(topology.nodes, was, topology.processors, store, epoch, load, partitions[..i + 1])
      ensures forall q :: q !in partitions ==> SameAt(was, topology.processors, q)
    {
      ghost var before := topology.processors;
      failure := FillOne(partitions[i], epoch, load);
      OthersStay(was, before, topology.processors, partitions, i);
      if failure.Some? { return; }
      FilledNext(topology.nodes, was, before, topology.processors, store, epoch, load, partitions[..i], partitions[i]);
      assert partitions[..i + 1] == partitions[..i] + [partitions[i]];
    }

    /** Fills new processors of some partitions in turn. */
    method FillAll(partitions: seq<int>, epoch: int, load: int -> Option<Failure>) returns (failure: Option<Failure>)
      requires topology.Valid() && forall i, j :: 0 <= i < j < |partitions| ==> partitions[i] < partitions[j]
      modifies topology
      ensures topology.Valid()
      ensures failure.None? <==> forall q :: q in partitions ==> Fillable(topology.nodes, store, q, epoch, load)
      ensures failure.None? ==> forall q :: q in partitions ==> FilledFrom(topology.nodes, topology.processors, store, q, epoch)
      ensures forall q :: q !in partitions ==> SameAt(old(topology.processors), topology.processors, q)
    {
      ghost var was := topology.processors;
      for i := 0 to |partitions|
        invariant topology.Valid()
        invariant FilledUpTo(topology.nodes, was, topology.processors, store, epoch, load, partitions[..i])
        invariant forall q :: q !in partitions ==> SameAt(was, topology.processors, q)
      {
        failure := FillNext(partitions, i, epoch, load, was);
        if failure.Some? { return; }
      }
      assert partitions[..|partitions|] == partitions;
      failure := None;
    }

    /** New processors filled from the snapshot of an epoch, once it is loaded. */
    method FillOne(q: int, epoch: int, load: int -> Option<Failure>) returns (failure: Option<Failure>)
      requires topology.Valid()
      modifies topology
      ensures topology.Valid() && OnlyPartition(old(topology.processors), topology.processors, q)
      ensures failure.None? <==> Fillable(topology.nodes, store, q, epoch, load)
      ensures failure.None? ==> FilledFrom(topology.nodes, topology.processors, store, q, epoch)
    {
      if load(q).Some? { return load(q); }
      topology.ReleasePartition(q);
      var r := topology.RestorePartition(q, LoadFrom(store, q, epoch));
      failure := if r.Ok? then None else Some(r.error);
    }

    method SeekAll(targets: set<TopicPartition>, seek: TopicPartition -> Option<Failure>) returns (failure: Option<Failure>)
      ensures failure.None? <==> forall tp :: tp in targets ==> seek(tp).None?
    {
      var rest := targets;
      while rest != {}
        invariant rest <= targets && forall tp :: tp in targets && tp !in rest ==> seek(tp).None?
        decreases |rest|
      {
        var tp :| tp in rest;
        rest := rest - {tp};
        if seek(tp).Some? { return seek(tp); }
      }
      failure := None;
    }
  }

  /** The saved snapshots of a partition, none when there are none. */
  function LoadFrom(store: Store, q: int, epoch: int): Snapshots {
    if (q, epoch) in store then store[(q, epoch)] else map[]
  }

  function LogicalTargets(assignment: set<TopicPartition>, cut: Cut): set<int> {
    set tp | tp in Targets(assignment, cut) :: tp.partition
  }

  /** Where each input of a cut is sought to. */
  function SoughtTo(assignment: set<TopicPartition>, cut: Cut): Offsets {
    map tp | tp in Targets(assignment, cut) :: cut.offsets[tp]
  }

  /** Fresh processors can be filled from these snapshots. */
  predicate Loads(nodes: Nodes, snapshots: Snapshots) { PartitionSnapshots.Restored(nodes, Fresh(nodes), snapshots).Ok? }

  ghost predicate Fillable(nodes: Nodes, store: Store, q: int, epoch: int, load: int -> Option<Failure>) {
    load(q).None? && Loads(nodes, LoadFrom(store, q, epoch))
  }

  /** A partition has new processors filled from its snapshot of an epoch. */
  ghost predicate FilledFrom(nodes: Nodes, now: Processors, store: Store, q: int, epoch: int) {
    && Loads(nodes, LoadFrom(store, q, epoch))
    && SlotOf(now, q) == Some(PartitionSnapshots.Restored(nodes, Fresh(nodes), LoadFrom(store, q, epoch)).value)
  }

  ghost predicate FilledUpTo(nodes: Nodes, was: Processors, now: Processors, store: Store, epoch: int, load: int -> Option<Failure>, done: seq<int>) {
    && (forall q :: q in done ==> Fillable(nodes, store, q, epoch, load) && FilledFrom(nodes, now, store, q, epoch))
    && (forall q :: q !in done ==> SameAt(was, now, q))
  }

  lemma {:induction false} OthersStay(was: Processors, before: Processors, now: Processors, partitions: seq<int>, i: nat)
    requires i < |partitions| && OnlyPartition(before, now, partitions[i])
    requires forall q :: q !in partitions ==> SameAt(was, before, q)
    ensures forall q :: q !in partitions ==> SameAt(was, now, q)
  {
  }

  lemma {:induction false} FillStays(nodes: Nodes, before: Processors, now: Processors, store: Store, epoch: int, p: int, q: int)
    requires FilledFrom(nodes, before, store, p, epoch) && OnlyPartition(before, now, q) && p != q
    ensures FilledFrom(nodes, now, store, p, epoch)
  {
    assert SlotOf(now, p) == SlotOf(before, p);
  }

  lemma {:induction false} FilledNext(nodes: Nodes, was: Processors, before: Processors, now: Processors, store: Store, epoch: int,
                                      load: int -> Option<Failure>, done: seq<int>, q: int)
    requires FilledUpTo(nodes, was, before, store, epoch, load, done) && q !in done && OnlyPartition(before, now, q)
    requires Fillable(nodes, store, q, epoch, load) && FilledFrom(nodes, now, store, q, epoch)
    ensures FilledUpTo(nodes, was, now, store, epoch, load, done + [q])
  {
    forall p | p in done + [q] ensures Fillable(nodes, store, p, epoch, load) && FilledFrom(nodes, now, store, p, epoch) {
      if p != q { FillStays(nodes, before, now, store, epoch, p, q); }
    }
    forall p | p !in done + [q] ensures SameAt(was, now, p) {
      assert SameAt(was, before, p);
    }
  }
}
