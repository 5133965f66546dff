/** A built topology: processors that live from call to call, one set for each
    logical partition. */
module BuiltTopologies {
  import opened Wrappers
  import opened Machine
  import opened ByteCodec
  import opened Records
  import opened Orders
  import opened IntOrders
  import opened Topologies
  import opened PartitionSnapshots

  type Frames = map<nat, seq<Batch>>

  function FrameAt(frames: Frames, i: nat): seq<Batch> {
    if i in frames then frames[i] else []
  }

  ghost predicate FramesUpTo(outcomes: seq<Outcome>, frames: Frames, n: nat)
    requires n <= |outcomes|
  {
    forall k: nat :: k < n ==> FrameAt(frames, k) == outcomes[k].frame
  }

  /** A parent that is read has its meaning in its frame. */
  lemma {:induction false} ParentFrame(nodes: Nodes, states: States, input: Input, frames: Frames, n: nat, parent: nat)
    requires Ordered(nodes) && n < |nodes| && Turns(Outcomes(nodes, states, input), n)
    requires FramesUpTo(Outcomes(nodes, states, input), frames, n)
    requires parent in nodes[n].Parents() && !nodes[n].PassThrough?
    ensures parent < n && Meaning(nodes, states, input, parent).outcome == Ok(FrameAt(frames, parent))
  {
    var k :| 0 <= k < |nodes[n].Parents()| && nodes[n].Parents()[k] == parent;
    assert AllBelow(nodes[n].Parents(), n);
    assert Outcomes(nodes, states, input)[parent] == OutcomeOf(nodes, states, input, parent);
    assert Needed(nodes, parent);
    ParentComesFirst(nodes, parent);
  }

  // -------------------------------------------------------------- topic lists

  function WithRecords(input: Input, topics: seq<Bytes>, wanted: seq<Bytes>): seq<Bytes> {
    if topics == [] then []
    else
      var last := topics[|topics| - 1];
      WithRecords(input, topics[..|topics| - 1], wanted)
      + if last in input && input[last] != [] && last in wanted then [last] else []
  }

  lemma {:induction false} WithRecordsMembers(input: Input, topics: seq<Bytes>, wanted: seq<Bytes>)
    ensures forall t :: t in WithRecords(input, topics, wanted) <==>
                          t in topics && t in input && input[t] != [] && t in wanted
  {
    if topics != [] {
      WithRecordsMembers(input, topics[..|topics| - 1], wanted);
      assert topics == topics[..|topics| - 1] + [topics[|topics| - 1]];
    }
  }

  lemma {:induction false} WithRecordsAscends(input: Input, topics: seq<Bytes>, wanted: seq<Bytes>)
    requires Ascends(topics)
    ensures Ascends(WithRecords(input, topics, wanted))
  {
    if topics != [] {
      var before, last := topics[..|topics| - 1], topics[|topics| - 1];
      WithRecordsAscends(input, before, wanted);
      WithRecordsMembers(input, before, wanted);
      forall i | 0 <= i < |WithRecords(input, before, wanted)| ensures Less(WithRecords(input, before, wanted)[i], last) {
        assert WithRecords(input, before, wanted)[i] in before;
      }
    }
  }

  /** Skipping the topics without records is reading the others in order. */
  lemma {:induction false} SkippingIsSubscribed(input: Input, wanted: seq<Bytes>)
    ensures WithRecords(input, Sorted(input.Keys), wanted) == Subscribed(Trim(input), wanted)
  {
    WithRecordsMembers(input, Sorted(input.Keys), wanted);
    WithRecordsAscends(input, Sorted(input.Keys), wanted);
    AscendingIsUnique(WithRecords(input, Sorted(input.Keys), wanted), Subscribed(Trim(input), wanted));
  }

  lemma {:induction false} WithRecordsOneMore(input: Input, topics: seq<Bytes>, i: nat, wanted: seq<Bytes>)
    requires i < |topics|
    ensures WithRecords(input, topics[..i + 1], wanted)
            == WithRecords(input, topics[..i], wanted)
               + if topics[i] in input && input[topics[i]] != [] && topics[i] in wanted then [topics[i]] else []
  {
    assert topics[..i + 1][..i] == topics[..i];
  }

  lemma {:induction false} DecodeFails(codec: Codec, input: Input, topics: seq<Bytes>, more: seq<Bytes>)
    requires forall t :: t in topics + more ==> t in input
    requires DecodeTopics(codec, input, topics).Err?
    ensures DecodeTopics(codec, input, topics + more) == DecodeTopics(codec, input, topics)
  {
    if more == [] {
      assert topics + more == topics;
    } else {
      var fewer := more[..|more| - 1];
      assert (topics + more)[..|topics + more| - 1] == topics + fewer;
      DecodeFails(codec, input, topics, fewer);
    }
  }

  lemma {:induction false} WithRecordsPrefix(input: Input, topics: seq<Bytes>, i: nat, wanted: seq<Bytes>) returns (more: seq<Bytes>)
    requires i <= |topics|
    ensures WithRecords(input, topics, wanted) == WithRecords(input, topics[..i], wanted) + more
  {
    if i == |topics| {
      more := [];
      assert topics[..i] == topics;
    } else {
      assert topics[..|topics| - 1][..i] == topics[..i];
      more := WithRecordsPrefix(input, topics[..|topics| - 1], i, wanted);
      var last := topics[|topics| - 1];
      more := more + if last in input && input[last] != [] && last in wanted then [last] else [];
    }
  }

  lemma {:induction false} DecodeOneMore(codec: Codec, input: Input, topics: seq<Bytes>, topic: Bytes)
    requires (forall t :: t in topics ==> t in input) && topic in input
    requires DecodeTopics(codec, input, topics).Ok?
    ensures DecodeTopics(codec, input, topics + [topic])
            == match codec.decode(topic, input[topic])
               case Ok(batch) => Ok(DecodeTopics(codec, input, topics).value + [batch])
               case Err(failure) => Err(failure)
  {
    assert (topics + [topic])[..|topics|] == topics;
  }

  lemma {:induction false} CopyOneMore(topic: Bytes, input: Input, topics: seq<Bytes>, next: Bytes)
    requires (forall t :: t in topics ==> t in input) && next in input
    ensures CopyTopics(topic, input, topics + [next]) == CopyTopics(topic, input, topics) + Copied(topic, input[next])
  {
    assert (topics + [next])[..|topics|] == topics;
  }

  // --------------------------------------------------------------- loop steps

  /** `seen` lists the topics with records among the first `i`. */
  ghost predicate Seen(input: Input, topics: seq<Bytes>, i: nat, wanted: seq<Bytes>, seen: seq<Bytes>)
    requires i <= |topics|
  {
    seen == WithRecords(input, topics[..i], wanted) && forall t :: t in seen ==> t in Trim(input)
  }

  lemma {:induction false} SeeNext(input: Input, topics: seq<Bytes>, i: nat, wanted: seq<Bytes>, seen: seq<Bytes>)
    requires i < |topics| && topics[i] in input && Seen(input, topics, i, wanted, seen)
    ensures Seen(input, topics, i + 1, wanted, if input[topics[i]] != [] && topics[i] in wanted then seen + [topics[i]] else seen)
  {
    WithRecordsOneMore(input, topics, i, wanted);
    assert seen + [] == seen;
  }

  lemma {:induction false} SeenAll(input: Input, wanted: seq<Bytes>, seen: seq<Bytes>)
    requires Seen(input, Sorted(input.Keys), |Sorted(input.Keys)|, wanted, seen)
    ensures seen == Subscribed(Trim(input), wanted)
  {
    var topics := Sorted(input.Keys);
    assert topics[..|topics|] == topics;
    SkippingIsSubscribed(input, wanted);
  }

  lemma {:induction false} SeenFails(codec: Codec, input: Input, i: nat, wanted: seq<Bytes>, seen: seq<Bytes>)
    requires i <= |Sorted(input.Keys)| && Seen(input, Sorted(input.Keys), i, wanted, seen)
    requires DecodeTopics(codec, Trim(input), seen).Err?
    ensures DecodeTopics(codec, Trim(input), Subscribed(Trim(input), wanted)) == DecodeTopics(codec, Trim(input), seen)
  {
    var more := WithRecordsPrefix(input, Sorted(input.Keys), i, wanted);
    SkippingIsSubscribed(input, wanted);
    DecodeFails(codec, Trim(input), seen, more);
  }

  /** The batches of the topics seen so far. */
  ghost predicate Decoding(codec: Codec, input: Input, i: nat, wanted: seq<Bytes>, seen: seq<Bytes>, decoded: seq<Batch>) {
    && i <= |Sorted(input.Keys)| && Seen(input, Sorted(input.Keys), i, wanted, seen)
    && DecodeTopics(codec, Trim(input), seen) == Ok(decoded)
  }

  lemma {:induction false} DecodeNext(codec: Codec, input: Input, i: nat, wanted: seq<Bytes>, seen: seq<Bytes>, decoded: seq<Batch>)
    requires Decoding(codec, input, i, wanted, seen, decoded) && i < |Sorted(input.Keys)|
    ensures var topic := Sorted(input.Keys)[i];
            topic in input
            && if input[topic] != [] && topic in wanted then
                 match codec.decode(topic, input[topic])
                 case Ok(batch) => Decoding(codec, input, i + 1, wanted, seen + [topic], decoded + [batch])
                 case Err(error) => DecodeTopics(codec, Trim(input), Subscribed(Trim(input), wanted)) == Err(error)
               else Decoding(codec, input, i + 1, wanted, seen, decoded)
  {
    var topics := Sorted(input.Keys);
    var topic := topics[i];
    assert topic in topics;
    SeeNext(input, topics, i, wanted, seen);
    if input[topic] != [] && topic in wanted {
      DecodeOneMore(codec, Trim(input), seen, topic);
      if codec.decode(topic, input[topic]).Err? { SeenFails(codec, input, i + 1, wanted, seen + [topic]); }
    }
  }

  lemma {:induction false} DecodedAll(codec: Codec, input: Input, wanted: seq<Bytes>, seen: seq<Bytes>, decoded: seq<Batch>)
    requires Decoding(codec, input, |Sorted(input.Keys)|, wanted, seen, decoded)
    ensures DecodeTopics(codec, Trim(input), Subscribed(Trim(input), wanted)) == Ok(decoded)
  {
    SeenAll(input, wanted, seen);
  }

  /** One topic: decoded if it has records and is wanted. */
  method DecodeTopic(codec: Codec, wanted: seq<Bytes>, input: Input, topic: Bytes, decoded: seq<Batch>, ghost i: nat, ghost seen: seq<Bytes>)
    returns (r: Result<seq<Batch>, Failure>, ghost seen': seq<Bytes>)
    requires Decoding(codec, input, i, wanted, seen, decoded) && i < |Sorted(input.Keys)| && topic == Sorted(input.Keys)[i]
    ensures r.Ok? ==> Decoding(codec, input, i + 1, wanted, seen', r.value)
    ensures r.Err? ==> DecodeTopics(codec, Trim(input), Subscribed(Trim(input), wanted)) == Err(r.error)
  {
    DecodeNext(codec, input, i, wanted, seen, decoded);
    seen' := seen;
    if |input[topic]| == 0 || topic !in wanted { return Ok(decoded), seen; }
    var batch := codec.decode(topic, input[topic]);
    if batch.Err? { return Err(batch.error), seen; }
    return Ok(decoded + [batch.value]), seen + [topic];
  }

  method Decoded(codec: Codec, wanted: seq<Bytes>, input: Input) returns (r: Result<seq<Batch>, Failure>)
    ensures r == DecodeTopics(codec, Trim(input), Subscribed(Trim(input), wanted))
  {
    var topics := Sorted(input.Keys);
    r := Ok([]);
    ghost var seen: seq<Bytes> := [];
    for i := 0 to |topics|
      invariant r.Ok? && Decoding(codec, input, i, wanted, seen, r.value)
    {
      r, seen := DecodeTopic(codec, wanted, input, topics[i], r.value, i, seen);
      if r.Err? { return; }
    }
    DecodedAll(codec, input, wanted, seen, r.value);
  }

  method CopiedThrough(topic: Bytes, wanted: seq<Bytes>, input: Input) returns (r: seq<Produced>)
    ensures r == CopyTopics(topic, Trim(input), Subscribed(Trim(input), wanted))
  {
    var topics := Sorted(input.Keys);
    ghost var seen: seq<Bytes> := [];
    r := [];
    for i := 0 to |topics|
      invariant Seen(input, topics, i, wanted, seen)
      invariant CopyTopics(topic, Trim(input), seen) == r
    {
      SeeNext(input, topics, i, wanted, seen);
      if topics[i] in wanted {
        CopyNext(topic, input, seen, topics[i]);
        seen := if input[topics[i]] != [] then seen + [topics[i]] else seen;
        r := r + Copied(topic, input[topics[i]]);
      }
    }
    SeenAll(input, wanted, seen);
  }

  lemma {:induction false} CopyNext(topic: Bytes, input: Input, seen: seq<Bytes>, next: Bytes)
    requires (forall t :: t in seen ==> t in Trim(input)) && next in input
    ensures next in Trim(input) <==> input[next] != []
    ensures CopyTopics(topic, Trim(input), seen) + Copied(topic, input[next])
            == CopyTopics(topic, Trim(input), if input[next] != [] then seen + [next] else seen)
  {
    if input[next] != [] {
      CopyOneMore(topic, Trim(input), seen, next);
    }
  }

  method Encoded(codec: Codec, topic: Bytes, batches: seq<Batch>) returns (r: Result<seq<Produced>, Failure>)
    ensures r == EncodeAll(codec, topic, batches)
  {
    var produced: seq<Produced> := [];
    for i := 0 to |batches|
      invariant EncodeAll(codec, topic, batches[..i]) == Ok(produced)
    {
      assert batches[..i + 1][..i] == batches[..i];
      var records := codec.encode(topic, batches[i]);
      if records.Err? {
        EncodeFails(codec, topic, batches, i + 1);
        return Err(records.error);
      }
      produced := produced + Addressed(topic, records.value);
    }
    assert batches[..|batches|] == batches;
    r := Ok(produced);
  }

  lemma {:induction false} EncodeFails(codec: Codec, topic: Bytes, batches: seq<Batch>, n: nat)
    requires n <= |batches| && EncodeAll(codec, topic, batches[..n]).Err?
    ensures EncodeAll(codec, topic, batches) == EncodeAll(codec, topic, batches[..n])
  {
    if n < |batches| {
      assert batches[..|batches| - 1][..n] == batches[..n];
      EncodeFails(codec, topic, batches[..|batches| - 1], n);
    } else {
      assert batches[..n] == batches;
    }
  }

  lemma {:induction false} ProcessOneMore(process: (State, Batch) -> Processed, s: State, batches: seq<Batch>, n: nat)
    requires n < |batches| && ProcessAll(process, s, batches[..n]).outcome.Ok?
    ensures var before := ProcessAll(process, s, batches[..n]);
            var last := process(before.state, batches[n]);
            ProcessAll(process, s, batches[..n + 1])
            == Processed(last.state, match last.outcome
                                     case Err(failure) => Err(failure)
                                     case Ok(outputs) => Ok(before.outcome.value + outputs))
  {
    assert batches[..n + 1][..n] == batches[..n];
  }

  lemma {:induction false} ProcessFails(process: (State, Batch) -> Processed, s: State, batches: seq<Batch>, n: nat)
    requires n <= |batches| && ProcessAll(process, s, batches[..n]).outcome.Err?
    ensures ProcessAll(process, s, batches) == ProcessAll(process, s, batches[..n])
  {
    if n < |batches| {
      assert batches[..|batches| - 1][..n] == batches[..n];
      ProcessFails(process, s, batches[..|batches| - 1], n);
    } else {
      assert batches[..n] == batches;
    }
  }

  method Gathered(frames: Frames, parents: seq<nat>) returns (r: Result<seq<Batch>, Failure>)
    ensures r == Concatenate(FramesOf(frames, parents))
  {
    var inputs: seq<Batch> := [];
    for i := 0 to |parents|
      invariant inputs == FramesOf(frames, parents[..i])
    {
      assert parents[..i + 1][..i] == parents[..i];
      inputs := inputs + FrameAt(frames, parents[i]);
    }
    assert parents[..|parents|] == parents;
    r := Concatenate(inputs);
  }

  function FramesOf(frames: Frames, parents: seq<nat>): seq<Batch> {
    if parents == [] then [] else FramesOf(frames, parents[..|parents| - 1]) + FrameAt(frames, parents[|parents| - 1])
  }

  lemma {:induction false} FramesAreGathered(nodes: Nodes, states: States, input: Input, frames: Frames, n: nat, parents: seq<nat>)
    requires Ordered(nodes) && n < |nodes| && Turns(Outcomes(nodes, states, input), n)
    requires FramesUpTo(Outcomes(nodes, states, input), frames, n)
    requires !nodes[n].PassThrough? && AllBelow(parents, n)
    requires forall k :: 0 <= k < |parents| ==> parents[k] in nodes[n].Parents()
    ensures Gather(nodes, states, input, parents, n) == Ok(FramesOf(frames, parents))
  {
    if parents != [] {
      FramesAreGathered(nodes, states, input, frames, n, parents[..|parents| - 1]);
      ParentFrame(nodes, states, input, frames, n, parents[|parents| - 1]);
    }
  }

  type Processors = map<int, States>

  /** Nothing but the processors of one partition has changed. */
  ghost predicate OnlyPartition(was: Processors, now: Processors, partition: int) {
    forall p :: p != partition ==> (p in now <==> p in was) && (p in now ==> now[p] == was[p])
  }

  /** The processors after the turns of the first `n` nodes. */
  function Reached(nodes: Nodes, was: Processors, partition: int, outcomes: seq<Outcome>, n: nat): Processors
    requires n <= |outcomes| == |nodes|
  {
    if AnyKeeps(nodes, n) then was[partition := After(StartOf(nodes, was, partition), outcomes, n)] else was
  }

  /** The states a run of a partition starts from. */
  function StartOf(nodes: Nodes, processors: Processors, partition: int): States {
    if partition in processors then processors[partition] else Fresh(nodes)
  }

  ghost predicate Complete(nodes: Nodes, processors: Processors) {
    forall p :: p in processors ==> processors[p].Keys == Fresh(nodes).Keys
  }

  lemma {:induction false} StartReached(nodes: Nodes, was: Processors, partition: int, outcomes: seq<Outcome>, n: nat)
    requires n <= |outcomes| == |nodes| && Complete(nodes, was)
    ensures StartOf(nodes, Reached(nodes, was, partition, outcomes, n), partition)
            == After(StartOf(nodes, was, partition), outcomes, n)
    ensures Reached(nodes, was, partition, outcomes, n)[partition := After(StartOf(nodes, was, partition), outcomes, n)]
            == was[partition := After(StartOf(nodes, was, partition), outcomes, n)]
  {
    var s := StartOf(nodes, was, partition);
    if !AnyKeeps(nodes, n) {
      forall i | i in s ensures i >= n {
        assert i in Fresh(nodes);
      }
      assert After(s, outcomes, n) == s;
    }
  }

  lemma {:induction false} ReachNext(nodes: Nodes, was: Processors, partition: int, outcomes: seq<Outcome>, n: nat)
    requires n < |outcomes| == |nodes| && Complete(nodes, was)
    ensures Reached(nodes, was, partition, outcomes, n + 1)
            == if nodes[n].Keeps() then was[partition := After(StartOf(nodes, was, partition), outcomes, n)[n := outcomes[n].state]]
               else Reached(nodes, was, partition, outcomes, n)
  {
    var s := StartOf(nodes, was, partition);
    assert n in s <==> n in Fresh(nodes);
    AnyKeepsNext(nodes, n);
    AfterNext(s, outcomes, n);
  }

  /** Putting the state a node left into the states it started from. */
  lemma {:induction false} TurnKept(nodes: Nodes, was: Processors, partition: int, outcomes: seq<Outcome>, n: nat)
    requires n < |outcomes| == |nodes| && Complete(nodes, was) && nodes[n].Keeps()
    ensures var before := Reached(nodes, was, partition, outcomes, n);
            && StateOf(StartOf(nodes, before, partition), n) == StateOf(StartOf(nodes, was, partition), n)
            && before[partition := StartOf(nodes, before, partition)[n := outcomes[n].state]]
               == Reached(nodes, was, partition, outcomes, n + 1)
    ensures OnlyPartition(was, Reached(nodes, was, partition, outcomes, n + 1), partition)
  {
    StartReached(nodes, was, partition, outcomes, n);
    ReachNext(nodes, was, partition, outcomes, n);
    var s, before := StartOf(nodes, was, partition), Reached(nodes, was, partition, outcomes, n);
    UpdateAgain(was, before, partition, After(s, outcomes, n)[n := outcomes[n].state]);
  }

  lemma {:induction false} UpdateAgain(was: Processors, before: Processors, partition: int, states: States)
    requires forall p :: p != partition ==> (p in before <==> p in was) && (p in was ==> before[p] == was[p])
    ensures before[partition := states] == was[partition := states]
  {
    var a, b := before[partition := states], was[partition := states];
    assert forall p :: (p in a <==> p in b) && (p in a ==> a[p] == b[p]);
  }

  lemma {:induction false} AnyKeepsNext(nodes: Nodes, n: nat)
    requires n < |nodes|
    ensures AnyKeeps(nodes, n + 1) <==> AnyKeeps(nodes, n) || nodes[n].Keeps()
  {
  }

  lemma {:induction false} AfterNext(s: States, outcomes: seq<Outcome>, n: nat)
    requires n < |outcomes|
    ensures After(s, outcomes, n + 1) == if n in s then After(s, outcomes, n)[n := outcomes[n].state] else After(s, outcomes, n)
  {
  }

  lemma {:induction false} KeepAgain(was: Processors, partition: int, start: States, index: int, before: State, state: State)
    ensures var now := was[partition := start[index := before]];
            now[partition := now[partition][index := state]] == was[partition := start[index := state]]
  {
    assert start[index := before][index := state] == start[index := state];
  }

  lemma {:induction false} FrameNext(outcomes: seq<Outcome>, frames: Frames, n: nat)
    requires n < |outcomes| && FramesUpTo(outcomes, frames, n)
    ensures FramesUpTo(outcomes, frames[n := outcomes[n].frame], n + 1)
  {
  }

  /** The result of the turn of a node that is no sink. */
  predicate IsOutcome(r: Result<seq<Batch>, Failure>, outcome: Outcome) {
    FailureOf(r) == outcome.failure && (r.Ok? ==> r.value == outcome.frame && outcome.sent == [])
  }

  lemma {:induction false} OperatorOutcome(nodes: Nodes, states: States, input: Input, i: nat, batches: seq<Batch>)
    requires Ordered(nodes) && i < |nodes| && nodes[i].Operator? && nodes[i].parent < i
    requires Meaning(nodes, states, input, nodes[i].parent).outcome == Ok(batches)
    ensures var run := ProcessAll(nodes[i].process, StateOf(states, i), batches);
            IsOutcome(run.outcome, OutcomeOf(nodes, states, input, i)) && OutcomeOf(nodes, states, input, i).state == run.state
  {
  }

  lemma {:induction false} JoinOutcome(nodes: Nodes, states: States, input: Input, i: nat, lefts: seq<Batch>, rights: seq<Batch>)
    requires Ordered(nodes) && i < |nodes| && nodes[i].Join? && nodes[i].left < i && nodes[i].right < i
    requires Meaning(nodes, states, input, nodes[i].left).outcome == Ok(lefts)
    requires Meaning(nodes, states, input, nodes[i].right).outcome == Ok(rights)
    ensures var run := nodes[i].processSides(StateOf(states, i), lefts, rights);
            IsOutcome(run.outcome, OutcomeOf(nodes, states, input, i)) && OutcomeOf(nodes, states, input, i).state == run.state
  {
  }

  lemma {:induction false} ProduceNext(outcomes: seq<Outcome>, n: nat)
    requires n < |outcomes| && Produce(outcomes[..n]).Ok?
    ensures match outcomes[n].failure
            case Some(failure) => Produce(outcomes) == Err(failure)
            case None => Produce(outcomes[..n + 1]) == Ok(Produce(outcomes[..n]).value + outcomes[n].sent)
    decreases |outcomes|
  {
    if n + 1 < |outcomes| {
      var fewer := outcomes[..|outcomes| - 1];
      assert fewer[..n] == outcomes[..n] && fewer[..n + 1] == outcomes[..n + 1];
      ProduceNext(fewer, n);
    } else {
      assert outcomes[..n + 1] == outcomes;
    }
  }

  predicate AllBelong(input: Input, partition: int) {
    forall topic | topic in input :: forall i | 0 <= i < |input[topic]| :: input[topic][i].partition == partition
  }

  // ------------------------------------------------- several partitions together

  function OfPartition(records: seq<Record>, partition: int): (r: seq<Record>)
    ensures forall i :: 0 <= i < |r| ==> r[i].partition == partition
    ensures r != [] <==> exists i :: 0 <= i < |records| && records[i].partition == partition
  {
    if records == [] then []
    else
      var last := records[|records| - 1];
      OfPartition(records[..|records| - 1], partition) + if last.partition == partition then [last] else []
  }

  function PartOf(input: Input, partition: int): Input {
    map topic | topic in input :: OfPartition(input[topic], partition)
  }

  function PartitionsOf(input: Input): set<int> {
    set topic, i | topic in input && 0 <= i < |input[topic]| :: input[topic][i].partition
  }

  lemma {:induction false} PartBelongs(input: Input, partition: int)
    ensures AllBelong(PartOf(input, partition), partition)
  {
  }

  /** One partition of a call: the processors after it, and what it sends. */
  function Call(nodes: Nodes, was: Processors, partition: int, input: Input): Result<(Processors, seq<Produced>), Failure>
    requires Ordered(nodes)
  {
    var outcomes := Outcomes(nodes, StartOf(nodes, was, partition), Trim(PartOf(input, partition)));
    match Produce(outcomes)
    case Err(failure) => Err(failure)
    case Ok(sent) => Ok((Reached(nodes, was, partition, outcomes, |nodes|), sent))
  }

  function Calls(nodes: Nodes, was: Processors, partitions: seq<int>, input: Input): Result<(Processors, seq<Produced>), Failure>
    requires Ordered(nodes)
  {
    if partitions == [] then Ok((was, []))
    else
      var before :- Calls(nodes, was, partitions[..|partitions| - 1], input);
      var last :- Call(nodes, before.0, partitions[|partitions| - 1], input);
      Ok((last.0, before.1 + last.1))
  }

  lemma {:induction false} CallsNext(nodes: Nodes, was: Processors, partitions: seq<int>, input: Input, n: nat)
    requires Ordered(nodes) && n < |partitions| && Calls(nodes, was, partitions[..n], input).Ok?
    ensures var before := Calls(nodes, was, partitions[..n], input).value;
            Calls(nodes, was, partitions[..n + 1], input)
            == match Call(nodes, before.0, partitions[n], input)
               case Ok((after, sent)) => Ok((after, before.1 + sent))
               case Err(failure) => Err(failure)
  {
    assert partitions[..n + 1][..n] == partitions[..n];
  }

  lemma {:induction false} CallsFail(nodes: Nodes, was: Processors, partitions: seq<int>, input: Input, n: nat)
    requires Ordered(nodes) && n <= |partitions| && Calls(nodes, was, partitions[..n], input).Err?
    ensures Calls(nodes, was, partitions, input) == Calls(nodes, was, partitions[..n], input)
  {
    if n < |partitions| {
      assert partitions[..|partitions| - 1][..n] == partitions[..n];
      CallsFail(nodes, was, partitions[..|partitions| - 1], input, n);
    } else {
      assert partitions[..n] == partitions;
    }
  }

  ghost predicate SameAt(a: Processors, b: Processors, partition: int) {
    (partition in a <==> partition in b) && (partition in a ==> a[partition] == b[partition])
  }

  /** Two inputs carry the same records of a partition. */
  predicate SamePart(x: Input, y: Input, partition: int) {
    Trim(PartOf(x, partition)) == Trim(PartOf(y, partition))
  }

  /** The outcome of a call for a partition depends on nothing but the processors
      and the records of that partition. */
  lemma {:induction false} CallIsLocal(nodes: Nodes, a: Processors, b: Processors, partition: int, x: Input, y: Input)
    requires Ordered(nodes) && SameAt(a, b, partition) && SamePart(x, y, partition)
    ensures Call(nodes, a, partition, x).Ok? <==> Call(nodes, b, partition, y).Ok?
    ensures Call(nodes, a, partition, x).Ok? ==>
              && Call(nodes, a, partition, x).value.1 == Call(nodes, b, partition, y).value.1
              && SameAt(Call(nodes, a, partition, x).value.0, Call(nodes, b, partition, y).value.0, partition)
              && OnlyPartition(a, Call(nodes, a, partition, x).value.0, partition)
  {
  }

  /** What the partitions of a call send, each from the processors before the call. */
  function Sends(nodes: Nodes, was: Processors, partitions: seq<int>, input: Input): seq<Produced>
    requires Ordered(nodes)
  {
    if partitions == [] then []
    else Sends(nodes, was, partitions[..|partitions| - 1], input) + PartSent(nodes, was, partitions[|partitions| - 1], input)
  }

  function PartSent(nodes: Nodes, was: Processors, partition: int, input: Input): seq<Produced>
    requires Ordered(nodes)
  {
    match Call(nodes, was, partition, input)
    case Ok((_, sent)) => sent
    case Err(_) => []
  }

  lemma {:induction false} CallsStep(nodes: Nodes, was: Processors, partitions: seq<int>, input: Input)
    requires Ordered(nodes) && partitions != [] && Calls(nodes, was, partitions, input).Ok?
    ensures var before := Calls(nodes, was, partitions[..|partitions| - 1], input);
            && before.Ok?
            && Call(nodes, before.value.0, partitions[|partitions| - 1], input).Ok?
            && Calls(nodes, was, partitions, input).value.0
               == Call(nodes, before.value.0, partitions[|partitions| - 1], input).value.0
            && Calls(nodes, was, partitions, input).value.1
               == before.value.1 + PartSent(nodes, before.value.0, partitions[|partitions| - 1], input)
  {
  }

  /** Partitions do not see each other within a call. */
  lemma {:induction false} CallsAreLocal(nodes: Nodes, was: Processors, partitions: seq<int>, input: Input, p: int)
    requires Ordered(nodes) && Calls(nodes, was, partitions, input).Ok?
    requires forall i, j :: 0 <= i < j < |partitions| ==> partitions[i] < partitions[j]
    ensures p !in partitions ==> SameAt(was, Calls(nodes, was, partitions, input).value.0, p)
    ensures p in partitions ==>
              && Call(nodes, was, p, input).Ok?
              && SameAt(Call(nodes, was, p, input).value.0, Calls(nodes, was, partitions, input).value.0, p)
  {
    if partitions != [] {
      var before, last := partitions[..|partitions| - 1], partitions[|partitions| - 1];
      assert partitions == before + [last] && last !in before;
      CallsStep(nodes, was, partitions, input);
      CallsAreLocal(nodes, was, before, input, p);
      CallsAreLocal(nodes, was, before, input, last);
      CallIsLocal(nodes, Calls(nodes, was, before, input).value.0, was, last, input, input);
    }
  }

  lemma {:induction false} CallsSend(nodes: Nodes, was: Processors, partitions: seq<int>, input: Input)
    requires Ordered(nodes) && Calls(nodes, was, partitions, input).Ok?
    requires forall i, j :: 0 <= i < j < |partitions| ==> partitions[i] < partitions[j]
    ensures Calls(nodes, was, partitions, input).value.1 == Sends(nodes, was, partitions, input)
  {
    if partitions != [] {
      var before, last := partitions[..|partitions| - 1], partitions[|partitions| - 1];
      assert partitions == before + [last] && last !in before;
      CallsStep(nodes, was, partitions, input);
      CallsSend(nodes, was, before, input);
      CallsAreLocal(nodes, was, before, input, last);
      CallIsLocal(nodes, Calls(nodes, was, before, input).value.0, was, last, input, input);
    }
  }

  function RunAll(nodes: Nodes, was: Processors, inputs: seq<Input>): Result<Processors, Failure>
    requires Ordered(nodes)
  {
    if inputs == [] then Ok(was)
    else
      var before :- RunAll(nodes, was, inputs[..|inputs| - 1]);
      var last :- Calls(nodes, before, SortedInts(PartitionsOf(inputs[|inputs| - 1])), inputs[|inputs| - 1]);
      Ok(last.0)
  }

  lemma {:induction false} NoPartMeansNoRecords(input: Input, partition: int)
    ensures partition in PartitionsOf(input) <==> Trim(PartOf(input, partition)) != map[]
  {
    if partition in PartitionsOf(input) {
      var topic, i :| topic in input && 0 <= i < |input[topic]| && input[topic][i].partition == partition;
      assert topic in Trim(PartOf(input, partition));
    } else {
      assert forall topic :: topic !in Trim(PartOf(input, partition));
    }
  }

  lemma {:induction false} StepIsLocal(nodes: Nodes, a: Processors, b: Processors, x: Input, y: Input, p: int)
    requires Ordered(nodes) && SameAt(a, b, p) && SamePart(x, y, p)
    requires Calls(nodes, a, SortedInts(PartitionsOf(x)), x).Ok? && Calls(nodes, b, SortedInts(PartitionsOf(y)), y).Ok?
    ensures SameAt(Calls(nodes, a, SortedInts(PartitionsOf(x)), x).value.0, Calls(nodes, b, SortedInts(PartitionsOf(y)), y).value.0, p)
    ensures PartSent(nodes, a, p, x) == PartSent(nodes, b, p, y)
  {
    CallsAreLocal(nodes, a, SortedInts(PartitionsOf(x)), x, p);
    CallsAreLocal(nodes, b, SortedInts(PartitionsOf(y)), y, p);
    CallIsLocal(nodes, a, b, p, x, y);
    NoPartMeansNoRecords(x, p);
    NoPartMeansNoRecords(y, p);
  }

  /** Over any sequence of calls, what a partition sends at each call and the
      processors it ends with depend on its own records only. */
  lemma {:induction false} PartitionsAreIndependent(nodes: Nodes, xs: seq<Input>, ys: seq<Input>, p: int)
    requires Ordered(nodes) && |xs| == |ys| && RunAll(nodes, map[], xs).Ok? && RunAll(nodes, map[], ys).Ok?
    requires forall k :: 0 <= k < |xs| ==> SamePart(xs[k], ys[k], p)
    ensures SameAt(RunAll(nodes, map[], xs).value, RunAll(nodes, map[], ys).value, p)
    ensures xs != [] ==>
              var n := |xs| - 1;
              && RunAll(nodes, map[], xs[..n]).Ok? && RunAll(nodes, map[], ys[..n]).Ok?
              && PartSent(nodes, RunAll(nodes, map[], xs[..n]).value, p, xs[n])
                 == PartSent(nodes, RunAll(nodes, map[], ys[..n]).value, p, ys[n])
  {
    if xs != [] {
      var n := |xs| - 1;
      PartitionsAreIndependent(nodes, xs[..n], ys[..n], p);
      StepIsLocal(nodes, RunAll(nodes, map[], xs[..n]).value, RunAll(nodes, map[], ys[..n]).value, xs[n], ys[n], p);
    }
  }

  // ------------------------------------------------------ snapshot and restore

  function SnapshotAt(nodes: Nodes, processors: Processors, partition: int): Result<Snapshots, Failure> {
    if partition in processors then Take(nodes, processors[partition]) else Ok(map[])
  }

  /** Nobody can tell the partition from what it was: it has processors or has
      none, and it takes the same snapshot. */
  ghost predicate LooksTheSame(nodes: Nodes, was: Processors, now: Processors, partition: int) {
    && (partition in now <==> partition in was)
    && SnapshotAt(nodes, now, partition) == SnapshotAt(nodes, was, partition)
  }

  lemma {:induction false} TakeFails(nodes: Nodes, states: States, m: nat, n: nat)
    requires m <= n <= |nodes| && TakeUpTo(nodes, states, m).Err?
    ensures TakeUpTo(nodes, states, n) == TakeUpTo(nodes, states, m)
    decreases n
  {
    if m < n {
      TakeFails(nodes, states, m, n - 1);
    }
  }

  lemma {:induction false} RestoreFails(nodes: Nodes, states: States, snapshots: Snapshots, names: seq<Bytes>, n: nat)
    requires n <= |names| && (forall name :: name in names ==> name in snapshots)
    requires RestoreAll(nodes, states, snapshots, names[..n]).Err?
    ensures RestoreAll(nodes, states, snapshots, names) == RestoreAll(nodes, states, snapshots, names[..n])
  {
    if n < |names| {
      assert names[..|names| - 1][..n] == names[..n];
      RestoreFails(nodes, states, snapshots, names[..|names| - 1], n);
    } else {
      assert names[..n] == names;
    }
  }

  lemma {:induction false} RestoreKeepsKeys(nodes: Nodes, states: States, name: Bytes, bytes: Bytes)
    requires states.Keys == Fresh(nodes).Keys && RestoreOne(nodes, states, name, bytes).Ok?
    ensures RestoreOne(nodes, states, name, bytes).value.Keys == Fresh(nodes).Keys
  {
    var i := Find(nodes, name);
    if Saved(nodes, i) {
      assert i in Fresh(nodes);
      assert forall k :: k in states[i := RestoreOne(nodes, states, name, bytes).value[i]] <==> k in states;
    }
  }

  lemma {:induction false} RestoreNext(nodes: Nodes, states: States, snapshots: Snapshots, names: seq<Bytes>, n: nat)
    requires n < |names| && (forall name :: name in names ==> name in snapshots)
    requires RestoreAll(nodes, states, snapshots, names[..n]).Ok?
    ensures RestoreAll(nodes, states, snapshots, names[..n + 1])
            == RestoreOne(nodes, RestoreAll(nodes, states, snapshots, names[..n]).value, names[n], snapshots[names[n]])
  {
    assert names[..n + 1][..n] == names[..n];
  }

  lemma {:induction false} UpdateTwice(was: Processors, partition: int, a: States, b: States)
    ensures was[partition := a][partition := b] == was[partition := b]
  {
  }

  lemma {:induction false} UpdateComplete(nodes: Nodes, was: Processors, partition: int, states: States)
    requires Complete(nodes, was) && states.Keys == Fresh(nodes).Keys
    ensures Complete(nodes, was[partition := states]) && OnlyPartition(was, was[partition := states], partition)
  {
  }

  // ------------------------------------------------------------------ the class

  class BuiltTopology {
    const nodes: Nodes
    var processors: Processors

    ghost predicate Valid()
      reads this
    {
      Ordered(nodes) && Complete(nodes, processors)
    }

    constructor (nodes: Nodes)
      requires Ordered(nodes)
      ensures Valid() && this.nodes == nodes && processors == map[]
    {
      this.nodes := nodes;
      processors := map[];
    }

    predicate HasPartition(partition: int)
      reads this
    {
      partition in processors
    }

    method PartitionProcessors(partition: int)
      requires Valid()
      modifies this
      ensures Valid()
      ensures processors == old(processors)[partition := StartOf(nodes, old(processors), partition)]
    {
      if partition !in processors {
        processors := processors[partition := Fresh(nodes)];
      } else {
        assert processors[partition := processors[partition]] == processors;
      }
    }

    /** One operator: its processor takes in the batches of the parent in turn. */
    method RunOperator(partition: int, index: nat, batches: seq<Batch>) returns (r: Result<seq<Batch>, Failure>)
      requires Valid() && index < |nodes| && nodes[index].Operator?
      modifies this
      ensures Valid()
      ensures var start := StartOf(nodes, old(processors), partition);
              var run := ProcessAll(nodes[index].process, StateOf(start, index), batches);
              r == run.outcome && processors == old(processors)[partition := start[index := run.state]]
    {
      PartitionProcessors(partition);
      ghost var start := StartOf(nodes, old(processors), partition);
      assert index in Fresh(nodes);
      assert start[index := start[index]] == start;
      ghost var state := start[index];
      var outputs: seq<Batch> := [];
      for i := 0 to |batches|
        invariant ProcessAll(nodes[index].process, start[index], batches[..i]) == Processed(state, Ok(outputs))
        invariant processors == old(processors)[partition := start[index := state]]
      {
        ProcessOneMore(nodes[index].process, start[index], batches, i);
        KeepAgain(old(processors), partition, start, index, state, nodes[index].process(state, batches[i]).state);
        var step := nodes[index].process(processors[partition][index], batches[i]);
        processors := processors[partition := processors[partition][index := step.state]];
        state := step.state;
        if step.outcome.Err? {
          ProcessFails(nodes[index].process, start[index], batches, i + 1);
          return step.outcome;
        }
        outputs := outputs + step.outcome.value;
      }
      assert batches[..|batches|] == batches;
      r := Ok(outputs);
    }

    method RunJoin(partition: int, index: nat, lefts: seq<Batch>, rights: seq<Batch>) returns (r: Result<seq<Batch>, Failure>)
      requires Valid() && index < |nodes| && nodes[index].Join?
      modifies this
      ensures Valid()
      ensures var start := StartOf(nodes, old(processors), partition);
              var run := nodes[index].processSides(StateOf(start, index), lefts, rights);
              r == run.outcome && processors == old(processors)[partition := start[index := run.state]]
    {
      PartitionProcessors(partition);
      assert index in Fresh(nodes);
      var step := nodes[index].processSides(processors[partition][index], lefts, rights);
      processors := processors[partition := processors[partition][index := step.state]];
      r := step.outcome;
    }

    /** The nodes before `index` had their turns, and none of them failed. */
    ghost predicate AtNode(was: Processors, partition: int, input: Input, outcomes: seq<Outcome>, frames: Frames, index: nat)
      reads this
    {
      && Valid()
      && Complete(nodes, was)
      && index <= |nodes|
      && outcomes == Outcomes(nodes, StartOf(nodes, was, partition), Trim(input))
      && Turns(outcomes, index)
      && FramesUpTo(outcomes, frames, index)
      && (forall k :: k in frames ==> k < index)
      && processors == Reached(nodes, was, partition, outcomes, index)
    }

    method SourceTurn(index: nat, input: Input, ghost start: States) returns (r: Result<seq<Batch>, Failure>)
      requires Valid() && index < |nodes| && nodes[index].Source?
      ensures IsOutcome(r, OutcomeOf(nodes, start, Trim(input), index))
    {
      if Needed(nodes, index) {
        r := Decoded(nodes[index].codec, nodes[index].topics, input);
      } else {
        r := Ok([]);
      }
    }

    method OperatorTurn(partition: int, index: nat, input: Input, frames: Frames, ghost was: Processors, ghost outcomes: seq<Outcome>)
      returns (r: Result<seq<Batch>, Failure>)
      requires AtNode(was, partition, input, outcomes, frames, index) && index < |nodes| && nodes[index].Operator?
      modifies this
      ensures Valid() && OnlyPartition(was, processors, partition)
      ensures IsOutcome(r, outcomes[index])
      ensures processors == Reached(nodes, was, partition, outcomes, index + 1)
    {
      ghost var start := StartOf(nodes, was, partition);
      TurnKept(nodes, was, partition, outcomes, index);
      assert nodes[index].parent == nodes[index].Parents()[0];
      ParentFrame(nodes, start, Trim(input), frames, index, nodes[index].parent);
      OperatorOutcome(nodes, start, Trim(input), index, FrameAt(frames, nodes[index].parent));
      r := RunOperator(partition, index, FrameAt(frames, nodes[index].parent));
    }

    method JoinTurn(partition: int, index: nat, input: Input, frames: Frames, ghost was: Processors, ghost outcomes: seq<Outcome>)
      returns (r: Result<seq<Batch>, Failure>)
      requires AtNode(was, partition, input, outcomes, frames, index) && index < |nodes| && nodes[index].Join?
      modifies this
      ensures Valid() && OnlyPartition(was, processors, partition)
      ensures IsOutcome(r, outcomes[index])
      ensures processors == Reached(nodes, was, partition, outcomes, index + 1)
    {
      ghost var start := StartOf(nodes, was, partition);
      TurnKept(nodes, was, partition, outcomes, index);
      ParentFrame(nodes, start, Trim(input), frames, index, nodes[index].Parents()[0]);
      ParentFrame(nodes, start, Trim(input), frames, index, nodes[index].Parents()[1]);
      JoinOutcome(nodes, start, Trim(input), index, FrameAt(frames, nodes[index].left), FrameAt(frames, nodes[index].right));
      r := RunJoin(partition, index, FrameAt(frames, nodes[index].left), FrameAt(frames, nodes[index].right));
    }

    method MergeTurn(index: nat, input: Input, frames: Frames, ghost start: States)
      returns (r: Result<seq<Batch>, Failure>)
      requires Valid() && index < |nodes| && nodes[index].Merge?
      requires Turns(Outcomes(nodes, start, Trim(input)), index)
      requires FramesUpTo(Outcomes(nodes, start, Trim(input)), frames, index)
      ensures IsOutcome(r, OutcomeOf(nodes, start, Trim(input), index))
    {
      ParentComesFirst(nodes, index);
      FramesAreGathered(nodes, start, Trim(input), frames, index, nodes[index].branches);
      r := Gathered(frames, nodes[index].branches);
    }

    method SinkTurn(index: nat, input: Input, frames: Frames, ghost start: States)
      returns (r: Result<seq<Produced>, Failure>)
      requires Valid() && index < |nodes| && nodes[index].Sink?
      requires Turns(Outcomes(nodes, start, Trim(input)), index)
      requires FramesUpTo(Outcomes(nodes, start, Trim(input)), frames, index)
      ensures FailureOf(r) == OutcomeOf(nodes, start, Trim(input), index).failure
      ensures r.Ok? ==> r.value == OutcomeOf(nodes, start, Trim(input), index).sent
    {
      ParentComesFirst(nodes, index);
      assert nodes[index].parent == nodes[index].Parents()[0];
      ParentFrame(nodes, start, Trim(input), frames, index, nodes[index].parent);
      r := Encoded(nodes[index].codec, nodes[index].topic, FrameAt(frames, nodes[index].parent));
    }

    method PassThroughTurn(index: nat, input: Input, ghost start: States) returns (sent: seq<Produced>)
      requires Valid() && index < |nodes| && nodes[index].PassThrough?
      ensures OutcomeOf(nodes, start, Trim(input), index).failure.None?
      ensures sent == OutcomeOf(nodes, start, Trim(input), index).sent
    {
      ParentComesFirst(nodes, index);
      sent := CopiedThrough(nodes[index].topic, nodes[nodes[index].parent].topics, input);
    }

    /** The turn of any node: its frame and what it sends. */
    method NodeTurn(partition: int, index: nat, input: Input, frames: Frames, ghost was: Processors, ghost outcomes: seq<Outcome>)
      returns (r: Result<(seq<Batch>, seq<Produced>), Failure>)
      requires AtNode(was, partition, input, outcomes, frames, index) && index < |nodes|
      requires OnlyPartition(was, processors, partition)
      modifies this
      ensures Valid() && OnlyPartition(was, processors, partition)
      ensures FailureOf(r) == outcomes[index].failure
      ensures r.Ok? ==> r.value == (outcomes[index].frame, outcomes[index].sent)
      ensures r.Ok? ==> processors == Reached(nodes, was, partition, outcomes, index + 1)
    {
      ReachNext(nodes, was, partition, outcomes, index);
      ghost var start := StartOf(nodes, was, partition);
      var frame: Result<seq<Batch>, Failure> := Ok([]);
      match nodes[index] {
        case Source(_, _, _) => frame := SourceTurn(index, input, start);
        case Operator(_, _, _, _) => frame := OperatorTurn(partition, index, input, frames, was, outcomes);
        case Merge(_, _) => frame := MergeTurn(index, input, frames, start);
        case Join(_, _, _, _, _) => frame := JoinTurn(partition, index, input, frames, was, outcomes);
        case Sink(_, _, _, _) =>
          var sent := SinkTurn(index, input, frames, start);
          if sent.Err? { return Err(sent.error); }
          return Ok(([], sent.value));
        case PassThrough(_, _, _) =>
          var copied := PassThroughTurn(index, input, start);
          return Ok(([], copied));
      }
      if frame.Err? { return Err(frame.error); }
      r := Ok((frame.value, []));
    }

    /** The records of one partition through every node in turn. Whether it
        succeeds or not, no other partition is touched. */
    method RunPartition(partition: int, input: Input) returns (r: Result<seq<Produced>, Failure>)
      requires Valid()
      modifies this
      ensures Valid() && OnlyPartition(old(processors), processors, partition)
      ensures !AllBelong(input, partition) ==> r == Err(WRONG_PARTITION)
      ensures AllBelong(input, partition) ==>
                var outcomes := Outcomes(nodes, StartOf(nodes, old(processors), partition), Trim(input));
                && r == Produce(outcomes)
                && (r.Ok? ==> processors == Reached(nodes, old(processors), partition, outcomes, |nodes|))
    {
      if !AllBelong(input, partition) { return Err(WRONG_PARTITION); }
      ghost var was, start := processors, StartOf(nodes, processors, partition);
      ghost var outcomes := Outcomes(nodes, start, Trim(input));
      var frames: Frames := map[];
      var produced: seq<Produced> := [];
      for index := 0 to |nodes|
        invariant AtNode(was, partition, input, outcomes, frames, index)
        invariant OnlyPartition(was, processors, partition)
        invariant Produce(outcomes[..index]) == Ok(produced)
      {
        FrameNext(outcomes, frames, index);
        ProduceNext(outcomes, index);
        var turn := NodeTurn(partition, index, input, frames, was, outcomes);
        if turn.Err? { return Err(turn.error); }
        frames := frames[index := turn.value.0];
        produced := produced + turn.value.1;
      }
      assert outcomes[..|nodes|] == outcomes;
      r := Ok(produced);
    }

    method RunPart(partition: int, input: Input) returns (r: Result<seq<Produced>, Failure>)
      requires Valid()
      modifies this
      ensures Valid()
      ensures match Call(nodes, old(processors), partition, input)
              case Ok((after, sent)) => r == Ok(sent) && processors == after
              case Err(failure) => r == Err(failure)
    {
      PartBelongs(input, partition);
      r := RunPartition(partition, PartOf(input, partition));
    }

    method RunEach(partitions: seq<int>, input: Input) returns (r: Result<seq<Produced>, Failure>)
      requires Valid()
      modifies this
      ensures Valid()
      ensures match Calls(nodes, old(processors), partitions, input)
              case Ok((after, sent)) => r == Ok(sent) && processors == after
              case Err(failure) => r == Err(failure)
    {
      ghost var was := processors;
      var result: seq<Produced> := [];
      for i := 0 to |partitions|
        invariant Valid()
        invariant Calls(nodes, was, partitions[..i], input) == Ok((processors, result))
      {
        CallsNext(nodes, was, partitions, input, i);
        var produced := RunPart(partitions[i], input);
        if produced.Err? {
          CallsFail(nodes, was, partitions, input, i + 1);
          return produced;
        }
        result := result + produced.value;
      }
      assert partitions[..|partitions|] == partitions;
      r := Ok(result);
    }

    /** Several topics together: each partition in ascending order, with its own
        records and its own processors. */
    method RunBatches(input: Input) returns (r: Result<seq<Produced>, Failure>)
      requires Valid()
      modifies this
      ensures Valid()
      ensures match Calls(nodes, old(processors), SortedInts(PartitionsOf(input)), input)
              case Ok((after, sent)) => r == Ok(sent) && processors == after
              case Err(failure) => r == Err(failure)
    {
      r := RunEach(SortedInts(PartitionsOf(input)), input);
    }

    /** The snapshots of a partition, none when it has no processors. */
    method SnapshotPartition(partition: int) returns (r: Result<Snapshots, Failure>)
      ensures r == SnapshotAt(nodes, processors, partition)
    {
      if partition !in processors { return Ok(map[]); }
      var snapshots: Snapshots := map[];
      for index := 0 to |nodes|
        invariant TakeUpTo(nodes, processors[partition], index) == Ok(snapshots)
      {
        if nodes[index].Keeps() && nodes[index].keeper.stateful {
          var snapshot := nodes[index].keeper.snapshot(StateOf(processors[partition], index));
          if snapshot.Err? {
            TakeFails(nodes, processors[partition], index + 1, |nodes|);
            return Err(snapshot.error);
          }
          snapshots := snapshots[nodes[index].name := snapshot.value];
        }
      }
      r := Ok(snapshots);
    }

    /** Fills the processors of a partition, new ones when it has none. */
    method RestorePartition(partition: int, snapshots: Snapshots) returns (r: Result<(), Failure>)
      requires Valid()
      modifies this
      ensures Valid() && OnlyPartition(old(processors), processors, partition)
      ensures match Restored(nodes, StartOf(nodes, old(processors), partition), snapshots)
              case Ok(states) => r == Ok(()) && processors == old(processors)[partition := states]
              case Err(failure) => r == Err(failure)
    {
      PartitionProcessors(partition);
      ghost var was, start := old(processors), StartOf(nodes, old(processors), partition);
      var states := processors[partition];
      var names := Sorted(snapshots.Keys);
      UpdateComplete(nodes, was, partition, start);
      for i := 0 to |names|
        invariant states.Keys == Fresh(nodes).Keys && processors == was[partition := states]
        invariant RestoreAll(nodes, start, snapshots, names[..i]) == Ok(states)
        invariant Complete(nodes, processors) && OnlyPartition(was, processors, partition)
      {
        RestoreNext(nodes, start, snapshots, names, i);
        var next := RestoreOne(nodes, states, names[i], snapshots[names[i]]);
        if next.Err? {
          RestoreFails(nodes, start, snapshots, names, i + 1);
          return Err(next.error);
        }
        RestoreKeepsKeys(nodes, states, names[i], snapshots[names[i]]);
        UpdateTwice(was, partition, states, next.value);
        UpdateComplete(nodes, was, partition, next.value);
        states := next.value;
        processors := processors[partition := states];
      }
      assert names[..|names|] == names;
      r := Ok(());
    }

    method ReleasePartition(partition: int)
      requires Valid()
      modifies this
      ensures Valid() && processors == old(processors) - {partition}
    {
      processors := processors - {partition};
    }
  }
}
