/** A processing graph and its meaning: what every node yields for the records of
    one partition, and how the state of its processors changes. */
module Topologies {
  import opened Wrappers
  import opened Machine
  import opened ByteCodec
  import opened Records
  import opened Orders
  import GroupBy
  import Joins

  datatype Failure = Failure(message: Bytes, retriable: bool)

  const SCHEMAS_DIFFER := Failure([], false)
  const WRONG_PARTITION := Failure([], false)

  datatype Batch = Batch(schema: Bytes, rows: seq<Bytes>)

  datatype Codec = Codec(
    decode: (Bytes, seq<Record>) -> Result<Batch, Failure>,
    encode: (Bytes, Batch) -> Result<seq<Outgoing>, Failure>)

  /** The state of a processor: that of a windowed group-by or a join, or of any
      other processor in whatever form it keeps it. */
  datatype State = Grouped(groups: GroupBy.State) | Joined(sides: Joins.State) | Custom(bytes: Bytes)

  /** The states of the processors of one partition, by node index. */
  type States = map<int, State>

  /** A processor call leaves a state also when it fails. */
  datatype Processed = Processed(state: State, outcome: Result<seq<Batch>, Failure>)

  /** How a processor starts, and how it is saved and filled again. A processor
      that is not stateful takes no part in snapshots. */
  datatype Keeper = Keeper(
    initial: State,
    stateful: bool,
    snapshot: State -> Result<Bytes, Failure>,
    restore: (State, Bytes) -> Result<State, Failure>)

  datatype Definition =
    | Source(name: Bytes, topics: seq<Bytes>, codec: Codec)
    | Operator(name: Bytes, keeper: Keeper, process: (State, Batch) -> Processed, parent: nat)
    | Merge(name: Bytes, branches: seq<nat>)
    | Join(name: Bytes, keeper: Keeper, processSides: (State, seq<Batch>, seq<Batch>) -> Processed, left: nat, right: nat)
    | Sink(name: Bytes, topic: Bytes, codec: Codec, parent: nat)
    | PassThrough(name: Bytes, topic: Bytes, parent: nat)
  {
    function Parents(): seq<nat> {
      match this
      case Source(_, _, _) => []
      case Merge(_, branches) => branches
      case Join(_, _, _, left, right) => [left, right]
      case _ => [parent]
    }

    predicate Keeps() { Operator? || Join? }
  }

  type Nodes = seq<Definition>

  predicate AllBelow(parents: seq<nat>, bound: nat) {
    forall k :: 0 <= k < |parents| ==> parents[k] < bound
  }

  /** Parents come before their children, and a pass-through sink hangs on a source. */
  ghost predicate Ordered(nodes: Nodes) {
    && (forall i :: 0 <= i < |nodes| ==> AllBelow(nodes[i].Parents(), i))
    && (forall i :: 0 <= i < |nodes| && nodes[i].PassThrough? && nodes[i].parent < i ==> nodes[nodes[i].parent].Source?)
  }

  ghost predicate UniqueNames(nodes: Nodes) {
    forall i, j :: 0 <= i < j < |nodes| ==> nodes[i].name != nodes[j].name
  }

  lemma {:induction false} ParentComesFirst(nodes: Nodes, i: nat)
    requires Ordered(nodes) && i < |nodes|
    ensures nodes[i].Operator? || nodes[i].Sink? || nodes[i].PassThrough? ==> nodes[i].parent < i
    ensures nodes[i].Join? ==> nodes[i].left < i && nodes[i].right < i
    ensures nodes[i].Merge? ==> AllBelow(nodes[i].branches, i)
    ensures nodes[i].PassThrough? ==> nodes[nodes[i].parent].Source?
  {
    assert AllBelow(nodes[i].Parents(), i);
    if nodes[i].Join? {
      assert nodes[i].Parents()[0] == nodes[i].left && nodes[i].Parents()[1] == nodes[i].right;
    } else if nodes[i].Operator? || nodes[i].Sink? || nodes[i].PassThrough? {
      assert nodes[i].Parents()[0] == nodes[i].parent;
    }
  }

  /** The topics that have records. */
  function Trim(input: Input): (trimmed: Input)
  {
    map topic | topic in input && input[topic] != [] :: input[topic]
  }

  // ------------------------------------------------------- what a node yields

  function DecodeTopics(codec: Codec, input: Input, topics: seq<Bytes>): Result<seq<Batch>, Failure>
    requires forall topic :: topic in topics ==> topic in input
  {
    if topics == [] then Ok([])
    else
      var last := topics[|topics| - 1];
      var before :- DecodeTopics(codec, input, topics[..|topics| - 1]);
      var batch :- codec.decode(last, input[last]);
      Ok(before + [batch])
  }

  function Subscribed(input: Input, topics: seq<Bytes>): seq<Bytes> {
    Sorted(set topic | topic in input && topic in topics)
  }

  function ProcessAll(process: (State, Batch) -> Processed, s: State, batches: seq<Batch>): Processed {
    if batches == [] then Processed(s, Ok([]))
    else
      var before := ProcessAll(process, s, batches[..|batches| - 1]);
      if before.outcome.Err? then before
      else
        var last := process(before.state, batches[|batches| - 1]);
        match last.outcome
        case Err(failure) => Processed(last.state, Err(failure))
        case Ok(outputs) => Processed(last.state, Ok(before.outcome.value + outputs))
  }

  function AllRows(batches: seq<Batch>): seq<Bytes> {
    if batches == [] then [] else AllRows(batches[..|batches| - 1]) + batches[|batches| - 1].rows
  }

  /** One batch of all rows, if there is any input and the schemas agree. */
  function Concatenate(batches: seq<Batch>): Result<seq<Batch>, Failure> {
    if batches == [] then Ok([])
    else if forall i | 0 <= i < |batches| :: batches[i].schema == batches[0].schema
    then Ok([Batch(batches[0].schema, AllRows(batches))])
    else Err(SCHEMAS_DIFFER)
  }

  function StateOf(states: States, i: nat): State {
    if i in states then states[i] else Custom([])
  }

  /** The meaning of a node: its batches and its next state, by recursion over
      its parents. */
  function Meaning(nodes: Nodes, states: States, input: Input, i: nat): Processed
    requires Ordered(nodes) && i < |nodes|
    decreases i, 1
  {
    ParentComesFirst(nodes, i);
    var s := StateOf(states, i);
    match nodes[i]
    case Source(_, topics, codec) => Processed(s, DecodeTopics(codec, input, Subscribed(input, topics)))
    case Operator(_, _, process, parent) =>
      (match Meaning(nodes, states, input, parent).outcome
       case Err(failure) => Processed(s, Err(failure))
       case Ok(batches) => ProcessAll(process, s, batches))
    case Merge(_, branches) =>
      (match Gather(nodes, states, input, branches, i)
       case Err(failure) => Processed(s, Err(failure))
       case Ok(batches) => Processed(s, Concatenate(batches)))
    case Join(_, _, processSides, left, right) =>
      (match (Meaning(nodes, states, input, left).outcome, Meaning(nodes, states, input, right).outcome)
       case (Ok(lefts), Ok(rights)) => processSides(s, lefts, rights)
       case (Err(failure), _) => Processed(s, Err(failure))
       case (_, Err(failure)) => Processed(s, Err(failure)))
    case _ => Processed(s, Ok([]))
  }

  /** The batches of several nodes, one node after the other. */
  function Gather(nodes: Nodes, states: States, input: Input, parents: seq<nat>, bound: nat): Result<seq<Batch>, Failure>
    requires Ordered(nodes) && bound <= |nodes| && AllBelow(parents, bound)
    decreases bound, 0, |parents|
  {
    if parents == [] then Ok([])
    else
      var before :- Gather(nodes, states, input, parents[..|parents| - 1], bound);
      var last :- Meaning(nodes, states, input, parents[|parents| - 1]).outcome;
      Ok(before + last)
  }

  // -------------------------------------------------------- what a run produces

  function Addressed(topic: Bytes, records: seq<Outgoing>): (r: seq<Produced>)
    ensures |r| == |records|
  {
    seq(|records|, k requires 0 <= k < |records| => Produced(topic, records[k]))
  }

  function EncodeAll(codec: Codec, topic: Bytes, batches: seq<Batch>): Result<seq<Produced>, Failure> {
    if batches == [] then Ok([])
    else
      var before :- EncodeAll(codec, topic, batches[..|batches| - 1]);
      var records :- codec.encode(topic, batches[|batches| - 1]);
      Ok(before + Addressed(topic, records))
  }

  function Copied(topic: Bytes, records: seq<Record>): (r: seq<Produced>)
    ensures |r| == |records|
  {
    seq(|records|, k requires 0 <= k < |records| =>
          Produced(topic, Outgoing(records[k].key, records[k].value, records[k].timestamp, records[k].headers)))
  }

  function CopyTopics(topic: Bytes, input: Input, topics: seq<Bytes>): seq<Produced>
    requires forall t :: t in topics ==> t in input
  {
    if topics == [] then []
    else CopyTopics(topic, input, topics[..|topics| - 1]) + Copied(topic, input[topics[|topics| - 1]])
  }

  /** What a node sends to its topic: a sink the encoding of its parent's meaning,
      a pass-through sink the records of its source as they came. */
  function Sent(nodes: Nodes, states: States, input: Input, i: nat): Result<seq<Produced>, Failure>
    requires Ordered(nodes) && i < |nodes|
  {
    ParentComesFirst(nodes, i);
    match nodes[i]
    case Sink(_, topic, codec, parent) =>
      var batches :- Meaning(nodes, states, input, parent).outcome;
      EncodeAll(codec, topic, batches)
    case PassThrough(_, topic, parent) =>
      Ok(CopyTopics(topic, input, Subscribed(input, nodes[parent].topics)))
    case _ => Ok([])
  }

  /** A source is decoded when anything but a pass-through sink hangs on it. */
  predicate Needed(nodes: Nodes, i: nat) {
    exists k :: 0 <= k < |nodes| && !nodes[k].PassThrough? && i in nodes[k].Parents()
  }

  /** Whether the turn of a node fails. */
  function Turn(nodes: Nodes, states: States, input: Input, i: nat): Option<Failure>
    requires Ordered(nodes) && i < |nodes|
  {
    match nodes[i]
    case Source(_, _, _) => if Needed(nodes, i) then FailureOf(Meaning(nodes, states, input, i).outcome) else None
    case Sink(_, _, _, _) => FailureOf(Sent(nodes, states, input, i))
    case PassThrough(_, _, _) => None
    case _ => FailureOf(Meaning(nodes, states, input, i).outcome)
  }

  function FailureOf<T>(r: Result<T, Failure>): Option<Failure> {
    match r
    case Ok(_) => None
    case Err(failure) => Some(failure)
  }

  function SentBy(nodes: Nodes, states: States, input: Input, i: nat): seq<Produced>
    requires Ordered(nodes) && i < |nodes|
  {
    match Sent(nodes, states, input, i)
    case Ok(records) => records
    case Err(_) => []
  }

  /** What a run puts into the frame of a node. */
  function Frame(nodes: Nodes, states: States, input: Input, i: nat): seq<Batch>
    requires Ordered(nodes) && i < |nodes|
  {
    if nodes[i].Source? && !Needed(nodes, i) then []
    else
      match Meaning(nodes, states, input, i).outcome
      case Ok(batches) => batches
      case Err(_) => []
  }

  /** What the turn of a node comes to. */
  datatype Outcome = Outcome(failure: Option<Failure>, sent: seq<Produced>, frame: seq<Batch>, state: State)

  function OutcomeOf(nodes: Nodes, states: States, input: Input, i: nat): Outcome
    requires Ordered(nodes) && i < |nodes|
  {
    Outcome(Turn(nodes, states, input, i), SentBy(nodes, states, input, i), Frame(nodes, states, input, i),
            Meaning(nodes, states, input, i).state)
  }

  function Outcomes(nodes: Nodes, states: States, input: Input): (outcomes: seq<Outcome>)
    requires Ordered(nodes)
    ensures |outcomes| == |nodes|
  {
    seq(|nodes|, i requires 0 <= i < |nodes| => OutcomeOf(nodes, states, input, i))
  }

  /** What the nodes send one after the other, or the failure of the first one
      that fails. */
  function Produce(outcomes: seq<Outcome>): Result<seq<Produced>, Failure> {
    if outcomes == [] then Ok([])
    else
      var before :- Produce(outcomes[..|outcomes| - 1]);
      match outcomes[|outcomes| - 1].failure
      case Some(failure) => Err(failure)
      case None => Ok(before + outcomes[|outcomes| - 1].sent)
  }

  /** The states once the first `n` nodes had their turns. */
  function After(states: States, outcomes: seq<Outcome>, n: nat): States
    requires n <= |outcomes|
  {
    map i | i in states :: if 0 <= i < n then outcomes[i].state else states[i]
  }

  function Fresh(nodes: Nodes): (states: States)
    ensures forall i :: i in states <==> 0 <= i < |nodes| && nodes[i].Keeps()
  {
    map i | 0 <= i < |nodes| && nodes[i].Keeps() :: nodes[i].keeper.initial
  }

  predicate AnyKeeps(nodes: Nodes, n: nat)
    requires n <= |nodes|
  {
    exists i :: 0 <= i < n && nodes[i].Keeps()
  }

  // ------------------------------------------------------- where a run fails

  ghost predicate Turns(outcomes: seq<Outcome>, n: nat)
    requires n <= |outcomes|
  {
    forall i :: 0 <= i < n ==> outcomes[i].failure.None?
  }

  lemma {:induction false} ProduceSucceeds(outcomes: seq<Outcome>)
    ensures Produce(outcomes).Ok? <==> Turns(outcomes, |outcomes|)
  {
    if outcomes != [] {
      ProduceSucceeds(outcomes[..|outcomes| - 1]);
    }
  }

  /** What a run needs of a node: the encoding of a sink, and the meaning of any
      other node but a source that feeds pass-through sinks only. */
  predicate Succeeds(nodes: Nodes, states: States, input: Input, i: nat)
    requires Ordered(nodes) && i < |nodes|
  {
    if nodes[i].PassThrough? || (nodes[i].Source? && !Needed(nodes, i)) then true
    else if nodes[i].Sink? then Sent(nodes, states, input, i).Ok?
    else Meaning(nodes, states, input, i).outcome.Ok?
  }

  lemma {:induction false} TurnSucceeds(nodes: Nodes, states: States, input: Input, i: nat)
    requires Ordered(nodes) && i < |nodes|
    ensures Turn(nodes, states, input, i).None? <==> Succeeds(nodes, states, input, i)
  {
  }

  lemma {:induction false} RunSucceeds(nodes: Nodes, states: States, input: Input)
    requires Ordered(nodes)
    ensures Produce(Outcomes(nodes, states, input)).Ok? <==>
              forall i: nat :: i < |nodes| ==> Succeeds(nodes, states, input, i)
  {
    var outcomes := Outcomes(nodes, states, input);
    ProduceSucceeds(outcomes);
    forall i: nat | i < |nodes| ensures outcomes[i].failure.None? <==> Succeeds(nodes, states, input, i) {
      TurnSucceeds(nodes, states, input, i);
    }
  }

  /** In a successful run every sink has sent the encoding of the meaning of its
      parent. */
  lemma {:induction false} SinkSendsMeaning(nodes: Nodes, states: States, input: Input, i: nat)
    requires Ordered(nodes) && i < |nodes| && nodes[i].Sink? && Produce(Outcomes(nodes, states, input)).Ok?
    ensures nodes[i].parent < i
    ensures Meaning(nodes, states, input, nodes[i].parent).outcome.Ok?
    ensures EncodeAll(nodes[i].codec, nodes[i].topic, Meaning(nodes, states, input, nodes[i].parent).outcome.value)
            == Ok(Outcomes(nodes, states, input)[i].sent)
  {
    var outcomes := Outcomes(nodes, states, input);
    ProduceSucceeds(outcomes);
    assert outcomes[i].failure == Turn(nodes, states, input, i);
    ParentComesFirst(nodes, i);
  }
}
