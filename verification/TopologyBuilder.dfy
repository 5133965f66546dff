/** Building a topology node by node. */
module TopologyBuilders {
  import opened Wrappers
  import opened Machine
  import opened ByteCodec
  import opened Topologies
  import opened BuiltTopologies

  datatype BuildError =
    | NoTopics
    | NoCodec
    | NoProcessor
    | TooFewParents
    | ForeignParent
    | SameParents
    | NegativeWindow
    | WindowTooFine
    | NotASource
    | DuplicateName
    | InvalidParent
    | NoSource
    | NoSink

  /** A handle to a node, good only for the topology that made it. */
  datatype Node = Node(owner: Topology, index: int)

  const LEFT_PREFIX: Bytes := [0x6C, 0x65, 0x66, 0x74, 0x5F]
  const RIGHT_PREFIX: Bytes := [0x72, 0x69, 0x67, 0x68, 0x74, 0x5F]
  const NANOS_IN_A_MILLISECOND := 1_000_000

  /** What a join is asked to do; its window is in nanoseconds. */
  datatype JoinOptions = JoinOptions(leftKey: Bytes, rightKey: Bytes, window: Int64, leftPrefix: Bytes, rightPrefix: Bytes) {
    /** The default prefixes for empty ones, and a window of whole milliseconds or
        none. */
    function Normalized(): (r: Result<JoinOptions, BuildError>)
      ensures r.Ok? <==> window == 0 || window >= NANOS_IN_A_MILLISECOND
      ensures r.Ok? ==> r.value.leftPrefix != [] && r.value.rightPrefix != [] && r.value.window == window
    {
      var named := this.(leftPrefix := if leftPrefix == [] then LEFT_PREFIX else leftPrefix,
                         rightPrefix := if rightPrefix == [] then RIGHT_PREFIX else rightPrefix);
      if window < 0 then Err(NegativeWindow)
      else if window != 0 && window / NANOS_IN_A_MILLISECOND == 0 then Err(WindowTooFine)
      else Ok(named)
    }
  }

  /** The processor of a join. */
  datatype JoinProcess = JoinProcess(keeper: Keeper, processSides: (State, seq<Batch>, seq<Batch>) -> Processed)

  ghost predicate HasParents(nodes: Nodes) {
    forall i :: 0 <= i < |nodes| && !nodes[i].Source? ==> nodes[i].Parents() != [] && AllBelow(nodes[i].Parents(), i)
  }

  ghost predicate HasSource(nodes: Nodes) { exists i :: 0 <= i < |nodes| && nodes[i].Source? }

  ghost predicate HasSink(nodes: Nodes) {
    exists i :: 0 <= i < |nodes| && (nodes[i].Sink? || nodes[i].PassThrough?)
  }

  /** Adding a node whose parents exist keeps the order that rules out cycles. */
  lemma {:induction false} AppendKeepsOrder(nodes: Nodes, node: Definition)
    requires Ordered(nodes) && AllBelow(node.Parents(), |nodes|)
    requires node.PassThrough? ==> nodes[node.Parents()[0]].Source?
    ensures Ordered(nodes + [node])
  {
    var more := nodes + [node];
    forall i | 0 <= i < |more| ensures AllBelow(more[i].Parents(), i) {
      assert i < |nodes| ==> more[i] == nodes[i];
    }
    forall i | 0 <= i < |more| && more[i].PassThrough? && more[i].parent < i ensures more[more[i].parent].Source? {
      if i < |nodes| {
        assert more[i] == nodes[i];
      } else {
        assert node.Parents()[0] == node.parent;
      }
    }
  }

  method ParentsPrecede(parents: seq<nat>, index: nat) returns (valid: bool)
    ensures valid <==> parents != [] && AllBelow(parents, index)
  {
    if |parents| == 0 { return false; }
    for k := 0 to |parents|
      invariant forall m :: 0 <= m < k ==> parents[m] < index
    {
      if parents[k] >= index { return false; }
    }
    valid := true;
  }

  class Topology {
    var nodes: Nodes

    /** Holds however the nodes were added. */
    ghost predicate Valid()
      reads this
    {
      Ordered(nodes) && HasParents(nodes)
    }

    constructor ()
      ensures Valid() && nodes == []
    {
      nodes := [];
    }

    predicate Owns(parent: Node)
      reads this
    {
      parent.owner == this && 0 <= parent.index < |nodes|
    }

    method Add(definition: Definition) returns (node: Node)
      requires Valid() && AllBelow(definition.Parents(), |nodes|)
      requires definition.Parents() != [] || definition.Source?
      requires definition.PassThrough? ==> nodes[definition.Parents()[0]].Source?
      modifies this
      ensures Valid() && nodes == old(nodes) + [definition]
      ensures node == Node(this, |old(nodes)|)
    {
      AppendKeepsOrder(nodes, definition);
      node := Node(this, |nodes|);
      nodes := nodes + [definition];
    }

    method AddSource(name: Bytes, topics: seq<Bytes>, codec: Option<Codec>) returns (r: Result<Node, BuildError>)
      requires Valid()
      modifies this
      ensures Valid()
      ensures r.Ok? <==> topics != [] && codec.Some?
      ensures r.Ok? ==> r.value == Node(this, |old(nodes)|) && nodes == old(nodes) + [Source(name, topics, codec.value)]
      ensures r.Err? ==> nodes == old(nodes)
    {
      if |topics| == 0 { return Err(NoTopics); }
      if codec.None? { return Err(NoCodec); }
      var node := Add(Source(name, topics, codec.value));
      r := Ok(node);
    }

    method AddProcessor(name: Bytes, keeper: Keeper, process: Option<(State, Batch) -> Processed>, parent: Node)
      returns (r: Result<Node, BuildError>)
      requires Valid()
      modifies this
      ensures Valid()
      ensures r.Ok? <==> old(Owns(parent)) && process.Some?
      ensures r.Ok? ==>
                && r.value == Node(this, |old(nodes)|)
                && nodes == old(nodes) + [Operator(name, keeper, process.value, parent.index)]
      ensures r.Err? ==> nodes == old(nodes)
    {
      if !Owns(parent) { return Err(ForeignParent); }
      if process.None? { return Err(NoProcessor); }
      var node := Add(Operator(name, keeper, process.value, parent.index));
      r := Ok(node);
    }

    method AddMerge(name: Bytes, parents: seq<Node>) returns (r: Result<Node, BuildError>)
      requires Valid()
      modifies this
      ensures Valid()
      ensures r.Ok? <==> |parents| >= 2 && forall i :: 0 <= i < |parents| ==> old(Owns(parents[i]))
      ensures r.Ok? ==>
                && r.value == Node(this, |old(nodes)|)
                && |nodes| == |old(nodes)| + 1 && nodes[..|old(nodes)|] == old(nodes)
                && nodes[|old(nodes)|].Merge? && nodes[|old(nodes)|].name == name
                && |nodes[|old(nodes)|].branches| == |parents|
                && (forall i :: 0 <= i < |parents| ==> nodes[|old(nodes)|].branches[i] == parents[i].index)
      ensures r.Err? ==> nodes == old(nodes)
    {
      if |parents| < 2 { return Err(TooFewParents); }
      var branches: seq<nat> := [];
      for i := 0 to |parents|
        invariant nodes == old(nodes) && |branches| == i
        invariant forall k :: 0 <= k < i ==> Owns(parents[k]) && branches[k] == parents[k].index
      {
        if !Owns(parents[i]) { return Err(ForeignParent); }
        branches := branches + [parents[i].index];
      }
      var node := Add(Merge(name, branches));
      r := Ok(node);
    }

    /** `make` gives the processor of a join with these options. */
    method AddJoin(name: Bytes, join: JoinOptions, make: JoinOptions -> JoinProcess, left: Node, right: Node) returns (r: Result<Node, BuildError>)
      requires Valid()
      modifies this
      ensures Valid()
      ensures r.Ok? <==>
                old(Owns(left)) && old(Owns(right)) && left != right && (join.window == 0 || join.window >= NANOS_IN_A_MILLISECOND)
      ensures r.Ok? ==>
                && r.value == Node(this, |old(nodes)|) && join.Normalized().Ok?
                && var made := make(join.Normalized().value);
                   nodes == old(nodes) + [Join(name, made.keeper, made.processSides, left.index, right.index)]
      ensures r.Err? ==> nodes == old(nodes)
    {
      if !Owns(left) || !Owns(right) { return Err(ForeignParent); }
      if left == right { return Err(SameParents); }
      var normalized :- join.Normalized();
      var made := make(normalized);
      var node := Add(Join(name, made.keeper, made.processSides, left.index, right.index));
      r := Ok(node);
    }

    method AddSink(name: Bytes, topic: Bytes, codec: Option<Codec>, parent: Node) returns (r: Result<Node, BuildError>)
      requires Valid()
      modifies this
      ensures Valid()
      ensures r.Ok? <==> old(Owns(parent)) && codec.Some?
      ensures r.Ok? ==>
                r.value == Node(this, |old(nodes)|) && nodes == old(nodes) + [Sink(name, topic, codec.value, parent.index)]
      ensures r.Err? ==> nodes == old(nodes)
    {
      if !Owns(parent) { return Err(ForeignParent); }
      if codec.None? { return Err(NoCodec); }
      var node := Add(Sink(name, topic, codec.value, parent.index));
      r := Ok(node);
    }

    method AddPassThroughSink(name: Bytes, topic: Bytes, source: Node) returns (r: Result<Node, BuildError>)
      requires Valid()
      modifies this
      ensures Valid()
      ensures r.Ok? <==> old(Owns(source)) && old(nodes[source.index].Source?)
      ensures r.Ok? ==> r.value == Node(this, |old(nodes)|) && nodes == old(nodes) + [PassThrough(name, topic, source.index)]
      ensures r.Err? ==> nodes == old(nodes)
    {
      if !Owns(source) { return Err(ForeignParent); }
      if !nodes[source.index].Source? { return Err(NotASource); }
      var node := Add(PassThrough(name, topic, source.index));
      r := Ok(node);
    }

    /** Accepts exactly the graphs with distinct names, a source, a sink, and
        parents that come before their children. */
    method Validate() returns (r: Result<(), BuildError>)
      ensures r.Ok? <==> UniqueNames(nodes) && HasParents(nodes) && HasSource(nodes) && HasSink(nodes)
    {
      var names: set<Bytes> := {};
      var sources, sinks := 0, 0;
      for index := 0 to |nodes|
        invariant forall name :: name in names <==> exists i :: 0 <= i < index && nodes[i].name == name
        invariant forall i, j :: 0 <= i < j < index ==> nodes[i].name != nodes[j].name
        invariant forall i :: 0 <= i < index && !nodes[i].Source? ==> nodes[i].Parents() != [] && AllBelow(nodes[i].Parents(), i)
        invariant sources > 0 <==> exists i :: 0 <= i < index && nodes[i].Source?
        invariant sinks > 0 <==> exists i :: 0 <= i < index && (nodes[i].Sink? || nodes[i].PassThrough?)
        invariant sources >= 0 && sinks >= 0
      {
        var node := nodes[index];
        if node.name in names { return Err(DuplicateName); }
        names := names + {node.name};
        if node.Source? {
          sources := sources + 1;
        } else {
          var valid := ParentsPrecede(node.Parents(), index);
          if !valid { return Err(InvalidParent); }
        }
        if node.Sink? || node.PassThrough? {
          sinks := sinks + 1;
        }
      }
      if sources == 0 { return Err(NoSource); }
      if sinks == 0 { return Err(NoSink); }
      r := Ok(());
    }

    /** A topology that was built by adding nodes needs distinct names, a source and
        a sink, and then it is fit to run: its parents have been checked before. */
    method Build() returns (r: Result<BuiltTopology, BuildError>)
      requires Valid()
      ensures r.Ok? <==> UniqueNames(nodes) && HasSource(nodes) && HasSink(nodes)
      ensures r.Ok? ==> fresh(r.value) && r.value.Valid() && r.value.nodes == nodes && r.value.processors == map[]
    {
      var _ :- Validate();
      var built := new BuiltTopology(nodes);
      r := Ok(built);
    }
  }
}
