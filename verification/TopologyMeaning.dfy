/** What a run of a topology comes to, told node by node from what its parents yield:
    the recursive meaning is such an evaluation, and the records sent are those of the
    sinks one after the other. */
module TopologyMeanings {
  import opened Wrappers
  import opened ByteCodec
  import opened Records
  import opened Orders
  import opened Sequences
  import opened Topologies
  import BuiltTopologies

  function RowsOf(batches: seq<Batch>): (rows: seq<seq<Bytes>>)
    ensures |rows| == |batches|
  {
    seq(|batches|, k requires 0 <= k < |batches| => batches[k].rows)
  }

  /** The subscribed topics that have records, in ascending order. */
  ghost predicate AreTopics(input: Input, wanted: seq<Bytes>, topics: seq<Bytes>) {
    Ascends(topics) && forall topic :: topic in topics <==> topic in input && topic in wanted
  }

  /** Topic `k` is the first whose records cannot be decoded. */
  ghost predicate DecodingFails(codec: Codec, input: Input, topics: seq<Bytes>, failure: Failure, k: nat)
    requires forall topic :: topic in topics ==> topic in input
  {
    && k < |topics|
    && codec.decode(topics[k], input[topics[k]]) == Err(failure)
    && forall j :: 0 <= j < k ==> codec.decode(topics[j], input[topics[j]]).Ok?
  }

  /** One batch for each topic, decoded from its records; or the first failure. */
  ghost predicate IsDecoded(codec: Codec, input: Input, topics: seq<Bytes>, r: Result<seq<Batch>, Failure>)
    requires forall topic :: topic in topics ==> topic in input
  {
    match r
    case Ok(batches) =>
      |batches| == |topics| && forall k :: 0 <= k < |topics| ==> codec.decode(topics[k], input[topics[k]]) == Ok(batches[k])
    case Err(failure) => exists k :: DecodingFails(codec, input, topics, failure, k)
  }

  /** The calls of a processor: each takes in the next batch in the state the call before
      it left, and a call that fails is the last one. */
  ghost predicate AreCalls(process: (State, Batch) -> Processed, s: State, batches: seq<Batch>, calls: seq<Processed>) {
    && |calls| <= |batches|
    && (forall k :: 0 <= k < |calls| ==> calls[k] == process(StateBefore(s, calls, k), batches[k]))
    && (forall k :: 0 <= k < |calls| && calls[k].outcome.Err? ==> k == |calls| - 1)
    && (|calls| < |batches| ==> calls != [] && calls[|calls| - 1].outcome.Err?)
  }

  function StateBefore(s: State, calls: seq<Processed>, k: nat): State
    requires k <= |calls|
  {
    if k == 0 then s else calls[k - 1].state
  }

  ghost predicate IsProcessed(process: (State, Batch) -> Processed, s: State, batches: seq<Batch>, r: Processed) {
    exists calls :: AreCalls(process, s, batches, calls) && IsLeft(s, calls, r)
  }

  /** What calls leave: the state of the last one, and all outputs in order or its failure. */
  ghost predicate IsLeft(s: State, calls: seq<Processed>, r: Processed) {
    && r.state == StateBefore(s, calls, |calls|)
    && match r.outcome
       case Err(failure) => calls != [] && calls[|calls| - 1].outcome == Err(failure)
       case Ok(outputs) => (forall k :: 0 <= k < |calls| ==> calls[k].outcome.Ok?) && IsConcatenation(OutputsOf(calls), outputs)
  }

  function OutputsOf(calls: seq<Processed>): (outputs: seq<seq<Batch>>)
    ensures |outputs| == |calls|
  {
    seq(|calls|, k requires 0 <= k < |calls| => if calls[k].outcome.Ok? then calls[k].outcome.value else [])
  }

  /** Nothing of nothing, and otherwise one batch with every row of every batch at its
      place. It needs one schema. */
  ghost predicate IsOneBatch(inputs: seq<Batch>, r: Result<seq<Batch>, Failure>) {
    match r
    case Ok(merged) =>
      if inputs == [] then merged == []
      else
        && |merged| == 1
        && (forall k :: 0 <= k < |inputs| ==> inputs[k].schema == merged[0].schema)
        && IsConcatenation(RowsOf(inputs), merged[0].rows)
    case Err(failure) =>
      failure == SCHEMAS_DIFFER && exists j, k :: 0 <= j < k < |inputs| && inputs[j].schema != inputs[k].schema
  }

  /** A merge of the batches of its branches, branch after branch. */
  ghost predicate IsMerged(branches: seq<seq<Batch>>, r: Result<seq<Batch>, Failure>) {
    exists inputs :: IsConcatenation(branches, inputs) && IsOneBatch(inputs, r)
  }

  /** What a node yields, given what the nodes before it yield. */
  ghost predicate Yields(nodes: Nodes, states: States, input: Input, frames: seq<Processed>, i: nat)
    requires Ordered(nodes) && i < |nodes| == |frames|
  {
    ParentComesFirst(nodes, i);
    var s, r := StateOf(states, i), frames[i];
    match nodes[i]
    case Source(_, wanted, codec) =>
      r.state == s && exists topics :: AreTopics(input, wanted, topics) && IsDecoded(codec, input, topics, r.outcome)
    case Operator(_, _, process, parent) =>
      (match frames[parent].outcome
       case Err(failure) => r == Processed(s, Err(failure))
       case Ok(batches) => IsProcessed(process, s, batches, r))
    case Merge(_, branches) =>
      r.state == s && if AllYield(frames, branches) then IsMerged(BatchesOf(frames, branches), r.outcome) else FirstFails(frames, branches, r.outcome)
    case Join(_, _, processSides, left, right) =>
      (match (frames[left].outcome, frames[right].outcome)
       case (Ok(lefts), Ok(rights)) => r == processSides(s, lefts, rights)
       case (Err(failure), _) => r == Processed(s, Err(failure))
       case (_, Err(failure)) => r == Processed(s, Err(failure)))
    case _ => r == Processed(s, Ok([]))
  }

  ghost predicate AllYield(frames: seq<Processed>, parents: seq<nat>)
    requires AllBelow(parents, |frames|)
  {
    forall b :: 0 <= b < |parents| ==> frames[parents[b]].outcome.Ok?
  }

  function BatchesOf(frames: seq<Processed>, parents: seq<nat>): (batches: seq<seq<Batch>>)
    requires AllBelow(parents, |frames|) && AllYield(frames, parents)
    ensures |batches| == |parents|
  {
    seq(|parents|, b requires 0 <= b < |parents| => frames[parents[b]].outcome.value)
  }

  /** The failure of the first parent that failed. */
  ghost predicate FirstFails(frames: seq<Processed>, parents: seq<nat>, r: Result<seq<Batch>, Failure>)
    requires AllBelow(parents, |frames|)
  {
    exists b :: 0 <= b < |parents| && frames[parents[b]].outcome.Err? && r == frames[parents[b]].outcome
                && forall a :: 0 <= a < b ==> frames[parents[a]].outcome.Ok?
  }

  function Frames(nodes: Nodes, states: States, input: Input): (frames: seq<Processed>)
    requires Ordered(nodes)
    ensures |frames| == |nodes|
  {
    seq(|nodes|, i requires 0 <= i < |nodes| => Meaning(nodes, states, input, i))
  }

  // ------------------------------------------------------------------ node laws

  lemma {:induction false} DecodeTopicsDecodes(codec: Codec, input: Input, topics: seq<Bytes>)
    requires forall topic :: topic in topics ==> topic in input
    ensures IsDecoded(codec, input, topics, DecodeTopics(codec, input, topics))
  {
    if topics != [] {
      var before, last := topics[..|topics| - 1], topics[|topics| - 1];
      DecodeTopicsDecodes(codec, input, before);
      if DecodeTopics(codec, input, before).Err? {
        var failure := DecodeTopics(codec, input, before).error;
        var k :| DecodingFails(codec, input, before, failure, k);
        assert forall j :: 0 <= j <= k ==> topics[j] == before[j];
        assert DecodingFails(codec, input, topics, failure, k);
      } else {
        assert forall j :: 0 <= j < |before| ==> topics[j] == before[j];
        assert topics[|before|] == last;
        if codec.decode(last, input[last]).Err? {
          assert DecodingFails(codec, input, topics, codec.decode(last, input[last]).error, |before|);
        }
      }
    }
  }

  lemma {:induction false} ProcessAllProcesses(process: (State, Batch) -> Processed, s: State, batches: seq<Batch>)
    ensures IsProcessed(process, s, batches, ProcessAll(process, s, batches))
  {
    if batches == [] {
      NoBlocks<Batch>();
      assert OutputsOf([]) == [];
      assert AreCalls(process, s, batches, []) && IsLeft(s, [], ProcessAll(process, s, batches));
    } else {
      var earlier, last := batches[..|batches| - 1], batches[|batches| - 1];
      ProcessAllProcesses(process, s, earlier);
      var before := ProcessAll(process, s, earlier);
      var calls :| AreCalls(process, s, earlier, calls) && IsLeft(s, calls, before);
      if before.outcome.Err? {
        assert forall k :: 0 <= k < |calls| ==> batches[k] == earlier[k];
        assert AreCalls(process, s, batches, calls);
      } else {
        OneMoreCall(process, s, batches, calls, before);
      }
    }
  }

  lemma {:induction false} OneMoreCall(process: (State, Batch) -> Processed, s: State, batches: seq<Batch>, calls: seq<Processed>, before: Processed)
    requires batches != [] && before == ProcessAll(process, s, batches[..|batches| - 1]) && before.outcome.Ok?
    requires AreCalls(process, s, batches[..|batches| - 1], calls) && IsLeft(s, calls, before)
    ensures IsProcessed(process, s, batches, ProcessAll(process, s, batches))
  {
    var last := process(before.state, batches[|batches| - 1]);
    AreMoreCalls(process, s, batches, calls, last);
    IsLeftByMore(s, calls, before, last);
  }

  lemma {:induction false} AreMoreCalls(process: (State, Batch) -> Processed, s: State, batches: seq<Batch>, calls: seq<Processed>, last: Processed)
    requires batches != [] && AreCalls(process, s, batches[..|batches| - 1], calls) && |calls| == |batches| - 1
    requires forall k :: 0 <= k < |calls| ==> calls[k].outcome.Ok?
    requires last == process(StateBefore(s, calls, |calls|), batches[|batches| - 1])
    ensures AreCalls(process, s, batches, calls + [last])
  {
    var more := calls + [last];
    forall k: nat | k < |more| ensures more[k] == process(StateBefore(s, more, k), batches[k]) {
      if k < |calls| {
        assert calls[k] == process(StateBefore(s, calls, k), batches[..|batches| - 1][k]);
        assert StateBefore(s, more, k) == StateBefore(s, calls, k);
      }
    }
  }

  lemma {:induction false} IsLeftByMore(s: State, calls: seq<Processed>, before: Processed, last: Processed)
    requires IsLeft(s, calls, before) && before.outcome.Ok?
    ensures IsLeft(s, calls + [last], Processed(last.state, match last.outcome
                                                           case Err(failure) => Err(failure)
                                                           case Ok(outputs) => Ok(before.outcome.value + outputs)))
  {
    if last.outcome.Ok? {
      OneMoreBlock(OutputsOf(calls), before.outcome.value, last.outcome.value);
      assert OutputsOf(calls + [last]) == OutputsOf(calls) + [last.outcome.value];
    }
  }

  lemma {:induction false} AllRowsConcatenate(batches: seq<Batch>)
    ensures IsConcatenation(RowsOf(batches), AllRows(batches))
  {
    if batches == [] {
      NoBlocks<Bytes>();
      assert RowsOf(batches) == [];
    } else {
      var before, last := batches[..|batches| - 1], batches[|batches| - 1];
      AllRowsConcatenate(before);
      OneMoreBlock(RowsOf(before), AllRows(before), last.rows);
      assert RowsOf(batches) == RowsOf(before) + [last.rows];
    }
  }

  lemma {:induction false} ConcatenateMerges(branches: seq<seq<Batch>>, inputs: seq<Batch>)
    requires IsConcatenation(branches, inputs)
    ensures IsMerged(branches, Concatenate(inputs))
  {
    AllRowsConcatenate(inputs);
    if Concatenate(inputs).Err? {
      var k :| 0 <= k < |inputs| && inputs[k].schema != inputs[0].schema;
      assert inputs[0].schema != inputs[k].schema;
    }
  }

  lemma {:induction false} GatherConcatenates(nodes: Nodes, states: States, input: Input, parents: seq<nat>, bound: nat, frames: seq<Processed>)
    requires Ordered(nodes) && bound <= |nodes| && AllBelow(parents, bound) && frames == Frames(nodes, states, input)
    ensures IsGathered(frames, parents, Gather(nodes, states, input, parents, bound))
  {
    if parents == [] {
      NoBlocks<Batch>();
      assert BatchesOf(frames, parents) == [];
    } else {
      GatherConcatenates(nodes, states, input, parents[..|parents| - 1], bound, frames);
      assert frames[parents[|parents| - 1]] == Meaning(nodes, states, input, parents[|parents| - 1]);
      OneMoreParent(frames, parents, Gather(nodes, states, input, parents[..|parents| - 1], bound), Gather(nodes, states, input, parents, bound));
    }
  }

  /** What several parents yield together, or the failure of the first that fails. */
  ghost predicate IsGathered(frames: seq<Processed>, parents: seq<nat>, r: Result<seq<Batch>, Failure>)
    requires AllBelow(parents, |frames|)
  {
    match r
    case Ok(batches) => AllYield(frames, parents) && IsConcatenation(BatchesOf(frames, parents), batches)
    case Err(failure) => !AllYield(frames, parents) && FirstFails(frames, parents, r)
  }

  lemma {:induction false} OneMoreParent(frames: seq<Processed>, parents: seq<nat>, r: Result<seq<Batch>, Failure>, r': Result<seq<Batch>, Failure>)
    requires parents != [] && AllBelow(parents, |frames|) && IsGathered(frames, parents[..|parents| - 1], r)
    requires r' == match (r, frames[parents[|parents| - 1]].outcome)
                   case (Ok(before), Ok(last)) => Ok(before + last)
                   case (Err(failure), _) => Err(failure)
                   case (_, Err(failure)) => Err(failure)
    ensures IsGathered(frames, parents, r')
  {
    var before, last := parents[..|parents| - 1], parents[|parents| - 1];
    assert forall b :: 0 <= b < |before| ==> parents[b] == before[b];
    if r.Ok? && frames[last].outcome.Ok? {
      OneMoreBlock(BatchesOf(frames, before), r.value, frames[last].outcome.value);
      assert BatchesOf(frames, parents) == BatchesOf(frames, before) + [frames[last].outcome.value];
    } else if r.Err? {
      var b :| 0 <= b < |before| && frames[before[b]].outcome.Err? && r == frames[before[b]].outcome
               && forall a :: 0 <= a < b ==> frames[before[a]].outcome.Ok?;
      assert frames[parents[b]].outcome.Err?;
    } else {
      assert frames[parents[|before|]].outcome.Err?;
    }
  }

  lemma {:induction false} SubscribedAreTopics(input: Input, wanted: seq<Bytes>)
    ensures AreTopics(input, wanted, Subscribed(input, wanted))
  {
  }

  /** Every node yields what its definition makes of what its parents yield. */
  lemma {:induction false} MeaningYields(nodes: Nodes, states: States, input: Input, i: nat)
    requires Ordered(nodes) && i < |nodes|
    ensures Yields(nodes, states, input, Frames(nodes, states, input), i)
  {
    var frames := Frames(nodes, states, input);
    ParentComesFirst(nodes, i);
    assert frames[i] == Meaning(nodes, states, input, i);
    match nodes[i] {
      case Source(_, wanted, codec) =>
        SubscribedAreTopics(input, wanted);
        DecodeTopicsDecodes(codec, input, Subscribed(input, wanted));
      case Operator(_, _, process, parent) =>
        assert frames[parent] == Meaning(nodes, states, input, parent);
        if frames[parent].outcome.Ok? {
          ProcessAllProcesses(process, StateOf(states, i), frames[parent].outcome.value);
        }
      case Merge(_, branches) =>
        GatherConcatenates(nodes, states, input, branches, i, frames);
        if AllYield(frames, branches) {
          ConcatenateMerges(BatchesOf(frames, branches), Gather(nodes, states, input, branches, i).value);
        }
      case Join(_, _, _, left, right) =>
        assert frames[left] == Meaning(nodes, states, input, left) && frames[right] == Meaning(nodes, states, input, right);
      case _ =>
    }
  }

  // ------------------------------------------------- there is no other evaluation

  lemma {:induction false} DecodedIsUnique(codec: Codec, input: Input, topics: seq<Bytes>, r: Result<seq<Batch>, Failure>, q: Result<seq<Batch>, Failure>)
    requires forall topic :: topic in topics ==> topic in input
    requires IsDecoded(codec, input, topics, r) && IsDecoded(codec, input, topics, q)
    ensures r == q
  {
    match (r, q) {
      case (Ok(a), Ok(b)) =>
        forall k | 0 <= k < |a| ensures a[k] == b[k] {
          assert codec.decode(topics[k], input[topics[k]]) == Ok(a[k]);
        }
        assert a == b;
      case (Err(f), Err(g)) =>
        var j :| DecodingFails(codec, input, topics, f, j);
        var k :| DecodingFails(codec, input, topics, g, k);
        assert j == k;
      case _ =>
    }
  }

  lemma {:induction false} SameCalls(process: (State, Batch) -> Processed, s: State, batches: seq<Batch>, a: seq<Processed>, b: seq<Processed>, n: nat)
    requires AreCalls(process, s, batches, a) && AreCalls(process, s, batches, b) && n <= |a| && n <= |b|
    ensures forall k :: 0 <= k < n ==> a[k] == b[k]
  {
    if n > 0 {
      SameCalls(process, s, batches, a, b, n - 1);
      assert StateBefore(s, a, n - 1) == StateBefore(s, b, n - 1);
    }
  }

  lemma {:induction false} NoLongerCalls(process: (State, Batch) -> Processed, s: State, batches: seq<Batch>, a: seq<Processed>, b: seq<Processed>)
    requires AreCalls(process, s, batches, a) && AreCalls(process, s, batches, b)
    ensures |a| <= |b|
  {
    if |b| < |a| {
      SameCalls(process, s, batches, a, b, |b|);
    }
  }

  lemma {:induction false} CallsAreUnique(process: (State, Batch) -> Processed, s: State, batches: seq<Batch>, a: seq<Processed>, b: seq<Processed>)
    requires AreCalls(process, s, batches, a) && AreCalls(process, s, batches, b)
    ensures a == b
  {
    NoLongerCalls(process, s, batches, a, b);
    NoLongerCalls(process, s, batches, b, a);
    SameCalls(process, s, batches, a, b, |a|);
  }

  lemma {:induction false} LeftIsUnique(s: State, calls: seq<Processed>, r: Processed, q: Processed)
    requires IsLeft(s, calls, r) && IsLeft(s, calls, q)
    ensures r == q
  {
    if r.outcome.Ok? && q.outcome.Ok? {
      ConcatenationIsUnique(OutputsOf(calls), r.outcome.value, q.outcome.value);
    }
  }

  lemma {:induction false} ProcessedIsUnique(process: (State, Batch) -> Processed, s: State, batches: seq<Batch>, r: Processed, q: Processed)
    requires IsProcessed(process, s, batches, r) && IsProcessed(process, s, batches, q)
    ensures r == q
  {
    var a :| AreCalls(process, s, batches, a) && IsLeft(s, a, r);
    var b :| AreCalls(process, s, batches, b) && IsLeft(s, b, q);
    CallsAreUnique(process, s, batches, a, b);
    LeftIsUnique(s, a, r, q);
  }

  lemma {:induction false} OneBatchIsUnique(inputs: seq<Batch>, r: Result<seq<Batch>, Failure>, q: Result<seq<Batch>, Failure>)
    requires IsOneBatch(inputs, r) && IsOneBatch(inputs, q)
    ensures r == q
  {
    if r.Ok? && q.Ok? && inputs != [] {
      ConcatenationIsUnique(RowsOf(inputs), r.value[0].rows, q.value[0].rows);
      assert inputs[0].schema == r.value[0].schema && inputs[0].schema == q.value[0].schema;
      assert r.value == [r.value[0]] && q.value == [q.value[0]];
    }
  }

  lemma {:induction false} MergedIsUnique(branches: seq<seq<Batch>>, r: Result<seq<Batch>, Failure>, q: Result<seq<Batch>, Failure>)
    requires IsMerged(branches, r) && IsMerged(branches, q)
    ensures r == q
  {
    var a :| IsConcatenation(branches, a) && IsOneBatch(a, r);
    var b :| IsConcatenation(branches, b) && IsOneBatch(b, q);
    ConcatenationIsUnique(branches, a, b);
    OneBatchIsUnique(a, r, q);
  }

  lemma {:induction false} FirstFailureIsUnique(frames: seq<Processed>, parents: seq<nat>, r: Result<seq<Batch>, Failure>, q: Result<seq<Batch>, Failure>)
    requires AllBelow(parents, |frames|) && FirstFails(frames, parents, r) && FirstFails(frames, parents, q)
    ensures r == q
  {
    var a :| 0 <= a < |parents| && frames[parents[a]].outcome.Err? && r == frames[parents[a]].outcome
             && forall k :: 0 <= k < a ==> frames[parents[k]].outcome.Ok?;
    var b :| 0 <= b < |parents| && frames[parents[b]].outcome.Err? && q == frames[parents[b]].outcome
             && forall k :: 0 <= k < b ==> frames[parents[k]].outcome.Ok?;
  }

  /** What a node yields depends on what its parents yield, and on that alone. */
  lemma {:induction false} YieldIsUnique(nodes: Nodes, states: States, input: Input, a: seq<Processed>, b: seq<Processed>, i: nat)
    requires Ordered(nodes) && i < |nodes| == |a| == |b| && forall k :: 0 <= k < i ==> a[k] == b[k]
    requires Yields(nodes, states, input, a, i) && Yields(nodes, states, input, b, i)
    ensures a[i] == b[i]
  {
    ParentComesFirst(nodes, i);
    match nodes[i] {
      case Source(_, wanted, codec) =>
        var t :| AreTopics(input, wanted, t) && IsDecoded(codec, input, t, a[i].outcome);
        var u :| AreTopics(input, wanted, u) && IsDecoded(codec, input, u, b[i].outcome);
        AscendingIsUnique(t, u);
        DecodedIsUnique(codec, input, t, a[i].outcome, b[i].outcome);
      case Operator(_, _, process, parent) =>
        if a[parent].outcome.Ok? { ProcessedIsUnique(process, StateOf(states, i), a[parent].outcome.value, a[i], b[i]); }
      case Merge(_, branches) =>
        assert forall k :: 0 <= k < |branches| ==> a[branches[k]] == b[branches[k]];
        if AllYield(a, branches) {
          assert BatchesOf(a, branches) == BatchesOf(b, branches);
          MergedIsUnique(BatchesOf(a, branches), a[i].outcome, b[i].outcome);
        } else {
          assert FirstFails(a, branches, b[i].outcome);
          FirstFailureIsUnique(a, branches, a[i].outcome, b[i].outcome);
        }
      case _ =>
    }
  }

  lemma {:induction false} SameUpTo(nodes: Nodes, states: States, input: Input, a: seq<Processed>, b: seq<Processed>, n: nat)
    requires Ordered(nodes) && n <= |nodes| == |a| == |b|
    requires forall i: nat :: i < |nodes| ==> Yields(nodes, states, input, a, i) && Yields(nodes, states, input, b, i)
    ensures forall k :: 0 <= k < n ==> a[k] == b[k]
  {
    if n > 0 {
      SameUpTo(nodes, states, input, a, b, n - 1);
      YieldIsUnique(nodes, states, input, a, b, n - 1);
    }
  }

  /** The recursive meaning is the one evaluation there is. */
  lemma {:induction false} MeaningIsOnlyEvaluation(nodes: Nodes, states: States, input: Input, frames: seq<Processed>)
    requires Ordered(nodes) && |frames| == |nodes|
    ensures frames == Frames(nodes, states, input) <==> forall i: nat :: i < |nodes| ==> Yields(nodes, states, input, frames, i)
  {
    forall i: nat | i < |nodes| ensures Yields(nodes, states, input, Frames(nodes, states, input), i) {
      MeaningYields(nodes, states, input, i);
    }
    if forall i: nat :: i < |nodes| ==> Yields(nodes, states, input, frames, i) {
      SameUpTo(nodes, states, input, frames, Frames(nodes, states, input), |nodes|);
    }
  }

  // -------------------------------------------------------------- what is sent

  ghost predicate IsAddressed(topic: Bytes, records: seq<Outgoing>, sent: seq<Produced>) {
    |sent| == |records| && forall k :: 0 <= k < |sent| ==> sent[k] == Produced(topic, records[k])
  }

  /** The records of every batch, batch after batch, addressed to the topic of the sink. */
  ghost predicate IsEncoded(codec: Codec, topic: Bytes, batches: seq<Batch>, sent: seq<Produced>) {
    exists blocks :: EncodedBlocks(codec, topic, batches, blocks) && IsConcatenation(blocks, sent)
  }

  ghost predicate EncodedBlocks(codec: Codec, topic: Bytes, batches: seq<Batch>, blocks: seq<seq<Produced>>) {
    && |blocks| == |batches|
    && forall k :: 0 <= k < |batches| ==>
                     codec.encode(topic, batches[k]).Ok? && IsAddressed(topic, codec.encode(topic, batches[k]).value, blocks[k])
  }

  /** The first batch that cannot be encoded fails. */
  ghost predicate EncodingFails(codec: Codec, topic: Bytes, batches: seq<Batch>, failure: Failure) {
    exists k :: 0 <= k < |batches| && codec.encode(topic, batches[k]) == Err(failure)
                && forall j :: 0 <= j < k ==> codec.encode(topic, batches[j]).Ok?
  }

  ghost predicate IsCopied(topic: Bytes, records: seq<Record>, sent: seq<Produced>) {
    && |sent| == |records|
    && forall k :: 0 <= k < |sent| ==>
                     && sent[k].topic == topic
                     && sent[k].record.key == records[k].key && sent[k].record.value == records[k].value
                     && sent[k].record.timestamp == records[k].timestamp && sent[k].record.headers == records[k].headers
  }

  ghost predicate CopiedBlocks(topic: Bytes, input: Input, topics: seq<Bytes>, blocks: seq<seq<Produced>>)
    requires forall t :: t in topics ==> t in input
  {
    |blocks| == |topics| && forall k :: 0 <= k < |topics| ==> IsCopied(topic, input[topics[k]], blocks[k])
  }

  /** Every record of the subscribed topics as it came, topics in ascending order. */
  ghost predicate IsPassedThrough(topic: Bytes, input: Input, wanted: seq<Bytes>, sent: seq<Produced>) {
    exists topics, blocks ::
      AreTopics(input, wanted, topics) && CopiedBlocks(topic, input, topics, blocks) && IsConcatenation(blocks, sent)
  }

  ghost predicate Sends(nodes: Nodes, input: Input, frames: seq<Processed>, i: nat, sent: seq<Produced>)
    requires Ordered(nodes) && i < |nodes| == |frames|
  {
    ParentComesFirst(nodes, i);
    match nodes[i]
    case Sink(_, topic, codec, parent) =>
      frames[parent].outcome.Ok? && IsEncoded(codec, topic, frames[parent].outcome.value, sent)
    case PassThrough(_, topic, parent) => IsPassedThrough(topic, input, nodes[parent].topics, sent)
    case _ => sent == []
  }

  ghost predicate Fails(nodes: Nodes, frames: seq<Processed>, i: nat, failure: Failure)
    requires Ordered(nodes) && i < |nodes| == |frames|
  {
    ParentComesFirst(nodes, i);
    match nodes[i]
    case Source(_, _, _) => Needed(nodes, i) && frames[i].outcome == Err(failure)
    case Sink(_, topic, codec, parent) =>
      (match frames[parent].outcome
       case Ok(batches) => EncodingFails(codec, topic, batches, failure)
       case Err(error) => failure == error)
    case PassThrough(_, _, _) => false
    case _ => frames[i].outcome == Err(failure)
  }

  lemma {:induction false} EncodeAllEncodes(codec: Codec, topic: Bytes, batches: seq<Batch>)
    ensures match EncodeAll(codec, topic, batches)
            case Ok(sent) => IsEncoded(codec, topic, batches, sent)
            case Err(failure) => EncodingFails(codec, topic, batches, failure)
  {
    if batches == [] {
      NoBlocks<Produced>();
      assert EncodedBlocks(codec, topic, batches, []);
    } else {
      var before, last := batches[..|batches| - 1], batches[|batches| - 1];
      EncodeAllEncodes(codec, topic, before);
      assert forall k :: 0 <= k < |before| ==> batches[k] == before[k];
      match EncodeAll(codec, topic, before) {
        case Err(failure) =>
          var k :| 0 <= k < |before| && codec.encode(topic, before[k]) == Err(failure)
                   && forall j :: 0 <= j < k ==> codec.encode(topic, before[j]).Ok?;
          assert codec.encode(topic, batches[k]) == Err(failure);
        case Ok(sent) =>
          var blocks :| EncodedBlocks(codec, topic, before, blocks) && IsConcatenation(blocks, sent);
          assert forall k :: 0 <= k < |before| ==> codec.encode(topic, batches[k]).Ok?;
          assert codec.encode(topic, batches[|before|]) == codec.encode(topic, last);
          if codec.encode(topic, last).Ok? {
            var next := Addressed(topic, codec.encode(topic, last).value);
            OneMoreBlock(blocks, sent, next);
            assert EncodedBlocks(codec, topic, batches, blocks + [next]);
          }
      }
    }
  }

  lemma {:induction false} CopyTopicsCopies(topic: Bytes, input: Input, topics: seq<Bytes>)
    requires forall t :: t in topics ==> t in input
    ensures exists blocks :: CopiedBlocks(topic, input, topics, blocks) && IsConcatenation(blocks, CopyTopics(topic, input, topics))
  {
    if topics == [] {
      NoBlocks<Produced>();
      assert CopiedBlocks(topic, input, topics, []);
    } else {
      var before, last := topics[..|topics| - 1], topics[|topics| - 1];
      CopyTopicsCopies(topic, input, before);
      var blocks :| CopiedBlocks(topic, input, before, blocks) && IsConcatenation(blocks, CopyTopics(topic, input, before));
      var next := Copied(topic, input[last]);
      OneMoreBlock(blocks, CopyTopics(topic, input, before), next);
      assert forall k :: 0 <= k < |before| ==> topics[k] == before[k];
      assert CopiedBlocks(topic, input, topics, blocks + [next]);
    }
  }

  lemma {:induction false} CopyPassesThrough(topic: Bytes, input: Input, wanted: seq<Bytes>)
    ensures IsPassedThrough(topic, input, wanted, CopyTopics(topic, input, Subscribed(input, wanted)))
  {
    SubscribedAreTopics(input, wanted);
    CopyTopicsCopies(topic, input, Subscribed(input, wanted));
  }

  /** A node sends what it should, or fails as it should. */
  ghost predicate SendsOrFails(nodes: Nodes, input: Input, frames: seq<Processed>, i: nat, outcome: Outcome)
    requires Ordered(nodes) && i < |nodes| == |frames|
  {
    match outcome.failure
    case None => Sends(nodes, input, frames, i, outcome.sent)
    case Some(failure) => Fails(nodes, frames, i, failure)
  }

  lemma {:induction false} SinkSends(nodes: Nodes, states: States, input: Input, i: nat)
    requires Ordered(nodes) && i < |nodes| && nodes[i].Sink?
    ensures SendsOrFails(nodes, input, Frames(nodes, states, input), i, OutcomeOf(nodes, states, input, i))
  {
    var frames, parent := Frames(nodes, states, input), nodes[i].parent;
    ParentComesFirst(nodes, i);
    assert frames[parent] == Meaning(nodes, states, input, parent);
    if frames[parent].outcome.Ok? { EncodeAllEncodes(nodes[i].codec, nodes[i].topic, frames[parent].outcome.value); }
  }

  lemma {:induction false} SentIsSent(nodes: Nodes, states: States, input: Input, i: nat)
    requires Ordered(nodes) && i < |nodes|
    ensures SendsOrFails(nodes, input, Frames(nodes, states, input), i, OutcomeOf(nodes, states, input, i))
  {
    ParentComesFirst(nodes, i);
    if nodes[i].Sink? {
      SinkSends(nodes, states, input, i);
    } else if nodes[i].PassThrough? {
      CopyPassesThrough(nodes[i].topic, input, nodes[nodes[i].parent].topics);
    } else {
      assert Frames(nodes, states, input)[i] == Meaning(nodes, states, input, i);
    }
  }

  function SentBlocks(outcomes: seq<Outcome>): (blocks: seq<seq<Produced>>)
    ensures |blocks| == |outcomes|
  {
    seq(|outcomes|, i requires 0 <= i < |outcomes| => outcomes[i].sent)
  }

  lemma {:induction false} ProduceConcatenates(outcomes: seq<Outcome>)
    ensures match Produce(outcomes)
            case Ok(sent) => Turns(outcomes, |outcomes|) && IsConcatenation(SentBlocks(outcomes), sent)
            case Err(failure) => exists i :: 0 <= i < |outcomes| && Turns(outcomes, i) && outcomes[i].failure == Some(failure)
  {
    if outcomes == [] {
      NoBlocks<Produced>();
      assert SentBlocks(outcomes) == [];
    } else {
      var before, last := outcomes[..|outcomes| - 1], outcomes[|outcomes| - 1];
      ProduceConcatenates(before);
      assert forall i :: 0 <= i < |before| ==> outcomes[i] == before[i];
      match Produce(before) {
        case Err(failure) =>
          var i :| 0 <= i < |before| && Turns(before, i) && before[i].failure == Some(failure);
          assert Turns(outcomes, i) && outcomes[i].failure == Some(failure);
        case Ok(sent) =>
          OneMoreBlock(SentBlocks(before), sent, last.sent);
          assert SentBlocks(outcomes) == SentBlocks(before) + [last.sent];
          if last.failure.Some? { assert Turns(outcomes, |before|) && outcomes[|before|].failure == last.failure; }
      }
    }
  }

  ghost predicate AllSend(nodes: Nodes, input: Input, frames: seq<Processed>, blocks: seq<seq<Produced>>)
    requires Ordered(nodes) && |nodes| == |frames|
  {
    |blocks| == |nodes| && forall i: nat :: i < |nodes| ==> Sends(nodes, input, frames, i, blocks[i])
  }

  /** Every node yields what its definition makes of what its parents yield, and a run
      sends what the sinks send, node after node, or has the failure of the first node
      that fails. */
  lemma {:induction false} RunIsEvaluation(nodes: Nodes, states: States, input: Input)
    requires Ordered(nodes)
    ensures forall i: nat :: i < |nodes| ==> Yields(nodes, states, input, Frames(nodes, states, input), i)
    ensures match Produce(Outcomes(nodes, states, input))
            case Ok(sent) =>
              exists blocks :: AllSend(nodes, input, Frames(nodes, states, input), blocks) && IsConcatenation(blocks, sent)
            case Err(failure) =>
              exists i: nat :: i < |nodes| && Fails(nodes, Frames(nodes, states, input), i, failure)
                               && forall j: nat :: j < i ==> Succeeds(nodes, states, input, j)
    ensures var after := After(states, Outcomes(nodes, states, input), |nodes|);
            after.Keys == states.Keys
            && forall i: nat :: i in states && i < |nodes| ==> after[i] == Frames(nodes, states, input)[i].state
  {
    forall i: nat | i < |nodes| ensures Yields(nodes, states, input, Frames(nodes, states, input), i) {
      MeaningYields(nodes, states, input, i);
    }
    RunSendsAll(nodes, states, input);
  }

  lemma {:induction false} RunSendsAll(nodes: Nodes, states: States, input: Input)
    requires Ordered(nodes)
    ensures match Produce(Outcomes(nodes, states, input))
            case Ok(sent) =>
              exists blocks :: AllSend(nodes, input, Frames(nodes, states, input), blocks) && IsConcatenation(blocks, sent)
            case Err(failure) =>
              exists i: nat :: i < |nodes| && Fails(nodes, Frames(nodes, states, input), i, failure)
                               && forall j: nat :: j < i ==> Succeeds(nodes, states, input, j)
  {
    var outcomes := Outcomes(nodes, states, input);
    ProduceConcatenates(outcomes);
    match Produce(outcomes) {
      case Ok(sent) =>
        forall i: nat | i < |nodes| ensures Sends(nodes, input, Frames(nodes, states, input), i, SentBlocks(outcomes)[i]) {
          assert outcomes[i] == OutcomeOf(nodes, states, input, i);
          SentIsSent(nodes, states, input, i);
        }
        assert AllSend(nodes, input, Frames(nodes, states, input), SentBlocks(outcomes));
      case Err(failure) =>
        var i: nat :| i < |outcomes| && Turns(outcomes, i) && outcomes[i].failure == Some(failure);
        assert outcomes[i] == OutcomeOf(nodes, states, input, i);
        SentIsSent(nodes, states, input, i);
        forall j: nat | j < i ensures Succeeds(nodes, states, input, j) {
          assert outcomes[j] == OutcomeOf(nodes, states, input, j);
          TurnSucceeds(nodes, states, input, j);
        }
    }
  }

  // ------------------------------------------------------- what a partition keeps

  /** After a run each processor of the partition is in the state its node left it in,
      and no other partition has changed. */
  lemma {:induction false} StatesAreKept(nodes: Nodes, was: BuiltTopologies.Processors, partition: int, input: Input)
    requires Ordered(nodes) && BuiltTopologies.Complete(nodes, was)
    ensures var start := BuiltTopologies.StartOf(nodes, was, partition);
            var now := BuiltTopologies.Reached(nodes, was, partition, Outcomes(nodes, start, input), |nodes|);
            && BuiltTopologies.OnlyPartition(was, now, partition)
            && forall i: nat :: i < |nodes| && nodes[i].Keeps() ==>
                                  partition in now && i in now[partition] && now[partition][i] == Frames(nodes, start, input)[i].state
  {
    var start := BuiltTopologies.StartOf(nodes, was, partition);
    forall i: nat | i < |nodes| && nodes[i].Keeps()
      ensures i in start && Outcomes(nodes, start, input)[i].state == Frames(nodes, start, input)[i].state
    {
      assert i in Fresh(nodes);
    }
  }

  // ------------------------------------------------ several partitions together

  /** Each record with the partition, as a block of its own. */
  function PartitionBlocks(records: seq<Record>, partition: int): (blocks: seq<seq<Record>>)
    ensures |blocks| == |records|
  {
    seq(|records|, i requires 0 <= i < |records| => if records[i].partition == partition then [records[i]] else [])
  }

  /** The records of a partition are those that name it, in the order they came. */
  lemma {:induction false} PartIsSelection(records: seq<Record>, partition: int)
    ensures IsConcatenation(PartitionBlocks(records, partition), BuiltTopologies.OfPartition(records, partition))
  {
    if records == [] {
      NoBlocks<Record>();
      assert PartitionBlocks(records, partition) == [];
    } else {
      var before, last := records[..|records| - 1], records[|records| - 1];
      PartIsSelection(before, partition);
      var block := if last.partition == partition then [last] else [];
      OneMoreBlock(PartitionBlocks(before, partition), BuiltTopologies.OfPartition(before, partition), block);
      assert PartitionBlocks(records, partition) == PartitionBlocks(before, partition) + [block];
    }
  }

  /** What each partition produces from the records that are its own, in the states it
      was in before the call. */
  function ProductOf(nodes: Nodes, was: BuiltTopologies.Processors, partition: int, input: Input): Result<seq<Produced>, Failure>
    requires Ordered(nodes)
  {
    Produce(Outcomes(nodes, BuiltTopologies.StartOf(nodes, was, partition), Trim(BuiltTopologies.PartOf(input, partition))))
  }

  function ProductsOf(nodes: Nodes, was: BuiltTopologies.Processors, partitions: seq<int>, input: Input): (products: seq<Result<seq<Produced>, Failure>>)
    requires Ordered(nodes)
    ensures |products| == |partitions|
  {
    seq(|partitions|, k requires 0 <= k < |partitions| => ProductOf(nodes, was, partitions[k], input))
  }

  /** All of them succeed, and these are their blocks. */
  ghost predicate AllProduce(products: seq<Result<seq<Produced>, Failure>>, blocks: seq<seq<Produced>>) {
    |blocks| == |products| && forall k :: 0 <= k < |products| ==> products[k] == Ok(blocks[k])
  }

  /** `r` is what all produce, one after the other, and a failure if one of them fails. */
  ghost predicate IsTogether(products: seq<Result<seq<Produced>, Failure>>, r: Option<seq<Produced>>) {
    match r
    case Some(sent) => exists blocks :: AllProduce(products, blocks) && IsConcatenation(blocks, sent)
    case None => exists k :: 0 <= k < |products| && products[k].Err?
  }

  lemma {:induction false} OneMoreTogether(products: seq<Result<seq<Produced>, Failure>>, r: Option<seq<Produced>>, next: Result<seq<Produced>, Failure>)
    requires IsTogether(products, r)
    ensures IsTogether(products + [next], if r.Some? && next.Ok? then Some(r.value + next.value) else None)
  {
    var more := products + [next];
    if r.Some? && next.Ok? {
      var blocks :| AllProduce(products, blocks) && IsConcatenation(blocks, r.value);
      OneMoreBlock(blocks, r.value, next.value);
      assert AllProduce(more, blocks + [next.value]);
    } else if r.None? {
      var k :| 0 <= k < |products| && products[k].Err?;
      assert more[k].Err?;
    } else {
      assert more[|products|].Err?;
    }
  }

  /** After calls for other partitions a partition produces what it would have before. */
  lemma {:induction false} NextCallIsOwn(nodes: Nodes, was: BuiltTopologies.Processors, before: seq<int>, last: int, input: Input, now: BuiltTopologies.Processors)
    requires Ordered(nodes) && (forall i, j :: 0 <= i < j < |before| ==> before[i] < before[j]) && last !in before
    requires BuiltTopologies.Calls(nodes, was, before, input).Ok? && now == BuiltTopologies.Calls(nodes, was, before, input).value.0
    ensures ProductOf(nodes, now, last, input) == ProductOf(nodes, was, last, input)
  {
    BuiltTopologies.CallsAreLocal(nodes, was, before, input, last);
  }

  /** A call over several partitions succeeds if and only if each of them does on its own,
      and then sends what they send, one after the other. */
  lemma {:induction false} CallsAreEach(nodes: Nodes, was: BuiltTopologies.Processors, partitions: seq<int>, input: Input)
    requires Ordered(nodes) && forall i, j :: 0 <= i < j < |partitions| ==> partitions[i] < partitions[j]
    ensures IsTogether(ProductsOf(nodes, was, partitions, input),
                       match BuiltTopologies.Calls(nodes, was, partitions, input)
                       case Ok((_, sent)) => Some(sent)
                       case Err(_) => None)
  {
    if partitions == [] {
      NoBlocks<Produced>();
      assert AllProduce(ProductsOf(nodes, was, partitions, input), []);
    } else {
      var before, last := partitions[..|partitions| - 1], partitions[|partitions| - 1];
      assert partitions == before + [last] && last !in before;
      CallsAreEach(nodes, was, before, input);
      assert ProductsOf(nodes, was, partitions, input) == ProductsOf(nodes, was, before, input) + [ProductOf(nodes, was, last, input)];
      var r := BuiltTopologies.Calls(nodes, was, before, input);
      if r.Ok? {
        NextCallIsOwn(nodes, was, before, last, input, r.value.0);
      }
      OneMoreTogether(ProductsOf(nodes, was, before, input), if r.Ok? then Some(r.value.1) else None, ProductOf(nodes, was, last, input));
    }
  }
}
