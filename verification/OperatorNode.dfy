/** The built-in processors as nodes of a topology: how a windowed group-by, a join and a
    stateless operator keep their state, and that a topology of them can always be
    rolled back. */
module OperatorNodes {
  import opened Wrappers
  import opened Machine
  import opened ByteCodec
  import opened ValueCodec
  import opened Topologies
  import opened PartitionSnapshots
  import opened BuiltTopologies
  import opened BarrierRuns
  import opened Runners
  import opened RunnerRuns
  import opened NodeInvariants
  import Grouping
  import GroupBy
  import GroupSnapshots
  import GroupByRuns
  import Joins
  import JoinProcessors
  import JoinRuns
  import BarrierWorlds

  const UNREADABLE := Failure([], false)
  const TOO_LARGE := Failure([], false)
  const REFUSED := Failure([], false)

  // ----------------------------------------------------------------- group-by

  /** How batches of columns are read as rows and output rows are written, and what a
      batch that fails leaves behind. */
  datatype GroupIo = GroupIo(
    read: Batch -> GroupBy.Batch,
    write: (Batch, seq<seq<Value>>) -> Result<seq<Batch>, Failure>,
    spoilt: (State, Batch) -> State)

  ghost predicate ReadsTyped(c: GroupBy.Config, io: GroupIo) {
    forall batch :: GroupSnapshots.Typed(c, io.read(batch).rows)
  }

  ghost function GroupStep(c: GroupBy.Config, io: GroupIo, s: State, batch: Batch): Processed {
    if s.Grouped? && Grouping.Consistent(s.groups.table) then
      match GroupBy.Step(c, s.groups, io.read(batch))
      case Err(_) => Processed(io.spoilt(s, batch), Err(REFUSED))
      case Ok(next) => Processed(Grouped(next), io.write(batch, GroupBy.Output(next.table)))
    else Processed(s, Err(REFUSED))
  }

  /** A snapshot of 2^32 bytes or more is refused. */
  ghost function GroupSnapshot(s: State): Result<Bytes, Failure> {
    if s.Grouped? && GroupByRuns.SaveOf(s.groups).Some? then Ok(GroupByRuns.SaveOf(s.groups).value) else Err(TOO_LARGE)
  }

  function GroupRestore(bytes: Bytes): Result<State, Failure> {
    match GroupByRuns.LoadOf(bytes)
    case Some(s) => Ok(Grouped(s))
    case None => Err(UNREADABLE)
  }

  ghost function GroupKeeper(): Keeper {
    Keeper(Grouped(GroupBy.INITIAL), true, (s: State) => GroupSnapshot(s), (s: State, bytes: Bytes) => GroupRestore(bytes))
  }

  ghost function GroupProcess(c: GroupBy.Config, io: GroupIo): (State, Batch) -> Processed {
    (s, batch) => GroupStep(c, io, s, batch)
  }

  ghost predicate SoundGroups(c: GroupBy.Config, s: State) { s.Grouped? && GroupSnapshots.Sound(c, s.groups.table) }

  lemma {:induction false} GroupReloads(c: GroupBy.Config, g: GroupBy.State)
    requires GroupSnapshots.Sound(c, g.table) && GroupByRuns.SaveOf(g).Some?
    ensures var n := GroupSnapshots.NormaliseState(g);
            && GroupByRuns.LoadOf(GroupByRuns.SaveOf(g).value) == Some(n) && GroupSnapshots.Sound(c, n.table)
            && GroupByRuns.SaveOf(n) == GroupByRuns.SaveOf(g)
  {
    GroupSnapshots.RestoreSnapshot(c, g);
    GroupByRuns.NormalisedIsSound(c, g);
    GroupSnapshots.NormalisedIsSimilar(c, g);
    GroupSnapshots.SimilarStatesLookTheSame(c, g, GroupSnapshots.NormaliseState(g));
  }

  lemma {:induction false} GroupRefills(c: GroupBy.Config, s: State)
    requires SoundGroups(c, s) && GroupSnapshot(s).Ok?
    ensures GroupRestore(GroupSnapshot(s).value) == Ok(Grouped(GroupSnapshots.NormaliseState(s.groups)))
    ensures SoundGroups(c, Grouped(GroupSnapshots.NormaliseState(s.groups)))
    ensures GroupSnapshot(Grouped(GroupSnapshots.NormaliseState(s.groups))) == GroupSnapshot(s)
  {
    GroupReloads(c, s.groups);
  }

  /** Filling a new group-by from the snapshot of a sound one gives the same state with
      its integers widened: sound again, and with the same snapshot. */
  lemma {:induction false} GroupIsFaithful(c: GroupBy.Config, s: State)
    requires SoundGroups(c, s)
    ensures FaithfulAt(GroupKeeper(), s)
    ensures GroupSnapshot(s).Ok? ==> GroupRestore(GroupSnapshot(s).value).Ok? && SoundGroups(c, GroupRestore(GroupSnapshot(s).value).value)
  {
    if GroupSnapshot(s).Ok? {
      GroupRefills(c, s);
    }
  }

  lemma {:induction false} GroupKeepsSound(node: Definition, c: GroupBy.Config, io: GroupIo)
    requires node.Operator? && node.keeper == GroupKeeper() && node.process == GroupProcess(c, io) && ReadsTyped(c, io)
    ensures KeepsGood(node, s => SoundGroups(c, s))
  {
    forall s, batch | SoundGroups(c, s) && node.process(s, batch).outcome.Ok? ensures SoundGroups(c, node.process(s, batch).state) {
      GroupSnapshots.StepSound(c, s.groups, io.read(batch));
    }
    forall s | SoundGroups(c, s) ensures FaithfulAt(node.keeper, s) && RestoresGood(node.keeper, t => SoundGroups(c, t), s) {
      GroupIsFaithful(c, s);
    }
  }

  // --------------------------------------------------------------------- join

  datatype JoinIo = JoinIo(
    read: Batch -> Joins.JoinBatch,
    write: Joins.Outputs -> Result<seq<Batch>, Failure>,
    spoilt: (State, seq<Batch>, seq<Batch>) -> State)

  function ReadAll(io: JoinIo, batches: seq<Batch>): seq<Joins.JoinBatch> {
    seq(|batches|, i requires 0 <= i < |batches| => io.read(batches[i]))
  }

  function JoinStep(c: Joins.Config, io: JoinIo, s: State, lefts: seq<Batch>, rights: seq<Batch>): Processed {
    if s.Joined? then
      match Joins.Step(c, s.sides, Joins.Round(ReadAll(io, lefts), ReadAll(io, rights)))
      case Err(_) => Processed(io.spoilt(s, lefts, rights), Err(REFUSED))
      case Ok((next, outputs)) => Processed(Joined(next), io.write(outputs))
    else Processed(s, Err(REFUSED))
  }

  function JoinSnapshot(s: State): Result<Bytes, Failure> {
    if s.Joined? && JoinRuns.SaveOf(s.sides).Some? then Ok(JoinRuns.SaveOf(s.sides).value) else Err(TOO_LARGE)
  }

  function JoinRestore(bytes: Bytes): Result<State, Failure> {
    match JoinRuns.LoadOf(bytes)
    case Some(s) => Ok(Joined(s))
    case None => Err(UNREADABLE)
  }

  function JoinKeeper(): Keeper {
    Keeper(Joined(Joins.INITIAL), true, (s: State) => JoinSnapshot(s), (s: State, bytes: Bytes) => JoinRestore(bytes))
  }

  function JoinProcess(c: Joins.Config, io: JoinIo): (State, seq<Batch>, seq<Batch>) -> Processed {
    (s, lefts, rights) => JoinStep(c, io, s, lefts, rights)
  }

  /** Filling a new join from a snapshot gives the very state back. */
  lemma {:induction false} JoinIsExact(s: State)
    requires s.Joined? && JoinSnapshot(s).Ok?
    ensures JoinRestore(JoinSnapshot(s).value) == Ok(s)
  {
    JoinProcessors.RestoreSnapshot(s.sides);
  }

  lemma {:induction false} JoinKeepsSides(node: Definition, c: Joins.Config, io: JoinIo)
    requires node.Join? && node.keeper == JoinKeeper() && node.processSides == JoinProcess(c, io)
    ensures KeepsGood(node, (s: State) => s.Joined?)
  {
    forall s: State | s.Joined? ensures FaithfulAt(node.keeper, s) && RestoresGood(node.keeper, (t: State) => t.Joined?, s) {
      if JoinSnapshot(s).Ok? { JoinIsExact(s); }
    }
  }

  // ---------------------------------------------------------------- stateless

  /** A stateless operator writes no snapshot, and takes none but that. */
  function StatelessKeeper(): Keeper {
    Keeper(Custom([]), true, (s: State) => Ok([]), (s: State, bytes: Bytes) => if bytes == [] then Ok(s) else Err(UNREADABLE))
  }

  function StatelessProcess(apply: Batch -> Result<Batch, Failure>): (State, Batch) -> Processed {
    (s, batch) => match apply(batch)
                  case Ok(output) => Processed(s, Ok([output]))
                  case Err(failure) => Processed(s, Err(failure))
  }

  lemma {:induction false} StatelessKeepsNothing(node: Definition, apply: Batch -> Result<Batch, Failure>)
    requires node.Operator? && node.keeper == StatelessKeeper() && node.process == StatelessProcess(apply)
    ensures KeepsGood(node, s => true)
  {
  }

  // --------------------------------------------------------------- topologies

  datatype Kind =
    | GroupByNode(groups: GroupBy.Config, groupIo: GroupIo)
    | JoinNode(sides: Joins.Config, joinIo: JoinIo)
    | StatelessNode(apply: Batch -> Result<Batch, Failure>)

  ghost predicate IsOf(node: Definition, kind: Kind) {
    match kind
    case GroupByNode(c, io) => node.Operator? && node.keeper == GroupKeeper() && node.process == GroupProcess(c, io) && ReadsTyped(c, io)
    case JoinNode(c, io) => node.Join? && node.keeper == JoinKeeper() && node.processSides == JoinProcess(c, io)
    case StatelessNode(apply) => node.Operator? && node.keeper == StatelessKeeper() && node.process == StatelessProcess(apply)
  }

  /** What each kind of node keeps. */
  ghost function GoodOf(kind: Kind): State -> bool {
    match kind
    case GroupByNode(c, _) => s => SoundGroups(c, s)
    case JoinNode(_, _) => (s: State) => s.Joined?
    case StatelessNode(_) => s => true
  }

  lemma {:induction false} KindKeepsGood(node: Definition, kind: Kind)
    requires IsOf(node, kind)
    ensures node.Keeps() && KeepsGood(node, GoodOf(kind))
  {
    match kind {
      case GroupByNode(c, io) => GroupKeepsSound(node, c, io);
      case JoinNode(c, io) => JoinKeepsSides(node, c, io);
      case StatelessNode(apply) => StatelessKeepsNothing(node, apply);
    }
  }

  /** Every processor of the topology is built in. */
  ghost predicate BuiltIn(nodes: Nodes, kinds: map<int, Kind>) {
    UniqueNames(nodes) && forall i :: 0 <= i < |nodes| && nodes[i].Keeps() ==> i in kinds && IsOf(nodes[i], kinds[i])
  }

  ghost function GoodsOf(kinds: map<int, Kind>): Goods {
    i => if i in kinds then GoodOf(kinds[i]) else s => true
  }

  /** So a topology of group-bys, joins and stateless operators keeps what makes its
      snapshots faithful. */
  lemma {:induction false} BuiltInKeepsGood(nodes: Nodes, kinds: map<int, Kind>)
    requires BuiltIn(nodes, kinds)
    ensures AllKeepGood(nodes, GoodsOf(kinds))
  {
    forall i | 0 <= i < |nodes| && nodes[i].Keeps() ensures KeepsGood(nodes[i], GoodsOf(kinds)(i)) {
      KindKeepsGood(nodes[i], kinds[i]);
    }
  }

  /** Such a topology can be rolled back after any run of rounds, failures and
      restores. */
  lemma {:induction false} BuiltInCanRollBack(env: Env, nodes: Nodes, policy: Policy, kinds: map<int, Kind>, events: seq<BarrierWorlds.Event>,
                                              processors: Processors)
    requires Ordered(nodes) && BuiltIn(nodes, kinds) && Sane(env)
    requires BarrierWorlds.RunEvents(env, ProcessorsOf(nodes, policy), events).Some?
    requires SameStates(BarrierWorlds.RunEvents(env, ProcessorsOf(nodes, policy), events).value.states, processors)
    requires forall q :: q in processors ==> q in BarrierWorlds.RunEvents(env, ProcessorsOf(nodes, policy), events).value.states
    ensures CanRollBack(nodes, processors)
  {
    BuiltInKeepsGood(nodes, kinds);
    RunCanRollBack(env, nodes, policy, GoodsOf(kinds), events, processors);
  }
}
