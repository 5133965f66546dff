# A verified model of krabkastreams

This project models the stateful machines of a streaming library over Kafka and Arrow, and proves what they
are for. Every claim is a Dafny lemma or contract over all inputs; `dafny verify dfyconfig.toml` checks them.

The parts, each built on the ones above it:

- **Values and bytes** (`Machine`, `ByteCodec`, `ListCodec`, `Decimal`, `ValueCodec`, `ValueReader`, `Headers`,
  `StateStore`, `WireFormat`): wrapping 64-bit arithmetic, the tagged codec of nested values, header columns,
  state files and Confluent frames, with their consuming readers.
- **Event-time operators** (`Aggregates`, `Grouping`, `GroupBy`, `GroupByOperation`, `GroupByOutput`, `GroupSnapshot`,
  `Join`, `JoinProcessor`, `JoinOutput`): a group-by and a join that prune as event time
  advances, proved against definitions over the whole history, and proved equivalent to their restored selves.
- **Topologies** (`Topology`, `TopologyBuilder`, `BuiltTopology`, `TopologyMeaning`, `PartitionSnapshot`): graphs of
  sources, operators, joins, merges and sinks, run partition by partition, proved to be the one evaluation there is.
- **Barriers** (`Barrier`, `BarrierAligner`, `BarrierRun`, `BarrierWorld`, `BarrierProgress`, `CutReader`): exactly-once
  processing. The aligner truncates what was polled at a cut and holds the rest. The theorems are about every run of rounds,
  failures and restores, with any processors; `GroupByRun` and `JoinRun` say what they mean for the two operators.
- **The runner** (`Runner`, `RunnerRun`, `GroupRunner`, `NodeInvariant`, `OperatorNode`): one poll, process, send,
  save and commit cycle with its rollback. Each cycle and each restore is proved to be a step of the runs above,
  and topologies of the built-in operators are proved to be ones that can always be rolled back.
- **Leader election** (`Utf8`, `CoordinationRecord`, `CoordinationReader`, `LeaseTiming`, `Succession`,
  `RoleState`, `Fencing`, `Leadership`): a log fold that ranks candidates, the decision when to challenge, and a
  protocol against a coordinator that mints growing tokens and a broker that refuses superseded ones. `Fencing`
  interleaves the steps of any number of members with any clocks and any lost answers; `Leadership` proves that
  the code's methods are such steps, and that a member takes the role exactly in the turns that read it as due.
- **Blobs and schemas** (`Blob`, `References`, `ArrowTypes`, `Unfolding`, `AvroSchema`, `ProtoSchema`): greedy chunking under a
  cap, and recursion over reference and type graphs with cycles.

Code that updates an object is a class whose methods are proved against a function of the old state; the theorems
are lemmas about that function. Loops are loops. Values and pure functions are datatypes and functions.

How to read some names: a *cut* names, per partition, the offset of a marker; a *barrier* fires once every owned
partition has reached its cut; *delivered* is what processors have taken in, *held* what waits past a cut.

Four findings about the code:

- `docs/barriers.md:117-118` says that a cut behind the committed position does not rewind the commit. The code
  compares the cut with the offsets of its own round alone (`columnar/barrieralign.go:321-336`), so it does rewind:
  `BarrierRuns.LateCutRewinds` is a run that takes a commit from 10 back to 5, and
  `BarrierRuns.OnlyLateBarriersRewind` says exactly when a round does.
- A join sees how its records are cut into rounds, so a replay after a restore can lose or gain an output of the
  uninterrupted run (`JoinRuns.JoinSeesRounds`). Its snapshots and state are those of the rounds they came in;
  `JoinRuns.OutputsAgreeExactly` says exactly when two runs emit a pair alike.
- A record that contains itself as a map value becomes a plain string without the JSON tag
  (`AvroSchemas.MapValueLosesTag`): the map type keeps the type of its values and drops their metadata.
- A reference name that only closes a cycle is not among the resolved names (`References.CycleNameIsMissing`);
  `References.NamesAreExact` says exactly which names are.

## Model

| member | source | states |
|---|---|---|
| `Machine.FloorDivIsFloor` | columnar/ops.go:691-697 | truncating division with the sign test is the mathematical floor, for a divisor of either sign |
| `Machine.SaturatingSubtractClamps` | columnar/ops.go:699-708 | the overflow tests catch exactly the wrapped results: the difference is the exact one clamped to 64 bits |
| `ValueCodec.DecodeEncode` | columnar/ops.go:725-923 | for every nested list and map, decoding the bytes of a value followed by any bytes gives the normalised value and exactly those bytes |
| `ValueCodec.EncodeInjective` | columnar/ops.go:725-779 | two values have the same bytes if and only if they normalise alike (sized integers widened) |
| `ValueCodec.KeyInjective` | columnar/ops.go:711-721 | key parts collide if and only if they normalise alike, although neither a count nor a separator is written |
| `ValueCodec.NormaliseKeepsForm` | columnar/ops.go:725-779 | normalising is idempotent and does not change the bytes, so a value read back encodes as before |
| `ValueCodec.NormaliseForgetsWidth` | columnar/ops.go:725-779 | two values normalise alike if and only if they are the same but for the width of integers, however deep |
| `ValueReaders.ValueReader.Value` | columnar/ops.go:832-923 | the recursive consuming reader ends on any bytes, returns what the codec defines and leaves exactly the unread rest, or the same error |
| `ValueReaders.ValueReader.Sized` | columnar/ops.go:819-830 | a sized read never passes the end of the buffer; its length test is made on the low 32 bits of what is left |
| `Decimal.ParseIntText` | columnar/ops.go:750-753 | the decimal text of every unbounded integer parses to that integer |
| `Decimal.ParseRatText` | columnar/ops.go:752-753 | the text of every fraction in lowest terms parses to that fraction |
| `Aggregates.CountIsLength` | columnar/ops.go:542-603 | a count is the number of rows, nulls included; it fails exactly past the largest 64-bit integer |
| `Aggregates.SumIsTotal` | columnar/ops.go:542-636 | on a column without floats and fractions a sum succeeds if and only if every value is null or an exact integer: of any width, a truth value, or a decimal text; it is then their exact total, null on an all-null column |
| `Aggregates.ExtremeIsReached` | columnar/ops.go:542-688 | a minimum or maximum over integers of any width, signed, unsigned or unbounded, is a member that no member passes; null exactly on an all-null column |
| `Aggregates.AccumulateAlike` | columnar/ops.go:542-603 | accumulators that encode alike stay alike under the same input or fail with the same error |
| `GroupBy.WindowHoldsTimestamp` | columnar/ops.go:363-373 | the computed window is the aligned one that holds the timestamp if and only if that window fits into 64 bits |
| `GroupBy.CutoffIsClamped` | columnar/ops.go:427-432 | the pruning cutoff is the exact stream time minus the retention, clamped |
| `GroupBy.SameGroup` | columnar/ops.go:357-385 | two rows share a group if and only if their keys normalise alike and their windows are equal |
| `Grouping.PruneIsFilter` | columnar/ops.go:427-445 | pruning the groups of some rows gives the groups of the rows in surviving windows: nothing half dropped |
| `Grouping.StepIsFilter` | columnar/ops.go:315-445 | prune, drop late rows, add the rest is grouping the whole history at the new cutoff |
| `GroupBy.RunRefines` | columnar/ops.go:315-445 | after any list of batches without error, groups, aggregates, first-appearance order and stream time are those of one pass over all rows ever seen |
| `GroupBy.BatchingIsInvisible` | columnar/ops.go:315-445 | two runs over the same rows end in the same state however the rows are cut into batches |
| `GroupBy.NoPartialAggregates` | columnar/ops.go:315-445 | a key is present if and only if its window is retained, and its aggregate is then the fold over every row of the history with that key |
| `GroupByOperations.GroupByOperation.PruneExpired` | columnar/ops.go:427-445 | in place: the cutoff, and exactly the groups and the order that survive it |
| `GroupByOperations.GroupByOperation.Apply` | columnar/ops.go:315-425 | one batch in place: the new state and errors are those of the step the theorems are about; forwarded is one row for each group in order, its key parts first and then its finished aggregates from column len(keyParts) on |
| `GroupByOperations.GroupByOperation.Forwarded` | columnar/ops.go:408-424 | the loops over the order, the key parts and the aggregates put each value into its column |
| `GroupByOutputs.OutputIsHistory` | columnar/ops.go:315-424 | what is forwarded after any history, told from its rows alone: one row for each retained key in the order of first appearance, holding the key columns of its first row, the window bounds, and in column len(keyParts)+i the fold of aggregation i over every row of the history with that key |
| `GroupByOutputs.RunSucceeds` | columnar/ops.go:315-445 | a run succeeds if and only if each batch in turn is complete (no null timestamp) and each retained key can be folded, told from the history alone |
| `GroupByOperations.GroupByOperation.AddRow` | columnar/ops.go:357-393 | one row in place: late rows are dropped, a new key is appended, an old one takes in its inputs |
| `GroupByOperations.GroupByOperation.Snapshot` | columnar/ops.go:449-474 | the bytes of the whole state, groups in first-appearance order |
| `GroupByOperations.GroupByOperation.Restore` | columnar/ops.go:476-527 | replaces the whole state by the decoded one, or refuses and changes nothing |
| `GroupSnapshots.RestoreSnapshot` | columnar/ops.go:449-527 | restoring a snapshot gives the state back with its integers widened |
| `GroupSnapshots.RunSound` | columnar/ops.go:315-445 | every reachable state has distinct keys that are the encodings of their groups, which is what a snapshot needs |
| `GroupSnapshots.RestoredOperatorIsEquivalent` | columnar/ops.go:449-527 | stop after any history and restore: on every future the two operators fail alike or forward alike rows and write equal snapshots |
| `GroupByRuns.GroupByIsBisimilar` | columnar/ops.go:449-527 | what is loaded from a snapshot's bytes, with integers widened, cannot be told from the state that was saved: both run alike and save the same bytes |
| `GroupByRuns.GroupByIsInsensitive` | columnar/ops.go:315-445 | up to the width of integers the state of a group-by depends on its records alone, not on how they are cut into rounds |
| `GroupByRuns.GroupByReplayIsInvisible` | columnar/barrieralign.go:94-117 | a group-by behind a barrier, saved as bytes and restored any number of times: at equal positions it forwards alike rows and writes the same snapshot |
| `Joins.WithinWindowIsExact` | columnar/join.go:238-249 | the guarded wrapping comparison holds if and only if the exact distance is within the window |
| `Joins.CutoffIsClamped` | columnar/join.go:251-273 | the pruning cutoff is the exact stream time minus the window, clamped to 64 bits |
| `Joins.StreamTimeIsLatest` | columnar/join.go:251-262 | stream time is the latest timestamp that has arrived on either side |
| `Joins.RunRecalls` | columnar/join.go:264-291 | what a join stores after any run is, per side and in order, every batch of its history whose latest timestamp is at or above the latest timestamp before or in the last round minus the window, clamped, and the batches of that round |
| `Joins.RunStores` | columnar/join.go:46-96 | the stored contents in full: earlier batches that reach latest minus window, then the batches of the last round, which are stored unpruned |
| `Joins.SurvivingIsSelection` | columnar/join.go:264-273 | those are exactly the batches whose latest timestamp is at or above the cutoff, in their order |
| `Joins.RoundEmits` | columnar/join.go:46-96 | one round emits each pair as often as its copies meet: new with stored, new with new, stored with new, and no other |
| `Joins.ExactlyOnce` | columnar/join.go:46-273 | over a whole run a pair is emitted exactly once if the keys match, the exact distance is within the window and the rows meet: they come in one round, or the latest timestamp of the earlier batch is at or above the latest one seen up to the later round minus the window, clamped; otherwise never |
| `JoinOutputs.PairsInOrder` | columnar/join.go:184-236 | the matches of two batches in order: by left row, then by right row, and each matching pair there is |
| `JoinOutputs.StepForwardsInOrder` | columnar/join.go:46-96 | a round forwards, in order: each new left batch with the stored right batches and then with the new ones, then each new right batch with the stored left batches; one output per meeting that has matches |
| `JoinOutputs.StepSucceeds` | columnar/join.go:46-96 | a round succeeds if and only if every new batch can be stored and every stored batch it is matched with can be read back and joined |
| `Joins.TimelyPairIsNotLost` | columnar/join.go:238-273 | a pair whose later row is at stream time is never lost to pruning |
| `JoinProcessors.JoinProcessor.ProcessSides` | columnar/join.go:46-96 | one round in place: state, outputs and errors are those of the step the theorems are about |
| `JoinProcessors.JoinProcessor.JoinedWithStored` | columnar/join.go:165-182 | a batch against the stored batches of the other side, the sides in the right order |
| `JoinProcessors.JoinProcessor.Pruned` | columnar/join.go:264-273 | keeps exactly the batches whose largest timestamp is at or above stream time minus the window, clamped, in order |
| `JoinProcessors.JoinProcessor.Restore` | columnar/join.go:109-134 | replaces the whole state by the decoded one, or refuses and changes nothing |
| `JoinProcessors.RestoreSnapshot` | columnar/join.go:99-163 | a restored join has exactly the state that was saved, so all its later outputs and snapshots are the original's |
| `JoinProcessors.SnapshotRestored` | columnar/join.go:109-163 | the reader is strict: it accepts only bytes that its state encodes to |
| `JoinRuns.JoinIsBisimilar` | columnar/join.go:99-163 | reloading a join from its bytes gives the very state back, so it cannot be told from not reloading |
| `JoinRuns.StateIsRun` | columnar/join.go:46-163 | after any rounds and reloads the state of a join is that of one run over its rounds |
| `JoinRuns.OutputsAgreeExactly` | columnar/join.go:46-273 | two runs over the same rows, cut into rounds in any two ways, emit a pair alike if and only if, keys and window allowing, its rows meet in both or in neither |
| `JoinRuns.TimelyPairsAgree` | columnar/join.go:238-273 | a pair whose later row is at stream time in both runs is emitted alike whatever the rounds |
| `JoinRuns.JoinReplayAgreesExactly` | columnar/barrieralign.go:94-117 | the same over any two runs of the runner with whatever failures and restores |
| `JoinRuns.JoinSeesRounds` | columnar/join.go:46-96 | a history where a replay in other rounds loses an output: window 10, left rows at 0 and 100, a right row at 5; one round emits the pair, three rounds prune the first row before |
| `TopologyBuilders.Topology.AddJoin` | columnar/topology.go:84-224 | succeeds if and only if both parents are nodes of this topology and differ, and the window is zero or a millisecond at least; appends the join with its default prefixes and nothing else |
| `TopologyBuilders.Topology.AddMerge` | columnar/topology.go:186-200 | succeeds if and only if there are two parents at least, all of this topology; keeps their order |
| `TopologyBuilders.Topology.AddPassThroughSink` | columnar/topology.go:245-258 | succeeds if and only if the parent is a source of this topology |
| `TopologyBuilders.Topology.Validate` | columnar/topology.go:276-307 | accepts if and only if names are distinct, there is a source and a sink, and parents precede children |
| `TopologyBuilders.Topology.Build` | columnar/topology.go:310-315 | for a topology made by adding nodes, order holds already: it builds if and only if names are distinct and there is a source and a sink |
| `Topologies.RunSucceeds` | columnar/built.go:78-179 | a run succeeds if and only if every node does on the recursive meaning of its parents; skipped decoding never matters |
| `Topologies.SinkSendsMeaning` | columnar/built.go:78-179 | each sink of a successful run sends the encoding of the recursive meaning of its parent |
| `TopologyMeanings.MeaningIsOnlyEvaluation` | columnar/built.go:78-222 | the recursive meaning is the only evaluation of the graph: a source yields the decoding of its subscribed topics in order, an operator what its calls yield one by one, and a merge no batch if its branches have none, otherwise one batch with the rows of all branches one after the other |
| `TopologyMeanings.RunIsEvaluation` | columnar/built.go:78-179 | a run sends the records of its sinks one after the other, each encoding or copying what its parent yields, or fails as the first node that fails; processors end in the states of the evaluation |
| `TopologyMeanings.StatesAreKept` | columnar/built.go:300-315 | after a run each processor of the partition is in the state of the evaluation, and no other partition has changed |
| `TopologyMeanings.PartIsSelection` | columnar/built.go:39-52 | the records of a partition are those that name it, in the order they came |
| `TopologyMeanings.CallsAreEach` | columnar/built.go:39-68 | a call sends what each partition sends alone, partitions ascending, and fails if and only if one of them does |
| `BuiltTopologies.BuiltTopology.RunPartition` | columnar/built.go:78-207 | the node walk over frames and processors computes those outcomes, in topology order, and touches no other partition even when it fails |
| `BuiltTopologies.BuiltTopology.RunBatches` | columnar/built.go:39-68 | partitions in ascending order, each with its own records; the result and all processors are those of the calls one by one |
| `BuiltTopologies.CallsAreLocal` | columnar/built.go:39-68 | within a call no partition sees another: each ends as if called alone |
| `BuiltTopologies.PartitionsAreIndependent` | columnar/built.go:39-68 | over any sequence of calls, what a partition sends and the state it ends in depend on its own records only |
| `BuiltTopologies.BuiltTopology.RestorePartition` | columnar/built.go:252-271 | fills the partition's processors, new ones if it has none, by name; no other partition changes |
| `BuiltTopologies.BuiltTopology.ReleasePartition` | columnar/built.go:274-282 | drops exactly the processors of that partition |
| `PartitionSnapshots.RestoredTakesTheSame` | columnar/built.go:226-271 | fresh processors restored from the snapshots of a partition take the same snapshots again, if each processor does at the state it was in |
| `PartitionSnapshots.TakeIsExact` | columnar/built.go:226-248 | a snapshot succeeds if and only if each stateful processor gives one, and has under each stateful node's name exactly what that node's processor gave |
| `PartitionSnapshots.RestoreIsExact` | columnar/built.go:252-271 | a restore succeeds if and only if each processor with a snapshot takes it; then those are restored, and those without one are as they were |
| `Barriers.BarrierCommitsTheCut` | columnar/barrieralign.go:282-336 | every offset a barrier commits is the offset of its cut: a round takes in nothing at or past it |
| `BarrierAligners.BarrierAligner.RefreshWith` | columnar/barrieralign.go:186-236 | begins the oldest waiting cut or realigns the pending one; the new aligner state |
| `BarrierAligners.BarrierAligner.MergeHeld` | columnar/barrieralign.go:265-276 | held records go in front of the fetched ones and are held no longer |
| `BarrierAligners.BarrierAligner.AcceptRecords` | columnar/barrieralign.go:282-304 | truncates at the cut, holds the rest, moves the position and marks the partition as reached |
| `BarrierAligners.BarrierAligner.Describe` | columnar/barrieralign.go:321-336 | the offsets raised to the cut and the barrier with its partitions in order |
| `BarrierAligners.BarrierAligner.FinishBarrier` | columnar/barrieralign.go:354-365 | clears the cut and remembers its epoch |
| `BarrierAligners.BarrierAligner.RestoredTo` | columnar/barrieralign.go:369-378 | forgets what was pending and held and starts from the cut's epoch and offsets |
| `BarrierRuns.TakeTracks` | columnar/barrieralign.go:265-304 | delivered followed by held is always what was polled, in order, whatever part of it a round takes |
| `BarrierRuns.LatenessIsFixed` | columnar/barrieralign.go:282-304 | a round never delivers past a pending cut, so a cut that is on time stays so |
| `BarrierRuns.FiredIsExact` | columnar/barrieralign.go:282-336 | when a barrier fires, delivered is exactly the records below the cut if and only if none past it was delivered before the cut was known |
| `BarrierRuns.CommitRewindsExactly` | columnar/barrieralign.go:321-336 | a round moves a committed offset back if and only if it fires a barrier whose cut lies below it, or fires none and the last record it takes in does |
| `BarrierRuns.OnlyLateBarriersRewind` | columnar/runner.go:203-229 | over any run of rounds, cuts late or on time, a round moves a committed offset back if and only if it fires a barrier whose cut lies below it |
| `BarrierRuns.LateCutRewinds` | columnar/barrieralign.go:321-336 | a run that shows it: records at 0 and 9 are committed as 10, a cut at 5 becomes known, and its barrier commits 5 |
| `BarrierWorlds.RunInvariant` | columnar/runner.go:203-372 | for any processors, every run of rounds, failures and restores keeps: delivered and held are what was polled, each state is where some cutting of the delivered records into rounds leads, and each snapshot is such a state for the records below its cut |
| `BarrierWorlds.BarrierIsExact` | columnar/runner.go:203-229 | for any processors, in any run, a round that fires has delivered exactly the records below the cut, has saved for every partition a state that these records lead to in the rounds they came in, and has committed the cut |
| `BarrierProgress.BarrierFires` | columnar/barrieralign.go:214-319 | in any run a barrier fires if and only if every position has reached its cut, and it does fire once every partition is fetched to its cut: a barrier can neither be missed nor come early |
| `BarrierWorlds.RestoreInvariant` | columnar/barrieralign.go:94-117 | restoring to a saved epoch re-establishes the invariant whatever a failed round left behind |
| `BarrierWorlds.ReloadsAreInvisible` | columnar/barrieralign.go:94-117 | when what is loaded cannot be told from what was saved, a history with reloads ends alike to the same rounds without them |
| `BarrierWorlds.SameRoundsSameState` | columnar/barrieralign.go:94-117 | two runs with whatever failures and restores: a partition whose records came in the same rounds ends in states that cannot be told apart, joins included |
| `BarrierWorlds.RestoreKeepsRounds` | columnar/barrieralign.go:94-117 | a restore keeps the rounds that led to the snapshot, so only the cutting of the records after the cut can differ |
| `BarrierWorlds.ReplayIsInvisible` | columnar/barrieralign.go:94-117 | processors whose state does not depend on the rounds end in states that cannot be told apart at equal positions, whatever the failures and restores |
| `CutReaders.InterleavingIsInvisible` | columnar/barriercut.go:183-206 | how the partitions of the cut topic interleave does not matter to what is read of an epoch |
| `CutReaders.CutReader.Accept` | columnar/barriercut.go:183-206 | the map holds the last write of each group and epoch; a tombstone removes, a malformed record is refused and changes nothing |
| `CutReaders.CutReader.CompleteCutsAfter` | columnar/barriercut.go:109-125 | exactly the complete cuts above an epoch, ascending |
| `CutReaders.CutReader.LatestCompleteCut` | columnar/barriercut.go:93-103 | the complete cut of the highest epoch, none only if there is none |
| `CutReaders.CutReader.CompleteCutAt` | columnar/barriercut.go:129-141 | the cut of one epoch if its last write is complete |
| `CutReaders.NoCutIsSkipped` | columnar/barrieralign.go:186-208 | with the cuts of the reader, the aligner begins the complete cut of the least epoch above its last one and waits only while there is none |
| `Runners.Rollback` | columnar/runner.go:285-289 | after a rollback every partition is untouched or filled anew from its snapshot: it looks as before the round, and the next round can be rolled back too |
| `Runners.RestorePrior` | columnar/runner.go:408-413 | one partition is filled anew from its earlier snapshot, looks as it did, and no other changes |
| `Runners.OutcomeIsEvaluation` | columnar/built.go:72-179 | what a partition yields in a round is the evaluation of the topology from the states it has, or new ones: the sinks' records in order, or the failure of the first node that fails |
| `Runners.RunOne` | columnar/runner.go:319-366 | the turn of one partition: it goes on if and only if the partition succeeds or the policy forgives its failure; it adds what the partition sends, its dead letters, or nothing under skip, and on an error the partition is put back |
| `Runners.RunPartitions` | columnar/runner.go:309-371 | the policy loop succeeds if and only if each partition goes on, else with the error of the first that does not and no trace; each partition has advanced or, if its batch was skipped, is rolled back, and the outputs are one block for each partition, ascending: what it sends, its dead letters, or nothing |
| `Runners.OutputIsUnique` | columnar/runner.go:309-371 | a round can send nothing else: those blocks determine its outputs |
| `Runners.GatheringIsExact` | columnar/runner.go:293-308 | the records a round takes in reach the topology under their own topic and partition, all of them and no other |
| `Runners.RoundAdvances` | columnar/runner.go:309-371 | under skip and dead-letter the failed partitions alone are rolled back, every other one of the round advances |
| `Runners.LettersFor` | columnar/runner.go:384-397 | dead letters for every record of a failed batch, topics ascending and records in order, each at the dead-letter topic |
| `Runners.DeadLetterTellsOrigin` | columnar/runner.go:384-397 | from a dead letter the record, its own headers and the topic, partition and offset it came from can be told |
| `Runners.GroupRun.ProcessPoll` | columnar/runner.go:291-372 | a poll succeeds if and only if it is polled and each partition goes on; what it leaves: offsets of exactly the records taken in, raised to the cut when a barrier fires, and one block of outputs for each partition; an error leaves no trace |
| `Runners.GroupRun.SaveBarrier` | columnar/barrieralign.go:340-351 | succeeds if and only if every partition of a barrier gives a snapshot and the store takes it; saves them in order, all of them or those before the one that fails, and changes nothing else in the store |
| `Runners.GroupRun.RunGroupOnce` | columnar/runner.go:203-229 | succeeds if and only if the poll, every partition, the sends, the saves and the commit do; then the partitions have advanced, the store has the barrier that fired and nothing else new, the aligner has finished it, the offsets are those of the records taken in, and what each partition sends has been sent, one block after the other; an error leaves no trace in any processor, wherever it happened, and no more in the store than some snapshots of the barrier |
| `Runners.GroupRun.RunGroupOnceTransactional` | columnar/runner.go:234-271 | the same with one transaction, which carries those outputs and is aborted if and only if the cycle failed after it began |
| `Runners.GroupRun.RunOnce` | columnar/runner.go:499-548 | takes up the next cut and observes positions first; succeeds if and only if those and the cycle do, and the outcome is that of the cycle for the aligner so prepared |
| `Runners.GroupRun.RestoreToCut` | columnar/barrieralign.go:94-131 | succeeds if and only if every snapshot loads and fills and every seek succeeds; then each partition of the cut is exactly new processors filled from its snapshot, inputs are sought to their markers, and the aligner restarts there |
| `RunnerRuns.SuccessIsClose` | columnar/runner.go:203-229 | a cycle that succeeds is the end of a round of the world that describes the runner: processors, aligner and store, skipped batches included |
| `RunnerRuns.FailureIsFailed` | columnar/runner.go:203-229 | what a failed cycle leaves in the store is what a failed round of the world leaves |
| `RunnerRuns.FillingIsRestoring` | columnar/barrieralign.go:94-117 | filling every partition from the store is the restore of the world |
| `GroupRunners.RunOnce` | columnar/runner.go:499-548 | a runner that stands where a run of rounds, failures and restores leads stands, after a cycle, where that run leads with this round added, or at its failure |
| `GroupRunners.RestoreToCut` | columnar/barrieralign.go:94-117 | from a runner that stands anywhere, broken by a failure or not, a restore leads on in the same run; one that fails leaves it broken |
| `GroupRunners.IsExactAfter` | columnar/runner.go:203-229 | so after any calls of the two, when a barrier fires, the runner's own store, aligner and commits are exact in the sense of barrier exactness |
| `GroupRunners.StandsAtStart` | columnar/runner.go:467-494 | a runner with no processors, a new aligner and an empty store stands at the start of a run |
| `GroupRunners.IsReadyAgain` | columnar/runner.go:399-413 | a runner that stands anywhere unbroken can start its next round: processors it may have to roll back are faithful, if the topology keeps them so |
| `NodeInvariants.RunCanRollBack` | columnar/runner.go:399-413 | after any run of rounds, failures and restores every round can be rolled back, if processors keep something that makes their snapshots faithful |
| `OperatorNodes.GroupIsFaithful` | columnar/ops.go:449-527 | a new group-by filled from the snapshot of a sound one takes that snapshot again, and is sound |
| `OperatorNodes.BuiltInCanRollBack` | columnar/runner.go:399-413 | so any topology of group-bys, joins and stateless operators can be rolled back after any run |
| `CoordinationRecords.SupersedesIsTotalOrder` | coordination/record.go:208-216 | tokens are totally ordered, and every minted one supersedes the token of a role never taken |
| `CoordinationRecords.FreshProducerSupersedes` | coordination/record.go:208-216 | a newer producer id supersedes although its epoch starts over |
| `CoordinationRecords.DecodeEncodeKey` | coordination/record.go:306-381 | a key reads back if and only if its names are valid UTF-8 |
| `CoordinationRecords.EncodeDecodeKey` | coordination/record.go:341-381 | bytes accepted as a key encode to themselves |
| `CoordinationRecords.DecodeEncodeRegistration` | coordination/record.go:319-409 | a registration reads back if and only if its name is valid UTF-8 |
| `CoordinationRecords.EncodeDecodeRegistration` | coordination/record.go:387-409 | bytes accepted as a registration encode to themselves |
| `CoordinationRecords.DecodeEncodeLease` | coordination/record.go:327-452 | a lease reads back if and only if its name is valid UTF-8 and its token minted |
| `CoordinationRecords.EncodeDecodeLease` | coordination/record.go:415-452 | bytes accepted as a lease encode to themselves |
| `CoordinationReaders.ParseKey` | coordination/record.go:341-381 | the consuming reader accepts and refuses exactly as the key codec |
| `CoordinationReaders.ParseRegistration` | coordination/record.go:387-409 | the consuming reader accepts and refuses exactly as the registration codec |
| `CoordinationReaders.ParseLease` | coordination/record.go:415-452 | the consuming reader accepts and refuses exactly as the lease codec |
| `LeaseTimings.ChallengeDelayIsExact` | coordination/lease.go:108-116 | the delay is the exact product of rank and stagger, saturated |
| `LeaseTimings.AddMillisIsExact` | coordination/lease.go:198-204 | adding an extent is exact and saturated, never earlier |
| `LeaseTimings.ChallengeAtIsMonotone` | coordination/lease.go:189-191 | rank zero challenges at the deadline, a later rank never before an earlier one |
| `LeaseTimings.RenewsInTime` | coordination/lease.go:121-181 | a holder on schedule writes before its lease expires |
| `Successions.CompactionIsInvisible` | coordination/succession.go:107-237 | the role state is the same for every compaction of the log, final tombstones dropped or not |
| `Successions.PermutationIsInvisible` | coordination/succession.go:107-237 | the role state is the same for every order of the records |
| `Successions.StateTellsLastRecords` | coordination/succession.go:155-237 | a member is on the roster if and only if the last record of its key registers it, at that record's offset, in offset order; the lease is the one the last lease record grants |
| `RoleStates.BuildRoleState` | coordination/succession.go:107-115 | the fold over the log is a role state as the two theorems take it, or the first decoding error |
| `RoleStates.RoleStateBuilder.Apply` | coordination/succession.go:161-199 | one record updates the slot its key names; one that does not decode changes nothing |
| `RoleStates.RoleStateBuilder.Build` | coordination/succession.go:202-223 | the registered members in offset order and the lease last written |
| `RoleStates.RanksAreBijective` | coordination/succession.go:65-84 | in the state that any records fold into, the standbys map one to one onto the ranks from zero up, in offset order |
| `RoleStates.EvaluateIsTimed` | coordination/succession.go:314-334 | each member has one instant computed from the state: it challenges if and only if now is not before it, and until then holds or waits for it |
| `RoleStates.DecisionIsDue` | coordination/succession.go:314-334 | a member registers if it is not on the roster; otherwise it waits if and only if it does not hold the role and now is before its instant |
| `RoleStates.InstantIsExact` | coordination/succession.go:314-334 | that instant is the deadline of the lease, or the member's registration without one, plus rank times stagger, saturated |
| `RoleStates.LiveLeaseIsRespected` | coordination/succession.go:314-334 | nobody is due while another member's lease lives |
| `RoleStates.SuccessionIsStaggered` | coordination/succession.go:314-334 | under a lease nobody challenges before the deadline nor a later rank before an earlier one |
| `RoleStates.NoFailback` | coordination/succession.go:155-237 | who registers above every offset is last, the others keep their order, and nobody's rank worsens |
| `Fencing.TokensAreUnique` | coordination/transport.go:41-57 | two mints give different tokens, the later one superseding |
| `Fencing.AcceptedIsNotStale` | coordination/transport.go:82-97 | after a mint, no first grant, renewal or resignation under an older token is accepted |
| `Fencing.AcceptedTokensDoNotFall` | coordination/leadership.go:332-478 | accepted lease records and tombstones carry non-decreasing tokens in log order |
| `Fencing.RunsAreSound` | coordination/leadership.go:263-489 | every interleaving of members' steps, with arbitrary clocks and lost answers, keeps the invariant behind these |
| `Fencing.ElectionIsSafe` | coordination/leadership.go:215-489 | after any interleaving: tokens unique and growing, nothing stale accepted, at most one authoritative acquisition, one registration each at most |
| `Fencing.RoleCanBeTaken` | coordination/leadership.go:332-377 | in every sound world a member that reads can take the role in two steps, and then leads alone |
| `Leaderships.AcquireLeadership` | coordination/leadership.go:263-329 | the acquisition loop is a trace of turns, each bound to what it read; it registers once at most, and what it returns holds a token it minted and a lease it was granted; the broker's history is the old one and what these turns appended |
| `Leaderships.TakeTurn` | coordination/leadership.go:284-327 | one turn: it registers if the state it read has no entry for the member, waits if the member is not due, and makes the attempt if it is; an attempt that is fenced goes on |
| `Leaderships.TakesWhenDue` | coordination/leadership.go:284-327 | a turn mints if and only if it read the member as registered and due, and the coordinator gives a token; a turn that read it registered and not due appends nothing and goes on |
| `Leaderships.EveryMintIsDue` | coordination/leadership.go:263-329 | every mint a call leaves in the history was made in a turn that read this member as registered, and as holder or at or past its instant |
| `Leaderships.LiveHolderIsLeftAlone` | coordination/leadership.go:263-329 | a turn that reads a live lease of another member mints nothing |
| `Leaderships.Leadership.RenewLease` | coordination/leadership.go:440-457 | a renewal is one enabled step of the protocol: it writes a lease from now under the same token; the handle then has that lease, and a refusal ends it |
| `Leaderships.Leadership.ResignRole` | coordination/leadership.go:467-478 | a resignation ends the handle once and appends a tombstone if the broker accepts it |
| `Leaderships.Leadership.End` | coordination/leadership.go:481-489 | only the first reason counts and the channel closes once |
| `Leaderships.Leadership.RenewalTurn` | coordination/leadership.go:494-517 | the loop stops for good once the handle has ended, and ends it when the deadline passes unrenewed |
| `Blobs.LargestChunk` | columnar/blob.go:113-135 | the binary search returns a chunk that fits and cannot take one more row; it fails on size only if the single row is too large |
| `Blobs.EnvelopeRows` | columnar/blob.go:139-152 | the longest run of rows from a start that share its key, timestamp and headers, null and empty equal |
| `Blobs.Encode` | columnar/blob.go:87-109 | the chunks are all rows in order, each capped, of one envelope and maximal; an error names a row or a range that fails |
| `Blobs.GreedyIsOptimal` | columnar/blob.go:87-135 | if size grows with the range, no other cover of the rows uses fewer records |
| `Blobs.SizeFailureIsExact` | columnar/blob.go:113-135 | if size grows with the range and a cover exists, no single row exceeds the cap |
| `Blobs.DecodeEncode` | columnar/blob.go:51-109 | decoding the encoded records gives every row back, in order |
| `WireFormats.ReadAppendZigzag` | schema/wireformat.go:136-159 | a signed varint reads back for every 64-bit value, whatever bytes follow |
| `WireFormats.AppendZigzag` | schema/wireformat.go:136-143 | the loop appends the shortest varint of the zigzag number |
| `WireFormats.ReadZigzag` | schema/wireformat.go:145-159 | the loop reads ten groups at most and reports a truncated or too long varint |
| `WireFormats.VarintIsShortest` | schema/wireformat.go:136-159 | what is read is a 64-bit number whose own varint is no longer than the bytes read |
| `WireFormats.FramesAreBijective` | schema/wireformat.go:40-59 | plain frames decode to what was encoded, and accepted bytes encode to themselves |
| `WireFormats.Encode` | schema/wireformat.go:40-46 | the buffer filled in place is header and body, nothing else |
| `WireFormats.EncodeProtobuf` | schema/wireformat.go:68-84 | the frame with its path, the short form for the first message; only an empty path is refused |
| `WireFormats.DecodeProtobuf` | schema/wireformat.go:91-134 | the decoder's loops give what the frame grammar gives, error for error |
| `WireFormats.ProtobufRoundTrip` | schema/wireformat.go:68-124 | a Protobuf frame decodes to itself if and only if identifier, path length and indexes are 32-bit |
| `WireFormats.EncodingIsCanonical` | schema/wireformat.go:68-124 | encoding what any accepted frame decodes to gives a frame that is no longer and decodes the same |
| `Headers.DecodeEncode` | columnar/support.go:319-392 | every header list reads back, absent values apart from empty ones |
| `Headers.EncodeDecode` | columnar/support.go:336-392 | bytes accepted as headers, of whatever length, encode to themselves |
| `Headers.EncodeHeaders` | columnar/support.go:319-334 | the loop writes the layout |
| `Headers.DecodeHeaders` | columnar/support.go:336-392 | the loop over a shrinking buffer gives what the layout gives, error for error |
| `StateStores.StoreIsMap` | columnar/statestore.go:58-131 | a save is seen by a later load of the same partition and epoch and by no other |
| `StateStores.LoadContained` | columnar/statestore.go:58-122 | loading a saved container gives the snapshot back, whatever its names are |
| `StateStores.FileNameIsInjective` | columnar/statestore.go:126-131 | every partition and epoch, the rebalance key included, has a file of its own |
| `StateStores.FileStateStore.Save` | columnar/statestore.go:95-122 | writes the container, names sorted, to the file of the key and to no other |
| `StateStores.FileStateStore.Load` | columnar/statestore.go:58-91 | the snapshot in the file of the key, empty without one, or the error of its container |
| `References.Resolver.ResolveReferences` | schema/client.go:223-241 | the recursion over cyclic references ends and leaves the path as it found it unless a fetch fails |
| `References.PathShrinks` | schema/client.go:223-241 | a version put on the path is one less to put there |
| `References.SuccessIsExact` | schema/client.go:223-241 | resolution succeeds if and only if every version that any walk of references reaches is registered |
| `References.NamesAreExact` | schema/client.go:223-241 | a name is resolved if and only if it is the name of the last reference of a chain that meets no version twice |
| `References.ReachedIsResolved` | schema/client.go:211-241 | every version reached is fetched and stands under the name of some reference to it |
| `References.ConsistentNamesResolve` | schema/client.go:211-241 | if a name always means one version, its text is that version's schema |
| `References.CycleNameIsMissing` | schema/client.go:223-241 | a name used only to close a cycle is left out |
| `References.KeyIsInjective` | schema/client.go:225-225 | subject and version can be told from the path key, whatever characters the subject has |
| `Unfoldings.TreeIsCutUnfolding` | columnarschema/avroschema.go:48-145 | a translation that does one level right is the endless unfolding cut exactly where a name is inside itself |
| `AvroSchemas.AvroField` | columnarschema/avroschema.go:48-145 | the recursion over cyclic records ends and its loops compute the translation, error for error |
| `AvroSchemas.TreeIsExact` | columnarschema/avroschema.go:48-145 | the field tree has a node at each position no repeated record lies above, a string where the record repeats, the schema's own type elsewhere |
| `AvroSchemas.JsonIsBackEdge` | columnarschema/avroschema.go:48-145 | a field of a struct or list is tagged JSON if and only if it is a back edge |
| `AvroSchemas.AcyclicIsWhole` | columnarschema/avroschema.go:48-145 | without cycles nothing is cut off |
| `AvroSchemas.SuccessIsExact` | columnarschema/avroschema.go:48-145 | translation succeeds if and only if every schema it reaches has an Arrow type of its own |
| `AvroSchemas.MapValueLosesTag` | columnarschema/avroschema.go:132-141 | a back edge that is a map value is a string without the JSON tag |
| `AvroSchemas.AvroTopLevelFields` | columnarschema/avroschema.go:29-46 | a record's columns are the fields of its struct; any other schema is one column |
| `ProtoSchemas.ProtoField` | columnarschema/protoschema.go:51-132 | the mutual recursion over cyclic messages ends and computes the translation |
| `ProtoSchemas.TreeIsExact` | columnarschema/protoschema.go:51-132 | the field tree is the unfolding of the message graph cut exactly where a message is inside itself |
| `ProtoSchemas.JsonIsExact` | columnarschema/protoschema.go:100-122 | a field of a struct or list is tagged JSON if and only if it is a back edge or a message that always is JSON |

## Left out

Weaker than the code or the promise:

- BarrierWorlds.BarrierIsExact: for a fixed assignment, for complete cuts that cover exactly the partitions the runner consumes, and for cuts that are on time, which means that nothing at or past a cut was delivered before the cut was known. `BarrierRuns.FiredIsExact` proves for each partition that being on time is exactly what is needed. Rebalances while records are held are not modelled.
- BarrierWorlds.RunInvariant: failures are each followed by a restore to an epoch the store has saved; after a failure without one, positions and held records have moved although processor state was rolled back.
- BarrierWorlds.ReplayIsInvisible: for processors whose state does not depend on how records are cut into rounds, such as the group-by. For a join it is false; `BarrierWorlds.SameRoundsSameState` holds for it, and of its outputs `JoinRuns.OutputsAgreeExactly`.
- GroupByRuns.GroupByReplayIsInvisible: for a group-by that reads the records of one partition directly. The bisimulation of a whole topology, whose later nodes take in rows that differ in the width of integers, is not stated.
- JoinRuns.OutputsAgreeExactly: for rows that occur once in each run.
- Runners.GroupRun.RunGroupOnce: a rolled-back partition looks as before, which means its presence and its snapshots. It asks that processors take the same snapshot again once restored from it, which `OperatorNodes.BuiltInCanRollBack` proves of the built-in ones. Metrics and joined errors are not modelled.
- Runners.DeadLetterTellsOrigin: the class name of an error in a dead letter is a function of the failure, given from outside.
- Runners.GroupRun.RestoreToCut: a restore that fails part way has replaced some partitions.
- GroupRunners.RunOnce: a runner starts without processors, and the broker answers as a log does: polls continue where the last one stopped, and reported positions have nothing to come below them.
- OperatorNodes.BuiltInCanRollBack: a snapshot of 2^32 bytes or more is refused; the code writes lengths that wrap.
- GroupBy.RunRefines: for runs without an error. A batch that fails leaves what its rows before the failing one did, as in the code.
- Aggregates.SumIsTotal: says nothing of the code on a column with floats or fractions. Sums and comparisons of floats and fractions are not modelled; the model answers with the error `InexactNumber`. Floats are opaque bits in the value codec, and the narrowing of stored 32-bit floats is not modelled.
- ValueCodec.DecodeEncode: the bytes of a value are fewer than 2^32, which is what the sizes can say. Other spellings of fractions than the encoder's are read by a simplified parser.
- Joins.ExactlyOnce: timestamps are present and columns of the two sides do not collide in name; the code reads a null timestamp as its raw value.
- JoinProcessors.JoinProcessor.ProcessSides: on an error the state is whatever the failing part left.
- Fencing.ElectionIsSafe: does not say that a cleared lease stays clear; a renewal under the same token may follow a resignation. Mints grow and superseded tokens are refused by the contracts of `coordination/transport.go:41-97`.
- Leaderships.AcquireLeadership: waits and wake-ups are a list of turns given from outside, of any length; how long a member sleeps is not modelled.
- Blobs.GreedyIsOptimal: for serialisers whose size grows with the range; `Blobs.Encode` asks nothing of the serialiser.
- WireFormats.AppendZigzag: the bit operations are written as the arithmetic they perform on 64-bit numbers.
- Headers.DecodeEncode: header cells have fewer than 2^31 bytes, the size an Arrow cell can have.
- StateStores.StoreIsMap: files are a map from names to bytes; directories, temporary files and I/O errors are not modelled. Containers have fewer than 2^32 bytes.
- References.Resolver.ResolveReferences: the registry does not change during a resolution, and a fetch fails only for a version it does not have.
- AvroSchemas.TreeIsExact: the Arrow type of each scalar, enum, fixed and decimal schema is given. A named schema written in place and a reference to it are one form, as the code treats them alike.
- ProtoSchemas.TreeIsExact: the tables of wrapper and JSON messages are any tables; metadata of oneofs and names in metadata are not modelled. Messages are linked.

Not modelled at all:

- Kafka clients, HTTP, goroutines, channels, locks, files and metrics: they appear as parameters, as steps of the environment or as the contracts above.
- Arrow memory, reference counts and IPC bytes: batches are sequences of rows, serialisers are functions.
- Output coercion of aggregates, the Avro, JSON and Protobuf data bridges, JSON Schema validation, compatibility checks and compression.
- What the stateless operators compute, the rebalance callbacks and what they restore, the text forms of tokens and roles, configuration options and the manual clock: easy members only.
- The bytes of the barrier topic: `CutReader` starts from parsed records.
