/** The runner and the worlds of whole runs: every cycle that succeeds closes a round of
    its world, every cycle that fails leaves what a failed round leaves, and a restore
    is the restore of that world. */
module RunnerRuns {
  import opened Wrappers
  import opened Records
  import opened Topologies
  import opened PartitionSnapshots
  import opened BuiltTopologies
  import opened Barriers
  import opened BarrierAligners
  import opened BarrierRuns
  import opened Runners
  import BarrierWorlds

  type World = BarrierWorlds.World<Slot, Snapshots>

  // ------------------------------------------------------- a partition by itself

  function Alone(q: int, slot: Slot): Processors {
    match slot
    case None => map[]
    case Some(states) => map[q := states]
  }

  /** Where the turn of a partition leaves its processors: advanced, or rolled back
      when its batch is skipped; a failure that stops the round leaves nothing. */
  function TurnOf(nodes: Nodes, policy: Policy, q: int, slot: Slot, input: Input): Option<Slot>
    requires Ordered(nodes)
  {
    var was := Alone(q, slot);
    if SnapshotAt(nodes, was, q).Err? then None
    else
      match PartitionOutcome(nodes, was, q, input)
      case Ok(_) => Some(SlotOf(PartitionAfter(nodes, was, q, input), q))
      case Err(cause) => if policy.Stops(cause) then None else Some(Undone(nodes, slot))
  }

  function SaveOf(nodes: Nodes, slot: Slot): Option<Snapshots> {
    match slot
    case None => Some(map[])
    case Some(states) =>
      match Take(nodes, states)
      case Ok(snapshots) => Some(snapshots)
      case Err(_) => None
  }

  function LoadOf(nodes: Nodes, snapshots: Snapshots): Option<Slot> {
    match PartitionSnapshots.Restored(nodes, Fresh(nodes), snapshots)
    case Ok(states) => Some(Some(states))
    case Err(_) => None
  }

  /** The processors of a topology under an error policy. */
  function ProcessorsOf(nodes: Nodes, policy: Policy): BarrierWorlds.Processors<Slot, Snapshots>
    requires Ordered(nodes)
  {
    BarrierWorlds.Processors(None,
                             (q: int, slot: Slot, x: Polled) => TurnOf(nodes, policy, q, slot, InputOf(x, q)),
                             (slot: Slot) => SaveOf(nodes, slot),
                             (snapshots: Snapshots) => LoadOf(nodes, snapshots))
  }

  lemma {:induction false} TurnAdvances(nodes: Nodes, policy: Policy, was: Processors, now: Processors, q: int, input: Input)
    requires Ordered(nodes) && AdvancedAt(policy, nodes, was, now, q, input)
    ensures TurnOf(nodes, policy, q, SlotOf(was, q), input) == Some(SlotOf(now, q))
  {
    PartitionIsLocal(nodes, was, Alone(q, SlotOf(was, q)), q, input);
  }

  lemma {:induction false} PartInput(taken: Polled, q: int)
    ensures InputOf(Part(taken, q), q) == InputOf(taken, q)
  {
  }

  // ------------------------------------------------------------ rounds as worlds

  /** The states of a world are those of the processors. */
  ghost predicate SameStates(states: map<int, Slot>, processors: Processors) {
    forall q :: q in states ==> states[q] == SlotOf(processors, q)
  }

  /** A world describes a runner: its processors, its aligner and its store. */
  ghost predicate Matches(env: Env, w: World, processors: Processors, aligner: Aligner, store: Store) {
    && w.states.Keys == LogicalOf(env.log) && SameStates(w.states, processors)
    && w.flow.aligner == aligner && w.store == store
  }

  /** The turn of a partition is its run. */
  lemma {:induction false} TurnRuns(nodes: Nodes, policy: Policy, slot: Slot, was: Processors, now: Processors, taken: Polled, q: int)
    requires Ordered(nodes) && slot == SlotOf(was, q) && q in LogicalOf(taken)
    requires AdvancedAt(policy, nodes, was, now, q, InputOf(taken, q))
    ensures ProcessorsOf(nodes, policy).run(q, slot, Part(taken, q)) == Some(SlotOf(now, q))
  {
    PartInput(taken, q);
    TurnAdvances(nodes, policy, was, now, q, InputOf(taken, q));
  }

  ghost predicate RunsTo(p: BarrierWorlds.Processors<Slot, Snapshots>, states: map<int, Slot>, now: Processors, taken: Polled, q: int) {
    q in states && if q in LogicalOf(taken) then p.run(q, states[q], Part(taken, q)) == Some(SlotOf(now, q)) else states[q] == SlotOf(now, q)
  }

  lemma {:induction false} RunningLeads(p: BarrierWorlds.Processors<Slot, Snapshots>, states: map<int, Slot>, now: Processors, taken: Polled)
    requires LogicalOf(taken) <= states.Keys && forall q :: q in states ==> RunsTo(p, states, now, taken, q)
    ensures BarrierWorlds.AllRun(p, states, taken) && SameStates(BarrierWorlds.StatesAfter(p, states, taken), now)
  {
    forall q | q in LogicalOf(taken) ensures q in states && p.run(q, states[q], Part(taken, q)) == Some(SlotOf(now, q)) {
      assert RunsTo(p, states, now, taken, q);
    }
    forall q | q in states ensures BarrierWorlds.StatesAfter(p, states, taken)[q] == SlotOf(now, q) {
      assert RunsTo(p, states, now, taken, q);
    }
  }

  /** Partitions that advance are partitions that run. */
  lemma {:induction false} AdvancingRuns(nodes: Nodes, policy: Policy, states: map<int, Slot>, was: Processors, now: Processors, taken: Polled)
    requires Ordered(nodes) && SameStates(states, was) && LogicalOf(taken) <= states.Keys
    requires Advanced(policy, nodes, was, now, ByPartition(taken))
    ensures BarrierWorlds.AllRun(ProcessorsOf(nodes, policy), states, taken)
    ensures SameStates(BarrierWorlds.StatesAfter(ProcessorsOf(nodes, policy), states, taken), now)
  {
    forall q | q in states ensures RunsTo(ProcessorsOf(nodes, policy), states, now, taken, q) {
      if q in LogicalOf(taken) {
        assert q in ByPartition(taken) && ByPartition(taken)[q] == InputOf(taken, q);
        TurnRuns(nodes, policy, states[q], was, now, taken, q);
      } else {
        assert q !in ByPartition(taken);
        assert SameAt(was, now, q);
      }
    }
    RunningLeads(ProcessorsOf(nodes, policy), states, now, taken);
  }

  lemma {:induction false} SaveIsSnapshot(nodes: Nodes, now: Processors, q: int)
    ensures SaveOf(nodes, SlotOf(now, q)).Some? <==> SnapshotAt(nodes, now, q).Ok?
    ensures SnapshotAt(nodes, now, q).Ok? ==> SaveOf(nodes, SlotOf(now, q)) == Some(SnapshotAt(nodes, now, q).value)
  {
  }

  /** One entry of a store that was saved to. */
  lemma {:induction false} SavedEntry(nodes: Nodes, policy: Policy, states: map<int, Slot>, now: Processors, was: Store, store: Store,
                                      barrier: Barrier, q: int, e: int)
    requires Ordered(nodes) && SameStates(states, now) && forall k :: k in barrier.partitions ==> k in states
    requires SavedUpTo(nodes, now, was, store, barrier.cut.epoch, barrier.partitions)
    ensures var after := was + BarrierWorlds.Saves(ProcessorsOf(nodes, policy), states, barrier);
            ((q, e) in store <==> (q, e) in after) && ((q, e) in store ==> store[(q, e)] == after[(q, e)])
    ensures q in barrier.partitions ==> ProcessorsOf(nodes, policy).save(SlotOf(now, q)).Some?
  {
    BarrierWorlds.SavesAt(ProcessorsOf(nodes, policy), states, barrier, q, e);
    if q in barrier.partitions {
      SaveIsSnapshot(nodes, now, q);
    }
  }

  /** What was saved are the saves of the barrier. */
  lemma {:induction false} SavedIsSaves(nodes: Nodes, policy: Policy, states: map<int, Slot>, now: Processors, was: Store, store: Store, barrier: Barrier)
    requires Ordered(nodes) && SameStates(states, now) && forall k :: k in barrier.partitions ==> k in states
    requires SavedUpTo(nodes, now, was, store, barrier.cut.epoch, barrier.partitions)
    ensures store == was + BarrierWorlds.Saves(ProcessorsOf(nodes, policy), states, barrier)
    ensures BarrierWorlds.AllSave(ProcessorsOf(nodes, policy), states, barrier)
  {
    var after := was + BarrierWorlds.Saves(ProcessorsOf(nodes, policy), states, barrier);
    forall k | k in store || k in after ensures (k in store <==> k in after) && (k in store ==> store[k] == after[k]) {
      SavedEntry(nodes, policy, states, now, was, store, barrier, k.0, k.1);
    }
    assert store.Keys == after.Keys;
    forall q | q in states && q in barrier.partitions ensures ProcessorsOf(nodes, policy).save(states[q]).Some? {
      SavedEntry(nodes, policy, states, now, was, store, barrier, q, barrier.cut.epoch);
    }
  }

  /** What a round takes in and saves belongs to the partitions of the runner. */
  ghost predicate InScope(env: Env, i: Intake) {
    LogicalOf(i.taken) <= LogicalOf(env.log) && (Fired(i.aligner) ==> i.aligner.aligned.Keys == env.log.Keys)
  }

  lemma {:induction false} IntakeIsInScope(env: Env, w: Flow, f: Fetch)
    requires Sane(env) && Legal(env, w, f) && Aligns(env, w.aligner) && Tracked(env.log, w.aligner, w.next, w.delivered)
    ensures InScope(env, IntakeBy(env, w, f))
  {
    RoundTookIn(env, w, f);
    RoundCommits(env, w, f);
    var taken := IntakeBy(env, w, f).taken;
    assert taken.Keys <= env.log.Keys;
    forall q | q in LogicalOf(taken) ensures q in LogicalOf(env.log) {
      var tp :| tp in taken && tp.partition == q;
      assert tp in env.log;
    }
  }

  lemma {:induction false} BarrierInScope(env: Env, i: Intake, q: int)
    requires InScope(env, i) && BarrierBy(i).Some? && q in BarrierBy(i).value.partitions
    ensures q in LogicalOf(env.log)
  {
    var tp :| tp in i.aligner.aligned && tp.partition == q;
    assert tp in env.log;
  }

  /** The store after a cycle has what its barrier saves. */
  lemma {:induction false} BarrierIsSaved(env: Env, nodes: Nodes, policy: Policy, states: map<int, Slot>, i: Intake, barrier: Barrier,
                                          now: Processors, was: Store, store: Store)
    requires Ordered(nodes) && InScope(env, i) && states.Keys == LogicalOf(env.log) && SameStates(states, now)
    requires BarrierBy(i) == Some(barrier) && SavedUpTo(nodes, now, was, store, barrier.cut.epoch, barrier.partitions)
    ensures store == was + BarrierWorlds.Saves(ProcessorsOf(nodes, policy), states, barrier)
    ensures BarrierWorlds.AllSave(ProcessorsOf(nodes, policy), states, barrier)
  {
    forall k | k in barrier.partitions ensures k in states { BarrierInScope(env, i, k); }
    SavedIsSaves(nodes, policy, states, now, was, store, barrier);
  }

  lemma {:induction false} SavedWhenFired(p: BarrierWorlds.Processors<Slot, Snapshots>, before: map<int, Slot>, i: Intake, was: Store, store: Store)
    requires BarrierBy(i).Some? ==>
               && store == was + BarrierWorlds.Saves(p, BarrierWorlds.StatesAfter(p, before, i.taken), BarrierBy(i).value)
               && BarrierWorlds.AllSave(p, BarrierWorlds.StatesAfter(p, before, i.taken), BarrierBy(i).value)
    requires BarrierBy(i).None? ==> store == was
    ensures store == was + BarrierWorlds.SavedBy(p, before, i, BarrierWorlds.SaveCount(i))
    ensures BarrierWorlds.AllRun(p, before, i.taken) ==> BarrierWorlds.Succeeds(p, before, i)
  {
    assert was + map[] == was;
  }

  lemma {:induction false} StoredIsSaved(env: Env, nodes: Nodes, policy: Policy, before: map<int, Slot>, states: map<int, Slot>, i: Intake,
                                         now: Processors, was: Store, store: Store)
    requires Ordered(nodes) && InScope(env, i) && states.Keys == LogicalOf(env.log) && SameStates(states, now)
    requires Stored(nodes, now, was, store, i)
    ensures BarrierBy(i).Some? ==>
              && store == was + BarrierWorlds.Saves(ProcessorsOf(nodes, policy), states, BarrierBy(i).value)
              && BarrierWorlds.AllSave(ProcessorsOf(nodes, policy), states, BarrierBy(i).value)
    ensures BarrierBy(i).None? ==> store == was
  {
    if BarrierBy(i).Some? {
      BarrierIsSaved(env, nodes, policy, states, i, BarrierBy(i).value, now, was, store);
    }
  }

  /** A cycle that succeeds is the end of a round that succeeds. */
  lemma {:induction false} SuccessIsClose(env: Env, nodes: Nodes, policy: Policy, w: World, i: Intake, next: Counts,
                                          was: Processors, now: Processors, store: Store)
    requires Ordered(nodes) && InScope(env, i) && Matches(env, w, was, w.flow.aligner, w.store)
    requires Advanced(policy, nodes, was, now, ByPartition(i.taken)) && Stored(nodes, now, w.store, store, i)
    ensures BarrierWorlds.Succeeds(ProcessorsOf(nodes, policy), w.states, i)
    ensures Matches(env, BarrierWorlds.CloseWorld(ProcessorsOf(nodes, policy), w, i, next), now, FinishedBy(i), store)
  {
    var p := ProcessorsOf(nodes, policy);
    AdvancingRuns(nodes, policy, w.states, was, now, i.taken);
    StoredIsSaved(env, nodes, policy, w.states, BarrierWorlds.StatesAfter(p, w.states, i.taken), i, now, w.store, store);
    SavedWhenFired(p, w.states, i, w.store, store);
    ClosedMatches(env, p, w, i, next, now, store);
  }

  lemma {:induction false} ClosedMatches(env: Env, p: BarrierWorlds.Processors<Slot, Snapshots>, w: World, i: Intake, next: Counts,
                                         now: Processors, store: Store)
    requires w.states.Keys == LogicalOf(env.log) && SameStates(BarrierWorlds.StatesAfter(p, w.states, i.taken), now)
    requires store == w.store + BarrierWorlds.SavedBy(p, w.states, i, BarrierWorlds.SaveCount(i))
    ensures Matches(env, BarrierWorlds.CloseWorld(p, w, i, next), now, FinishedBy(i), store)
  {
  }

  /** A cycle that fails leaves in the store what a failed round leaves. */
  lemma {:induction false} FailureIsFailed(env: Env, nodes: Nodes, policy: Policy, w: World, i: Intake, was: Processors, store: Store)
    returns (n: nat)
    requires Ordered(nodes) && InScope(env, i)
    requires w.states.Keys == LogicalOf(env.log) && SameStates(w.states, was)
    requires PartlyStored(policy, nodes, was, w.store, store, i)
    ensures store == BarrierWorlds.BrokenWorld(ProcessorsOf(nodes, policy), w, i, n).store
  {
    if store == w.store {
      n := 0;
      BarrierWorlds.NothingSaved(ProcessorsOf(nodes, policy), w, i);
    } else {
      var now: Processors, k: nat :| StoredSome(policy, nodes, was, now, w.store, store, i, k);
      n := k;
      FirstAreSaved(env, nodes, policy, w.states, i, was, now, w.store, store, n);
    }
  }

  lemma {:induction false} SavedByFirst(p: BarrierWorlds.Processors<Slot, Snapshots>, before: map<int, Slot>, i: Intake, barrier: Barrier, n: nat)
    requires BarrierBy(i) == Some(barrier)
    ensures BarrierWorlds.SavedBy(p, before, i, n) == BarrierWorlds.Saves(p, BarrierWorlds.StatesAfter(p, before, i.taken), BarrierWorlds.FirstOf(barrier, n))
  {
  }

  lemma {:induction false} FirstAreSaved(env: Env, nodes: Nodes, policy: Policy, before: map<int, Slot>, i: Intake, was: Processors, now: Processors,
                                         store: Store, store': Store, n: nat)
    requires Ordered(nodes) && InScope(env, i) && before.Keys == LogicalOf(env.log) && SameStates(before, was)
    requires StoredSome(policy, nodes, was, now, store, store', i, n)
    ensures BarrierWorlds.AllRun(ProcessorsOf(nodes, policy), before, i.taken)
    ensures store' == store + BarrierWorlds.SavedBy(ProcessorsOf(nodes, policy), before, i, n)
  {
    AdvancingRuns(nodes, policy, before, was, now, i.taken);
    PartIsSaved(env, nodes, policy, BarrierWorlds.StatesAfter(ProcessorsOf(nodes, policy), before, i.taken), i, BarrierBy(i).value, now, store, store', n);
    SavedByFirst(ProcessorsOf(nodes, policy), before, i, BarrierBy(i).value, n);
  }

  lemma {:induction false} FirstPartitions(barrier: Barrier, n: nat)
    requires n <= |barrier.partitions|
    ensures BarrierWorlds.FirstOf(barrier, n).partitions == barrier.partitions[..n] && BarrierWorlds.FirstOf(barrier, n).cut == barrier.cut
  {
  }

  lemma {:induction false} PartIsSaved(env: Env, nodes: Nodes, policy: Policy, states: map<int, Slot>, i: Intake, barrier: Barrier,
                                       now: Processors, was: Store, store: Store, n: nat)
    requires Ordered(nodes) && InScope(env, i) && states.Keys == LogicalOf(env.log) && SameStates(states, now)
    requires BarrierBy(i) == Some(barrier) && n <= |barrier.partitions|
    requires SavedUpTo(nodes, now, was, store, barrier.cut.epoch, barrier.partitions[..n])
    ensures store == was + BarrierWorlds.Saves(ProcessorsOf(nodes, policy), states, BarrierWorlds.FirstOf(barrier, n))
  {
    FirstPartitions(barrier, n);
    forall k | k in barrier.partitions ensures k in states { BarrierInScope(env, i, k); }
    assert forall k :: k in barrier.partitions[..n] ==> k in barrier.partitions;
    SavedIsSaves(nodes, policy, states, now, was, store, BarrierWorlds.FirstOf(barrier, n));
  }

  /** A restore that fills every partition is the restore of the world, and where the
      world can be restored every partition can be filled. */
  lemma {:induction false} FillingIsRestoring(env: Env, nodes: Nodes, policy: Policy, w: World, left: Aligner, epoch: int, now: Processors)
    requires Ordered(nodes) && Sane(env) && epoch in env.cuts && env.cuts[epoch].complete
    requires forall q :: q in LogicalOf(env.log) ==> (q, epoch) in w.store
    requires forall q :: q in LogicalTargets(env.assignment, env.cuts[epoch]) ==> FilledFrom(nodes, now, w.store, q, epoch)
    ensures BarrierWorlds.Restorable(env, ProcessorsOf(nodes, policy), w.store, epoch)
    ensures Matches(env, BarrierWorlds.RestoreTo(env, ProcessorsOf(nodes, policy), w, left, epoch), now,
                    Barriers.Restored(left, env.cuts[epoch], Targets(env.assignment, env.cuts[epoch])), w.store)
  {
    var p, cut := ProcessorsOf(nodes, policy), env.cuts[epoch];
    TargetsAreScope(env, epoch);
    forall q | q in LogicalOf(env.log)
      ensures p.load(w.store[(q, epoch)]) == Some(SlotOf(now, q))
    {
      assert FilledFrom(nodes, now, w.store, q, epoch);
    }
  }

  lemma {:induction false} TargetsAreScope(env: Env, epoch: int)
    requires Sane(env) && epoch in env.cuts && env.cuts[epoch].complete
    ensures Targets(env.assignment, env.cuts[epoch]) == env.log.Keys <= env.cuts[epoch].offsets.Keys
    ensures LogicalTargets(env.assignment, env.cuts[epoch]) == LogicalOf(env.log)
  {
  }

  lemma {:induction false} RestorableIsFillable(env: Env, nodes: Nodes, policy: Policy, store: Store, epoch: int, load: int -> Option<Failure>, q: int)
    requires Ordered(nodes) && Sane(env) && BarrierWorlds.Restorable(env, ProcessorsOf(nodes, policy), store, epoch)
    requires q in LogicalTargets(env.assignment, env.cuts[epoch]) && load(q).None?
    ensures Fillable(nodes, store, q, epoch, load)
  {
    TargetsAreScope(env, epoch);
  }
}
