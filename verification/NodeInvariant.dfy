/** Predicates of states that processors keep, and what follows for whole runs: when they
    make every keeper faithful, no round is ever left that cannot be rolled back. */
module NodeInvariants {
  import opened Wrappers
  import opened ByteCodec
  import opened Records
  import opened Orders
  import opened Topologies
  import opened PartitionSnapshots
  import opened BuiltTopologies
  import opened Barriers
  import opened BarrierRuns
  import opened Runners
  import opened RunnerRuns
  import BarrierWorlds

  /** What a processor starts with, leaves when it succeeds, and is filled with from its
      own snapshot is good, and a good state is saved faithfully. */
  ghost predicate KeepsGood(node: Definition, good: State -> bool)
    requires node.Keeps()
  {
    && good(node.keeper.initial)
    && (node.Operator? ==> forall s, batch :: good(s) && node.process(s, batch).outcome.Ok? ==> good(node.process(s, batch).state))
    && (node.Join? ==> forall s, lefts, rights ::
          good(s) && node.processSides(s, lefts, rights).outcome.Ok? ==> good(node.processSides(s, lefts, rights).state))
    && (node.keeper.stateful ==> forall s :: good(s) ==> FaithfulAt(node.keeper, s) && RestoresGood(node.keeper, good, s))
  }

  ghost predicate RestoresGood(k: Keeper, good: State -> bool, s: State) {
    k.snapshot(s).Ok? && k.restore(k.initial, k.snapshot(s).value).Ok? ==> good(k.restore(k.initial, k.snapshot(s).value).value)
  }

  /** A predicate of states for every node. */
  type Goods = int -> (State -> bool)

  ghost predicate AllKeepGood(nodes: Nodes, goods: Goods) {
    UniqueNames(nodes) && forall i :: 0 <= i < |nodes| && nodes[i].Keeps() ==> KeepsGood(nodes[i], goods(i))
  }

  ghost predicate AllGood(nodes: Nodes, goods: Goods, states: States) {
    states.Keys == Fresh(nodes).Keys && forall i :: i in states ==> goods(i)(states[i])
  }

  ghost predicate GoodSlot(nodes: Nodes, goods: Goods, slot: Slot) {
    slot.Some? ==> AllGood(nodes, goods, slot.value)
  }

  lemma {:induction false} FreshIsGood(nodes: Nodes, goods: Goods)
    requires AllKeepGood(nodes, goods)
    ensures AllGood(nodes, goods, Fresh(nodes))
  {
    forall i | i in Fresh(nodes) ensures goods(i)(Fresh(nodes)[i]) {
      assert KeepsGood(nodes[i], goods(i));
    }
  }

  lemma {:induction false} GoodIsFaithful(nodes: Nodes, goods: Goods, states: States)
    requires AllKeepGood(nodes, goods) && AllGood(nodes, goods, states)
    ensures AllFaithfulAt(nodes, states)
  {
    forall i | Saved(nodes, i) ensures FaithfulAt(nodes[i].keeper, StateOf(states, i)) {
      assert KeepsGood(nodes[i], goods(i)) && i in Fresh(nodes);
    }
  }

  lemma {:induction false} ProcessAllIsGood(node: Definition, good: State -> bool, s: State, batches: seq<Batch>)
    requires node.Operator? && KeepsGood(node, good) && good(s) && ProcessAll(node.process, s, batches).outcome.Ok?
    ensures good(ProcessAll(node.process, s, batches).state)
  {
    if batches != [] {
      ProcessAllIsGood(node, good, s, batches[..|batches| - 1]);
    }
  }

  /** The state of a node whose meaning is no failure. */
  lemma {:induction false} MeaningIsGood(nodes: Nodes, goods: Goods, states: States, input: Input, i: nat)
    requires Ordered(nodes) && AllKeepGood(nodes, goods) && i < |nodes| && nodes[i].Keeps() && goods(i)(StateOf(states, i))
    requires Meaning(nodes, states, input, i).outcome.Ok?
    ensures goods(i)(Meaning(nodes, states, input, i).state)
  {
    ParentComesFirst(nodes, i);
    assert KeepsGood(nodes[i], goods(i));
    if nodes[i].Operator? {
      ProcessAllIsGood(nodes[i], goods(i), StateOf(states, i), Meaning(nodes, states, input, nodes[i].parent).outcome.value);
    }
  }

  lemma {:induction false} AfterIsGood(nodes: Nodes, goods: Goods, states: States, input: Input)
    requires Ordered(nodes) && AllKeepGood(nodes, goods) && AllGood(nodes, goods, states)
    requires Produce(Outcomes(nodes, states, input)).Ok?
    ensures AllGood(nodes, goods, After(states, Outcomes(nodes, states, input), |nodes|))
  {
    var outcomes := Outcomes(nodes, states, input);
    ProduceSucceeds(outcomes);
    forall i | i in states ensures 0 <= i < |nodes| && goods(i)(outcomes[i].state) {
      assert i in Fresh(nodes);
      assert outcomes[i] == OutcomeOf(nodes, states, input, i);
      assert outcomes[i].failure.None?;
      MeaningIsGood(nodes, goods, states, input, i);
    }
    assert After(states, outcomes, |nodes|).Keys == states.Keys;
  }

  /** What is filled from the snapshot of good states is good. */
  lemma {:induction false} RestoredIsGood(nodes: Nodes, goods: Goods, states: States)
    requires AllKeepGood(nodes, goods) && AllGood(nodes, goods, states) && Take(nodes, states).Ok?
    ensures PartitionSnapshots.Restored(nodes, Fresh(nodes), Take(nodes, states).value).Ok?
    ensures AllGood(nodes, goods, PartitionSnapshots.Restored(nodes, Fresh(nodes), Take(nodes, states).value).value)
  {
    GoodIsFaithful(nodes, goods, states);
    RestoredRefills(nodes, states);
    FreshIsGood(nodes, goods);
    var now := PartitionSnapshots.Restored(nodes, Fresh(nodes), Take(nodes, states).value).value;
    forall i | i in now ensures goods(i)(now[i]) {
      assert i in Fresh(nodes);
      if Saved(nodes, i) {
        assert KeepsGood(nodes[i], goods(i));
        assert i in states && StateOf(states, i) == states[i];
        assert RestoresGood(nodes[i].keeper, goods(i), states[i]);
      }
    }
  }

  lemma {:induction false} TurnIsGood(nodes: Nodes, policy: Policy, goods: Goods, q: int, slot: Slot, input: Input)
    requires Ordered(nodes) && AllKeepGood(nodes, goods) && GoodSlot(nodes, goods, slot)
    requires TurnOf(nodes, policy, q, slot, input).Some?
    ensures GoodSlot(nodes, goods, TurnOf(nodes, policy, q, slot, input).value)
  {
    var was := Alone(q, slot);
    FreshIsGood(nodes, goods);
    if PartitionOutcome(nodes, was, q, input).Ok? {
      AfterIsGood(nodes, goods, StartOf(nodes, was, q), Trim(input));
    } else if slot.Some? {
      RestoredIsGood(nodes, goods, slot.value);
    }
  }

  lemma {:induction false} ReloadIsGood(nodes: Nodes, goods: Goods, slot: Slot)
    requires AllKeepGood(nodes, goods) && GoodSlot(nodes, goods, slot) && SaveOf(nodes, slot).Some?
    ensures LoadOf(nodes, SaveOf(nodes, slot).value).Some? && GoodSlot(nodes, goods, LoadOf(nodes, SaveOf(nodes, slot).value).value)
  {
    FreshIsGood(nodes, goods);
    if slot.Some? {
      RestoredIsGood(nodes, goods, slot.value);
    } else {
      var none: Snapshots := map[];
      assert Sorted(none.Keys) == [];
    }
  }

  /** Whatever happens to a partition, its processors stay good. */
  lemma {:induction false} HistoryIsGood(nodes: Nodes, policy: Policy, goods: Goods, q: int, h: BarrierWorlds.History)
    requires Ordered(nodes) && AllKeepGood(nodes, goods) && BarrierWorlds.StateAfter(ProcessorsOf(nodes, policy), q, h).Some?
    ensures GoodSlot(nodes, goods, BarrierWorlds.StateAfter(ProcessorsOf(nodes, policy), q, h).value)
  {
    if h != [] {
      var earlier, last := h[..|h| - 1], h[|h| - 1];
      HistoryIsGood(nodes, policy, goods, q, earlier);
      var slot := BarrierWorlds.StateAfter(ProcessorsOf(nodes, policy), q, earlier).value;
      match last {
        case Took(part) => TurnIsGood(nodes, policy, goods, q, slot, InputOf(part, q));
        case Reloaded => ReloadIsGood(nodes, goods, slot);
      }
    }
  }

  /** After any run of rounds, failures and restores every round can be rolled back. */
  lemma {:induction false} RunCanRollBack(env: Env, nodes: Nodes, policy: Policy, goods: Goods, events: seq<BarrierWorlds.Event>, processors: Processors)
    requires Ordered(nodes) && AllKeepGood(nodes, goods) && Sane(env)
    requires BarrierWorlds.RunEvents(env, ProcessorsOf(nodes, policy), events).Some?
    requires SameStates(BarrierWorlds.RunEvents(env, ProcessorsOf(nodes, policy), events).value.states, processors)
    requires forall q :: q in processors ==> q in BarrierWorlds.RunEvents(env, ProcessorsOf(nodes, policy), events).value.states
    ensures CanRollBack(nodes, processors)
  {
    var p := ProcessorsOf(nodes, policy);
    var w := BarrierWorlds.RunEvents(env, p, events).value;
    BarrierWorlds.RunInvariant(env, p, events);
    forall q | q in processors ensures AllFaithfulAt(nodes, processors[q]) {
      assert BarrierWorlds.Leads(p, q, w.histories[q], Part(w.flow.delivered, q), w.states[q]);
      HistoryIsGood(nodes, policy, goods, q, w.histories[q]);
      GoodIsFaithful(nodes, goods, processors[q]);
    }
  }
}
