/** A runner with a barrier group over its whole life: what it holds is at any time the
    world that some run of rounds, failures and restores leads to. */
module GroupRunners {
  import opened Wrappers
  import opened Records
  import opened Topologies
  import opened PartitionSnapshots
  import opened BuiltTopologies
  import opened Barriers
  import opened BarrierAligners
  import opened BarrierRuns
  import opened Runners
  import opened RunnerRuns
  import opened NodeInvariants
  import BarrierWorlds

  type Events = seq<BarrierWorlds.Event>

  /** A round that failed, or none, with how many snapshots it had saved. */
  datatype Attempt = Attempt(fetch: Option<Fetch>, saves: nat)

  /** What a round gets from the group and the broker. */
  ghost predicate Answers(env: Env, w: Flow, f: Fetch, offer: Offer, fetched: Result<Polled, Failure>)
    requires Legal(env, w, f)
  {
    && offer.assignment == env.assignment && offer.Cuts() == f.cuts && offer.Reported() == f.reported
    && (fetched.Ok? ==> fetched.value == PolledBy(env, w, f))
  }

  type Worlds = seq<World>

  /** The events lead through these worlds to this one. */
  ghost predicate Leads(env: Env, nodes: Nodes, policy: Policy, events: Events, worlds: Worlds, w: World)
    requires Ordered(nodes)
  {
    BarrierWorlds.IsCourse(env, ProcessorsOf(nodes, policy), events, worlds) && w == worlds[|events|]
  }

  /** The store is the one a failed attempt leaves. */
  ghost predicate IsBroken(env: Env, nodes: Nodes, policy: Policy, w: World, store: Store, a: Attempt)
    requires Ordered(nodes)
  {
    && (a.fetch.Some? ==> Starts(env, w.flow, a.fetch.value))
    && store == BarrierWorlds.FailedWorld(env, ProcessorsOf(nodes, policy), w, a.fetch, a.saves).store
  }

  lemma {:induction false} LeadsOn(env: Env, nodes: Nodes, policy: Policy, events: Events, worlds: Worlds, w: World, f: Fetch)
    requires Ordered(nodes) && Leads(env, nodes, policy, events, worlds, w) && Starts(env, w.flow, f)
    requires BarrierWorlds.Succeeds(ProcessorsOf(nodes, policy), w.states, IntakeBy(env, w.flow, f))
    ensures var w' := BarrierWorlds.RoundWorld(env, ProcessorsOf(nodes, policy), w, f);
            Leads(env, nodes, policy, events + [BarrierWorlds.Succeeded(f)], worlds + [w'], w')
  {
    var p := ProcessorsOf(nodes, policy);
    BarrierWorlds.CourseNext(env, p, events, worlds, BarrierWorlds.Succeeded(f), BarrierWorlds.RoundWorld(env, p, w, f));
  }

  lemma {:induction false} LeadsBack(env: Env, nodes: Nodes, policy: Policy, events: Events, worlds: Worlds, w: World, a: Attempt, left: Aligner, epoch: int)
    requires Ordered(nodes) && Leads(env, nodes, policy, events, worlds, w) && (a.fetch.Some? ==> Starts(env, w.flow, a.fetch.value))
    requires BarrierWorlds.Restorable(env, ProcessorsOf(nodes, policy),
                                      BarrierWorlds.FailedWorld(env, ProcessorsOf(nodes, policy), w, a.fetch, a.saves).store, epoch)
    ensures var p := ProcessorsOf(nodes, policy);
            var w' := BarrierWorlds.RestoreTo(env, p, BarrierWorlds.FailedWorld(env, p, w, a.fetch, a.saves), left, epoch);
            Leads(env, nodes, policy, events + [BarrierWorlds.Failed(a.fetch, a.saves, left, epoch)], worlds + [w'], w')
  {
    var p := ProcessorsOf(nodes, policy);
    BarrierWorlds.CourseNext(env, p, events, worlds, BarrierWorlds.Failed(a.fetch, a.saves, left, epoch),
                             BarrierWorlds.RestoreTo(env, p, BarrierWorlds.FailedWorld(env, p, w, a.fetch, a.saves), left, epoch));
  }

  lemma {:induction false} ReachedFlows(env: Env, nodes: Nodes, policy: Policy, events: Events, worlds: Worlds, w: World)
    requires Ordered(nodes) && Sane(env) && Leads(env, nodes, policy, events, worlds, w)
    ensures Flows(env, w.flow) && w.states.Keys == LogicalOf(env.log)
  {
    BarrierWorlds.CourseRuns(env, ProcessorsOf(nodes, policy), events, worlds);
    BarrierWorlds.RunInvariant(env, ProcessorsOf(nodes, policy), events);
  }

  /** The world after a round whose barrier fired. */
  lemma {:induction false} FiringIsExact(env: Env, nodes: Nodes, policy: Policy, events: Events, worlds: Worlds, w: World, f: Fetch)
    requires Ordered(nodes) && Sane(env) && Leads(env, nodes, policy, events, worlds, w)
    requires events != [] && events[|events| - 1] == BarrierWorlds.Succeeded(f)
    requires Legal(env, worlds[|events| - 1].flow, f) && Fired(IntakeBy(env, worlds[|events| - 1].flow, f).aligner)
    ensures BarrierWorlds.IsExact(env, ProcessorsOf(nodes, policy), w, IntakeBy(env, worlds[|events| - 1].flow, f).aligner.pending.value)
  {
    var p, n := ProcessorsOf(nodes, policy), |events| - 1;
    BarrierWorlds.CoursePrefix(env, p, events, worlds);
    BarrierWorlds.CourseRuns(env, p, events[..n], worlds[..n + 1]);
    BarrierWorlds.BarrierIsExact(env, p, events[..n], f);
  }

  /** One successful cycle, seen in its world. */
  lemma {:induction false} CycleReaches(env: Env, nodes: Nodes, policy: Policy, events: Events, worlds: Worlds, w: World, f: Fetch, i: Intake,
                                        was: Processors, now: Processors, store: Store) returns (w': World)
    requires Ordered(nodes) && Sane(env) && Leads(env, nodes, policy, events, worlds, w) && Starts(env, w.flow, f) && i == IntakeBy(env, w.flow, f)
    requires Matches(env, w, was, w.flow.aligner, w.store)
    requires Advanced(policy, nodes, was, now, ByPartition(i.taken)) && Stored(nodes, now, w.store, store, i)
    ensures Leads(env, nodes, policy, events + [BarrierWorlds.Succeeded(f)], worlds + [w'], w') && Matches(env, w', now, FinishedBy(i), store)
  {
    ReachedFlows(env, nodes, policy, events, worlds, w);
    IntakeIsInScope(env, w.flow, f);
    SuccessIsClose(env, nodes, policy, w, i, NextAfter(w.flow.next, f.counts), was, now, store);
    LeadsOn(env, nodes, policy, events, worlds, w, f);
    w' := BarrierWorlds.RoundWorld(env, ProcessorsOf(nodes, policy), w, f);
  }

  /** One failed cycle, seen in its world. */
  lemma {:induction false} FailedCycle(env: Env, nodes: Nodes, policy: Policy, events: Events, worlds: Worlds, w: World, f: Fetch, i: Intake,
                                       was: Processors, store: Store) returns (a: Attempt)
    requires Ordered(nodes) && Sane(env) && Leads(env, nodes, policy, events, worlds, w) && Starts(env, w.flow, f) && i == IntakeBy(env, w.flow, f)
    requires Matches(env, w, was, w.flow.aligner, w.store)
    requires store == w.store || PartlyStored(policy, nodes, was, w.store, store, i)
    ensures IsBroken(env, nodes, policy, w, store, a)
  {
    ReachedFlows(env, nodes, policy, events, worlds, w);
    IntakeIsInScope(env, w.flow, f);
    var n := FailureIsFailed(env, nodes, policy, w, i, was, store);
    a := Attempt(Some(f), n);
  }

  /** A restore, seen in its world. */
  lemma {:induction false} RestoreReaches(env: Env, nodes: Nodes, policy: Policy, events: Events, worlds: Worlds, w: World, a: Attempt, left: Aligner, cut: Cut,
                                          now: Processors, store: Store) returns (w': World)
    requires Ordered(nodes) && Sane(env) && Leads(env, nodes, policy, events, worlds, w) && IsBroken(env, nodes, policy, w, store, a)
    requires cut.epoch in env.cuts && env.cuts[cut.epoch] == cut && cut.complete
    requires forall q :: q in LogicalOf(env.log) ==> (q, cut.epoch) in store
    requires forall q :: q in LogicalTargets(env.assignment, cut) ==> FilledFrom(nodes, now, store, q, cut.epoch)
    ensures Leads(env, nodes, policy, events + [BarrierWorlds.Failed(a.fetch, a.saves, left, cut.epoch)], worlds + [w'], w')
    ensures Matches(env, w', now, Barriers.Restored(left, cut, Targets(env.assignment, cut)), store)
  {
    var failed := BarrierWorlds.FailedWorld(env, ProcessorsOf(nodes, policy), w, a.fetch, a.saves);
    FillingIsRestoring(env, nodes, policy, failed, left, cut.epoch, now);
    LeadsBack(env, nodes, policy, events, worlds, w, a, left, cut.epoch);
    w' := BarrierWorlds.RestoreTo(env, ProcessorsOf(nodes, policy), failed, left, cut.epoch);
  }

  /** The runner has processors of its own partitions only. */
  ghost predicate OwnsAll(w: World, processors: Processors) { forall q :: q in processors ==> q in w.states }

  lemma {:induction false} CycleOwns(env: Env, nodes: Nodes, policy: Policy, events: Events, worlds: Worlds, w: World, f: Fetch, i: Intake,
                                     was: Processors, now: Processors)
    requires Ordered(nodes) && Sane(env) && Leads(env, nodes, policy, events, worlds, w) && Starts(env, w.flow, f) && i == IntakeBy(env, w.flow, f)
    requires OwnsAll(w, was) && (Advanced(policy, nodes, was, now, ByPartition(i.taken)) || NoTrace(nodes, was, now))
    ensures OwnsAll(w, now)
  {
    ReachedFlows(env, nodes, policy, events, worlds, w);
    IntakeIsInScope(env, w.flow, f);
    forall q | q in now ensures q in w.states {
      if NoTrace(nodes, was, now) {
        assert LooksTheSame(nodes, was, now, q);
      } else if q !in ByPartition(i.taken) {
        assert SameAt(was, now, q);
      }
    }
  }

  lemma {:induction false} RestoreOwns(env: Env, nodes: Nodes, policy: Policy, events: Events, worlds: Worlds, w: World, cut: Cut, was: Processors, now: Processors)
    requires Ordered(nodes) && Sane(env) && Leads(env, nodes, policy, events, worlds, w) && OwnsAll(w, was)
    requires cut.epoch in env.cuts && env.cuts[cut.epoch] == cut && cut.complete
    requires forall q :: q !in LogicalTargets(env.assignment, cut) ==> SameAt(was, now, q)
    ensures OwnsAll(w, now)
  {
    ReachedFlows(env, nodes, policy, events, worlds, w);
    TargetsAreScope(env, cut.epoch);
    forall q | q in now ensures q in w.states {
      assert q in LogicalTargets(env.assignment, cut) || SameAt(was, now, q);
    }
  }

  // -------------------------------------------------------------------- standing

  /** Where a runner stands: its run so far, the worlds this led through, and a round
      that failed if no restore has followed it. */
  datatype Standing = Standing(events: Events, worlds: Worlds, world: World, broken: Option<Attempt>)

  /** The run leads to the world, and the runner is as the world says, or broken. */
  ghost predicate Holds(env: Env, nodes: Nodes, policy: Policy, s: Standing, processors: Processors, aligner: Aligner, store: Store)
    requires Ordered(nodes)
  {
    match s.broken
    case None =>
      && Sane(env) && Leads(env, nodes, policy, s.events, s.worlds, s.world) && OwnsAll(s.world, processors)
      && Matches(env, s.world, processors, aligner, store)
    case Some(a) =>
      && Sane(env) && Leads(env, nodes, policy, s.events, s.worlds, s.world) && OwnsAll(s.world, processors)
      && IsBroken(env, nodes, policy, s.world, store, a)
  }

  /** What a cycle came to: the partitions advanced and a barrier that fired is saved and
      finished, or no trace is left but for some snapshots. */
  ghost predicate Ended(nodes: Nodes, policy: Policy, r: Result<Offsets, Failure>, i: Intake, was: Processors, now: Processors,
                        before: Store, store: Store, aligner: Aligner)
    requires Ordered(nodes)
  {
    match r
    case Ok(offsets) =>
      && Advanced(policy, nodes, was, now, ByPartition(i.taken)) && Stored(nodes, now, before, store, i)
      && aligner == FinishedBy(i) && offsets == CommittedBy(i)
    case Err(_) => NoTrace(nodes, was, now) && (store == before || PartlyStored(policy, nodes, was, before, store, i))
  }

  /** A cycle that succeeds goes on with its round, one that fails stops there. */
  ghost predicate Follows(r: Result<Offsets, Failure>, f: Fetch, s: Standing, s': Standing) {
    match r
    case Ok(_) => s'.broken == None && s'.events == s.events + [BarrierWorlds.Succeeded(f)]
    case Err(_) => s'.broken.Some? && s'.events == s.events
  }

  lemma {:induction false} Settle(env: Env, nodes: Nodes, policy: Policy, s: Standing, f: Fetch, i: Intake, was: Processors, before: Store,
                                  r: Result<Offsets, Failure>, now: Processors, store: Store, aligner: Aligner) returns (s': Standing)
    requires Ordered(nodes) && s.broken == None && Holds(env, nodes, policy, s, was, s.world.flow.aligner, before)
    requires Starts(env, s.world.flow, f) && i == IntakeBy(env, s.world.flow, f) && Ended(nodes, policy, r, i, was, now, before, store, aligner)
    ensures Holds(env, nodes, policy, s', now, aligner, store) && Follows(r, f, s, s')
  {
    CycleOwns(env, nodes, policy, s.events, s.worlds, s.world, f, i, was, now);
    if r.Ok? {
      var next := CycleReaches(env, nodes, policy, s.events, s.worlds, s.world, f, i, was, now, store);
      s' := Standing(s.events + [BarrierWorlds.Succeeded(f)], s.worlds + [next], next, None);
    } else {
      var a := FailedCycle(env, nodes, policy, s.events, s.worlds, s.world, f, i, was, store);
      s' := s.(broken := Some(a));
    }
  }

  /** The attempt a restore follows. */
  function AttemptOf(s: Standing): Attempt {
    match s.broken
    case None => Attempt(None, 0)
    case Some(a) => a
  }

  lemma {:induction false} AttemptIsBroken(env: Env, nodes: Nodes, policy: Policy, s: Standing, was: Processors, left: Aligner, store: Store)
    requires Ordered(nodes) && Holds(env, nodes, policy, s, was, left, store)
    ensures Sane(env) && Leads(env, nodes, policy, s.events, s.worlds, s.world) && OwnsAll(s.world, was)
    ensures IsBroken(env, nodes, policy, s.world, store, AttemptOf(s))
  {
  }

  /** A restore that fails leaves the runner as broken as before. */
  lemma {:induction false} StaysBroken(env: Env, nodes: Nodes, policy: Policy, s: Standing, cut: Cut, was: Processors, left: Aligner, store: Store,
                                       now: Processors, aligner: Aligner)
    requires Ordered(nodes) && Holds(env, nodes, policy, s, was, left, store)
    requires cut.epoch in env.cuts && env.cuts[cut.epoch] == cut && cut.complete
    requires forall q :: q !in LogicalTargets(env.assignment, cut) ==> SameAt(was, now, q)
    ensures Holds(env, nodes, policy, s.(broken := Some(AttemptOf(s))), now, aligner, store)
  {
    AttemptIsBroken(env, nodes, policy, s, was, left, store);
    RestoreOwns(env, nodes, policy, s.events, s.worlds, s.world, cut, was, now);
  }

  lemma {:induction false} ComesBack(env: Env, nodes: Nodes, policy: Policy, s: Standing, cut: Cut, was: Processors, left: Aligner, store: Store,
                                     now: Processors) returns (s': Standing)
    requires Ordered(nodes) && Holds(env, nodes, policy, s, was, left, store)
    requires cut.epoch in env.cuts && env.cuts[cut.epoch] == cut && cut.complete
    requires forall q :: q in LogicalOf(env.log) ==> (q, cut.epoch) in store
    requires forall q :: q !in LogicalTargets(env.assignment, cut) ==> SameAt(was, now, q)
    requires forall q :: q in LogicalTargets(env.assignment, cut) ==> FilledFrom(nodes, now, store, q, cut.epoch)
    ensures Holds(env, nodes, policy, s', now, Barriers.Restored(left, cut, Targets(env.assignment, cut)), store)
    ensures s'.broken == None && s'.events == s.events + [BarrierWorlds.Failed(AttemptOf(s).fetch, AttemptOf(s).saves, left, cut.epoch)]
  {
    var a := AttemptOf(s);
    AttemptIsBroken(env, nodes, policy, s, was, left, store);
    ReachedFlows(env, nodes, policy, s.events, s.worlds, s.world);
    RestoreOwns(env, nodes, policy, s.events, s.worlds, s.world, cut, was, now);
    var next := RestoreReaches(env, nodes, policy, s.events, s.worlds, s.world, a, left, cut, now, store);
    s' := Standing(s.events + [BarrierWorlds.Failed(a.fetch, a.saves, left, cut.epoch)], s.worlds + [next], next, None);
  }

  /** After a cycle whose barrier fired, what the store holds, what is delivered and what
      is committed is exact. */
  lemma {:induction false} IsExactAfter(env: Env, nodes: Nodes, policy: Policy, s: Standing, processors: Processors, aligner: Aligner, store: Store, f: Fetch)
    requires Ordered(nodes) && Holds(env, nodes, policy, s, processors, aligner, store) && s.broken == None
    requires s.events != [] && s.events[|s.events| - 1] == BarrierWorlds.Succeeded(f) && |s.worlds| > |s.events|
    requires Legal(env, s.worlds[|s.events| - 1].flow, f) && Fired(IntakeBy(env, s.worlds[|s.events| - 1].flow, f).aligner)
    ensures s.world.store == store && s.world.flow.aligner == aligner
    ensures BarrierWorlds.IsExact(env, ProcessorsOf(nodes, policy), s.world,
                                  IntakeBy(env, s.worlds[|s.events| - 1].flow, f).aligner.pending.value)
  {
    FiringIsExact(env, nodes, policy, s.events, s.worlds, s.world, f);
  }

  /** Whatever has happened, the next round can be rolled back, if the processors of the
      topology keep something that makes their snapshots faithful. */
  lemma {:induction false} IsReadyAgain(env: Env, nodes: Nodes, policy: Policy, s: Standing, processors: Processors, aligner: Aligner, store: Store,
                                        goods: Goods)
    requires Ordered(nodes) && Holds(env, nodes, policy, s, processors, aligner, store) && s.broken == None && AllKeepGood(nodes, goods)
    ensures CanRollBack(nodes, processors)
  {
    BarrierWorlds.CourseRuns(env, ProcessorsOf(nodes, policy), s.events, s.worlds);
    RunCanRollBack(env, nodes, policy, goods, s.events, processors);
  }

  // ---------------------------------------------------------------- the runner

  /** The runner stands there. */
  ghost predicate StandsAt(env: Env, run: GroupRun, s: Standing)
    reads run, run.topology, run.Aligners()
  {
    && run.aligner != null && run.topology.Valid()
    && Holds(env, run.topology.nodes, run.policy, s, run.topology.processors, run.Alignment(), run.store)
  }

  /** A runner with new processors, a new aligner and an empty store. */
  lemma {:induction false} StandsAtStart(env: Env, nodes: Nodes, policy: Policy) returns (s: Standing)
    requires Ordered(nodes) && Sane(env)
    ensures Holds(env, nodes, policy, s, map[], NEW_ALIGNER, map[]) && s.broken == None && s.events == []
  {
    var start := BarrierWorlds.StartWorld(env, ProcessorsOf(nodes, policy));
    s := Standing([], [start], start, None);
  }

  /** The cycle itself, as the intake of its round. */
  method Drive(run: GroupRun, offer: Offer, fetched: Result<Polled, Failure>, outside: Outside, transactional: bool,
               ghost env: Env, ghost w: Flow, ghost f: Fetch, ghost i: Intake)
    returns (r: Result<Offsets, Failure>)
    requires run.Ready() && run.aligner != null && run.Alignment() == w.aligner
    requires Legal(env, w, f) && Answers(env, w, f, offer, fetched) && i == IntakeBy(env, w, f)
    modifies run, run.topology, run.Aligners()
    ensures run.topology.Valid()
    ensures Ended(run.topology.nodes, run.policy, r, i, old(run.topology.processors), run.topology.processors, old(run.store), run.store, run.Alignment())
  {
    r := run.RunOnce(offer, fetched, outside, transactional);
  }

  /** One cycle. When it succeeds the runner stands at the world of the round and its
      offsets are committed; when it fails no trace is left in the processors, and a
      restore may follow. */
  method RunOnce(run: GroupRun, offer: Offer, fetched: Result<Polled, Failure>, outside: Outside, transactional: bool,
                 ghost env: Env, ghost s: Standing, ghost f: Fetch, ghost i: Intake)
    returns (r: Result<Offsets, Failure>, ghost s': Standing)
    requires StandsAt(env, run, s) && s.broken == None && run.Ready()
    requires Starts(env, s.world.flow, f) && Answers(env, s.world.flow, f, offer, fetched) && i == IntakeBy(env, s.world.flow, f)
    modifies run, run.topology, run.Aligners()
    ensures StandsAt(env, run, s') && Follows(r, f, s, s')
    ensures Ended(run.topology.nodes, run.policy, r, i, old(run.topology.processors), run.topology.processors,
                  old(run.store), run.store, run.Alignment())
  {
    ghost var was, before := run.topology.processors, run.store;
    r := Drive(run, offer, fetched, outside, transactional, env, s.world.flow, f, i);
    s' := Settle(env, run.topology.nodes, run.policy, s, f, i, was, before, r, run.topology.processors, run.store, run.Alignment());
  }

  /** The world can be restored to the cut, and the store answers. */
  ghost predicate CanRestore(env: Env, nodes: Nodes, policy: Policy, store: Store, cut: Cut, load: int -> Option<Failure>)
    requires Ordered(nodes)
  {
    BarrierWorlds.Restorable(env, ProcessorsOf(nodes, policy), store, cut.epoch) && forall q :: load(q).None?
  }

  lemma {:induction false} AllFillable(env: Env, nodes: Nodes, policy: Policy, store: Store, cut: Cut, load: int -> Option<Failure>)
    requires Ordered(nodes) && Sane(env) && cut.epoch in env.cuts && env.cuts[cut.epoch] == cut
    ensures CanRestore(env, nodes, policy, store, cut, load) ==>
              forall q :: q in LogicalTargets(env.assignment, cut) ==> Fillable(nodes, store, q, cut.epoch, load)
  {
    if CanRestore(env, nodes, policy, store, cut, load) {
      forall q | q in LogicalTargets(env.assignment, cut) ensures Fillable(nodes, store, q, cut.epoch, load) {
        RestorableIsFillable(env, nodes, policy, store, cut.epoch, load, q);
      }
    }
  }

  /** Rewinds to the cut of an epoch that every partition was saved under. */
  method RestoreToCut(run: GroupRun, cut: Cut, assignment: set<TopicPartition>, load: int -> Option<Failure>, seek: TopicPartition -> Option<Failure>,
                      ghost env: Env, ghost s: Standing)
    returns (r: Result<Offsets, Failure>, ghost s': Standing)
    requires StandsAt(env, run, s) && cut.epoch in env.cuts && env.cuts[cut.epoch] == cut && cut.complete && assignment == env.assignment
    requires forall q :: q in LogicalOf(env.log) ==> (q, cut.epoch) in run.store
    modifies run.topology, run.Aligners()
    ensures StandsAt(env, run, s') && (s'.broken == None <==> r.Ok?)
    ensures CanRestore(env, run.topology.nodes, run.policy, run.store, cut, load) && (forall tp :: seek(tp).None?) ==> r.Ok?
    ensures r.Ok? ==>
              && r.value == SoughtTo(assignment, cut)
              && s'.events == s.events + [BarrierWorlds.Failed(AttemptOf(s).fetch, AttemptOf(s).saves, old(run.Alignment()), cut.epoch)]
  {
    ghost var was, left, nodes := run.topology.processors, run.Alignment(), run.topology.nodes;
    AllFillable(env, nodes, run.policy, run.store, cut, load);
    r := run.RestoreToCut(cut, assignment, load, seek);
    if r.Ok? {
      s' := ComesBack(env, nodes, run.policy, s, cut, was, left, run.store, run.topology.processors);
    } else {
      StaysBroken(env, nodes, run.policy, s, cut, was, left, run.store, run.topology.processors, run.Alignment());
      s' := s.(broken := Some(AttemptOf(s)));
    }
  }
}
