/** Whole runs of a barrier-aligned runner with its processors and its store: rounds
    that succeed, and failures that are followed by a restore to a saved epoch. The
    processors may be any: what a run keeps of them is how their records were cut into
    rounds. */
module BarrierWorlds {
  import opened Wrappers
  import opened Records
  import opened Barriers
  import opened BarrierRuns

  // --------------------------------------------------------------- processors

  /** What the processors of a logical partition do with the records of a round, and
      how their state is saved and loaded into new ones. Saving widens some values,
      so loading need not give the very state back. */
  datatype Processors<!S, !D> = Processors(
    initial: S,
    run: (int, S, Polled) -> Option<S>,
    save: S -> Option<D>,
    load: D -> Option<S>)

  /** What happened to the processors of a partition. */
  datatype Happening = Took(part: Polled) | Reloaded

  type History = seq<Happening>

  function AfterHappening<S, D>(p: Processors<S, D>, q: int, s: S, happening: Happening): Option<S> {
    match happening
    case Took(part) => p.run(q, s, part)
    case Reloaded =>
      match p.save(s)
      case None => None
      case Some(d) => p.load(d)
  }

  /** The state a history leads to, when it leads to one. */
  function StateAfter<S, D>(p: Processors<S, D>, q: int, h: History): Option<S> {
    if h == [] then Some(p.initial)
    else
      match StateAfter(p, q, h[..|h| - 1])
      case None => None
      case Some(s) => AfterHappening(p, q, s, h[|h| - 1])
  }

  function RecordsIn(h: History, tp: TopicPartition): seq<Record> {
    if h == [] then []
    else RecordsIn(h[..|h| - 1], tp) + if h[|h| - 1].Took? then RecordsOf(h[|h| - 1].part, tp) else []
  }

  /** A history that cuts exactly these records into rounds. */
  ghost predicate Cuts(h: History, part: Polled) {
    && (forall tp :: tp in part ==> RecordsIn(h, tp) == part[tp])
    && forall k :: 0 <= k < |h| && h[k].Took? ==> h[k].part.Keys <= part.Keys
  }

  lemma {:induction false} HistoryNext<S, D>(p: Processors<S, D>, q: int, h: History, happening: Happening)
    ensures StateAfter(p, q, h + [happening])
            == match StateAfter(p, q, h)
               case None => None
               case Some(s) => AfterHappening(p, q, s, happening)
  {
    assert (h + [happening])[..|h|] == h;
  }

  lemma {:induction false} RecordsNext(h: History, happening: Happening, tp: TopicPartition)
    ensures RecordsIn(h + [happening], tp)
            == RecordsIn(h, tp) + if happening.Took? then RecordsOf(happening.part, tp) else []
  {
    assert (h + [happening])[..|h|] == h;
  }

  lemma {:induction false} CutsNext(h: History, part: Polled, more: Polled)
    requires Cuts(h, part) && more.Keys <= part.Keys
    ensures Cuts(h + [Took(more)], Extend(part, more))
  {
    forall tp | tp in part ensures RecordsIn(h + [Took(more)], tp) == Extend(part, more)[tp] {
      RecordsNext(h, Took(more), tp);
    }
  }

  lemma {:induction false} CutsReloaded(h: History, part: Polled)
    requires Cuts(h, part)
    ensures Cuts(h + [Reloaded], part)
  {
    forall tp | tp in part ensures RecordsIn(h + [Reloaded], tp) == part[tp] {
      RecordsNext(h, Reloaded, tp);
    }
  }

  // ------------------------------------------------------------------- worlds

  /** How far the runner is, the state of every logical partition with what happened
      to it, and the snapshots of the store with what had happened before each. */
  datatype World<!S, !D> = World(
    flow: Flow,
    states: map<int, S>,
    histories: map<int, History>,
    store: map<(int, int), D>,
    saved: map<(int, int), History>)

  function StartWorld<S, D>(env: Env, p: Processors<S, D>): World<S, D> {
    World(Start(env), map q | q in LogicalOf(env.log) :: p.initial, map q | q in LogicalOf(env.log) :: [], map[], map[])
  }

  /** Every partition that takes in records runs through. */
  ghost predicate AllRun<S, D>(p: Processors<S, D>, states: map<int, S>, taken: Polled) {
    forall q :: q in LogicalOf(taken) ==> q in states && p.run(q, states[q], Part(taken, q)).Some?
  }

  function StatesAfter<S, D>(p: Processors<S, D>, states: map<int, S>, taken: Polled): map<int, S> {
    map q | q in states ::
      if q in LogicalOf(taken) then
        (match p.run(q, states[q], Part(taken, q)) case Some(s) => s case None => states[q])
      else states[q]
  }

  function HistoriesAfter(histories: map<int, History>, taken: Polled): map<int, History> {
    map q | q in histories :: if q in LogicalOf(taken) then histories[q] + [Took(Part(taken, q))] else histories[q]
  }

  /** The snapshots a barrier saves: the states of its partitions under its epoch. */
  function Saves<S, D>(p: Processors<S, D>, states: map<int, S>, barrier: Barrier): map<(int, int), D> {
    map q | q in states && q in barrier.partitions && p.save(states[q]).Some? :: (q, barrier.cut.epoch) := p.save(states[q]).value
  }

  /** What had happened before each of them. */
  function Before<S, D>(p: Processors<S, D>, states: map<int, S>, histories: map<int, History>, barrier: Barrier): map<(int, int), History> {
    map q | q in states && q in barrier.partitions && p.save(states[q]).Some? && q in histories :: (q, barrier.cut.epoch) := histories[q]
  }

  /** A barrier with the first of its partitions only. */
  function FirstOf(barrier: Barrier, n: nat): Barrier {
    if n < |barrier.partitions| then barrier.(partitions := barrier.partitions[..n]) else barrier
  }

  ghost predicate AllSave<S, D>(p: Processors<S, D>, states: map<int, S>, barrier: Barrier) {
    forall q :: q in states && q in barrier.partitions ==> p.save(states[q]).Some?
  }

  ghost predicate Succeeds<S, D>(p: Processors<S, D>, states: map<int, S>, i: Intake) {
    && AllRun(p, states, i.taken)
    && (Fired(i.aligner) ==> AllSave(p, StatesAfter(p, states, i.taken), BarrierOf(i.aligner, OffsetsOf(i.taken))))
  }

  /** How many snapshots a round saves: none unless it fires. */
  function SaveCount(i: Intake): nat {
    match BarrierBy(i)
    case None => 0
    case Some(barrier) => |barrier.partitions|
  }

  /** The first snapshots a round saves, if it fires, and what had happened before. */
  function SavedBy<S, D>(p: Processors<S, D>, states: map<int, S>, i: Intake, n: nat): map<(int, int), D> {
    match BarrierBy(i)
    case None => map[]
    case Some(barrier) => Saves(p, StatesAfter(p, states, i.taken), FirstOf(barrier, n))
  }

  function BeforeBy<S, D>(p: Processors<S, D>, states: map<int, S>, histories: map<int, History>, i: Intake, n: nat): map<(int, int), History> {
    match BarrierBy(i)
    case None => map[]
    case Some(barrier) => Before(p, StatesAfter(p, states, i.taken), HistoriesAfter(histories, i.taken), FirstOf(barrier, n))
  }

  /** The end of a round that succeeds: the processors run, and a barrier that fired is
      saved, committed and finished. */
  function CloseWorld<S, D>(p: Processors<S, D>, w: World<S, D>, i: Intake, next: Counts): World<S, D> {
    World(Close(w.flow, i, next), StatesAfter(p, w.states, i.taken), HistoriesAfter(w.histories, i.taken),
          w.store + SavedBy(p, w.states, i, SaveCount(i)), w.saved + BeforeBy(p, w.states, w.histories, i, SaveCount(i)))
  }

  function RoundWorld<S, D>(env: Env, p: Processors<S, D>, w: World<S, D>, f: Fetch): World<S, D>
    requires Legal(env, w.flow, f)
  {
    CloseWorld(p, w, IntakeBy(env, w.flow, f), NextAfter(w.flow.next, f.counts))
  }

  // -------------------------------------------------------- states and snapshots

  /** The state is where this history leads, and the history cuts these records. */
  ghost predicate Leads<S, D>(p: Processors<S, D>, q: int, h: History, part: Polled, s: S) {
    StateAfter(p, q, h) == Some(s) && Cuts(h, part)
  }

  ghost predicate StatesMean<S, D>(env: Env, p: Processors<S, D>, delivered: Polled, states: map<int, S>, histories: map<int, History>) {
    && states.Keys == LogicalOf(env.log) == histories.Keys
    && forall q :: q in states ==> Leads(p, q, histories[q], Part(delivered, q), states[q])
  }

  /** A saved snapshot is the state after exactly the records below its cut, cut into
      rounds in some way. */
  ghost predicate SnapshotMeans<S, D>(env: Env, p: Processors<S, D>, q: int, epoch: int, d: D, h: History) {
    && epoch in env.cuts
    && env.cuts[epoch].complete
    && q in LogicalOf(env.log)
    && StateAfter(p, q, h).Some?
    && p.save(StateAfter(p, q, h).value) == Some(d)
    && Cuts(h, Part(BelowCut(env.log, env.cuts[epoch].offsets), q))
  }

  ghost predicate StoreMeans<S, D>(env: Env, p: Processors<S, D>, store: map<(int, int), D>, saved: map<(int, int), History>) {
    forall q, e :: (q, e) in store ==> (q, e) in saved && SnapshotMeans(env, p, q, e, store[(q, e)], saved[(q, e)])
  }

  ghost predicate Invariant<S, D>(env: Env, p: Processors<S, D>, w: World<S, D>) {
    && Flows(env, w.flow)
    && StatesMean(env, p, w.flow.delivered, w.states, w.histories)
    && StoreMeans(env, p, w.store, w.saved)
  }

  lemma {:induction false} PartOfExtension(h: Polled, x: Polled, q: int)
    requires x.Keys <= h.Keys
    ensures q in LogicalOf(x) ==> Extend(Part(h, q), Part(x, q)) == Part(Extend(h, x), q)
    ensures q !in LogicalOf(x) ==> Part(Extend(h, x), q) == Part(h, q)
  {
    if q in LogicalOf(x) {
      forall tp | tp in Part(h, q) ensures Extend(Part(h, q), Part(x, q))[tp] == Part(Extend(h, x), q)[tp] {
      }
    } else {
      forall tp | tp in Part(h, q) ensures Part(Extend(h, x), q)[tp] == Part(h, q)[tp] {
        assert tp !in x;
      }
    }
  }

  lemma {:induction false} LeadsOn<S, D>(p: Processors<S, D>, q: int, h: History, part: Polled, s: S, more: Polled, s': S)
    requires Leads(p, q, h, part, s) && more.Keys <= part.Keys && p.run(q, s, more) == Some(s')
    ensures Leads(p, q, h + [Took(more)], Extend(part, more), s')
  {
    HistoryNext(p, q, h, Took(more));
    CutsNext(h, part, more);
  }

  lemma {:induction false} RunMeans<S, D>(env: Env, p: Processors<S, D>, delivered: Polled, states: map<int, S>, histories: map<int, History>, taken: Polled)
    requires taken.Keys <= delivered.Keys
    requires StatesMean(env, p, delivered, states, histories) && AllRun(p, states, taken)
    ensures StatesMean(env, p, Extend(delivered, taken), StatesAfter(p, states, taken), HistoriesAfter(histories, taken))
  {
    var after, now := StatesAfter(p, states, taken), HistoriesAfter(histories, taken);
    forall q | q in after ensures Leads(p, q, now[q], Part(Extend(delivered, taken), q), after[q]) {
      PartOfExtension(delivered, taken, q);
      if q in LogicalOf(taken) {
        assert Part(taken, q).Keys <= Part(delivered, q).Keys;
        LeadsOn(p, q, histories[q], Part(delivered, q), states[q], Part(taken, q), after[q]);
      }
    }
  }

  lemma {:induction false} SavesAt<S, D>(p: Processors<S, D>, states: map<int, S>, barrier: Barrier, q: int, epoch: int)
    ensures (q, epoch) in Saves(p, states, barrier) <==>
              q in states && q in barrier.partitions && epoch == barrier.cut.epoch && p.save(states[q]).Some?
    ensures (q, epoch) in Saves(p, states, barrier) ==> Some(Saves(p, states, barrier)[(q, epoch)]) == p.save(states[q])
  {
    if q in states && q in barrier.partitions && epoch == barrier.cut.epoch && p.save(states[q]).Some? {
      assert (q, barrier.cut.epoch) in Saves(p, states, barrier);
    }
  }

  lemma {:induction false} BeforeAt<S, D>(p: Processors<S, D>, states: map<int, S>, histories: map<int, History>, barrier: Barrier, q: int, epoch: int)
    requires states.Keys == histories.Keys
    ensures (q, epoch) in Before(p, states, histories, barrier) <==> (q, epoch) in Saves(p, states, barrier)
    ensures (q, epoch) in Before(p, states, histories, barrier) ==> q in histories && Before(p, states, histories, barrier)[(q, epoch)] == histories[q]
  {
    SavesAt(p, states, barrier, q, epoch);
    if q in states && q in barrier.partitions && epoch == barrier.cut.epoch && p.save(states[q]).Some? {
      assert (q, barrier.cut.epoch) in Before(p, states, histories, barrier);
    }
  }

  /** The snapshots of a barrier mean what they should. */
  lemma {:induction false} SaveMeans<S, D>(env: Env, p: Processors<S, D>, cut: Cut, delivered: Polled, states: map<int, S>, histories: map<int, History>,
                                           barrier: Barrier, q: int, e: int)
    requires cut.complete && cut.epoch in env.cuts && env.cuts[cut.epoch] == cut && barrier.cut == cut
    requires delivered == BelowCut(env.log, cut.offsets) && StatesMean(env, p, delivered, states, histories)
    requires (q, e) in Saves(p, states, barrier)
    ensures (q, e) in Before(p, states, histories, barrier)
    ensures SnapshotMeans(env, p, q, e, Saves(p, states, barrier)[(q, e)], Before(p, states, histories, barrier)[(q, e)])
  {
    SavesAt(p, states, barrier, q, e);
    BeforeAt(p, states, histories, barrier, q, e);
    assert Leads(p, q, histories[q], Part(delivered, q), states[q]);
  }

  /** They may be added to the store. */
  lemma {:induction false} SavesMean<S, D>(env: Env, p: Processors<S, D>, cut: Cut, delivered: Polled, states: map<int, S>,
                                           histories: map<int, History>, store: map<(int, int), D>, saved: map<(int, int), History>, barrier: Barrier)
    requires cut.complete && cut.epoch in env.cuts && env.cuts[cut.epoch] == cut && barrier.cut == cut
    requires delivered == BelowCut(env.log, cut.offsets) && StatesMean(env, p, delivered, states, histories)
    requires StoreMeans(env, p, store, saved)
    ensures StoreMeans(env, p, store + Saves(p, states, barrier), saved + Before(p, states, histories, barrier))
  {
    var more, before := Saves(p, states, barrier), Before(p, states, histories, barrier);
    forall q, e | (q, e) in store + more
      ensures (q, e) in saved + before && SnapshotMeans(env, p, q, e, (store + more)[(q, e)], (saved + before)[(q, e)])
    {
      BeforeAt(p, states, histories, barrier, q, e);
      if (q, e) in more {
        SaveMeans(env, p, cut, delivered, states, histories, barrier, q, e);
      } else {
        assert (q, e) in store;
      }
    }
  }

  lemma {:induction false} EveryPartitionIsSaved<S, D>(env: Env, p: Processors<S, D>, a: Aligner, offsets: Offsets, states: map<int, S>, q: int)
    requires a.pending.Some? && a.aligned.Keys == env.log.Keys && states.Keys == LogicalOf(env.log) && q in LogicalOf(env.log)
    requires AllSave(p, states, BarrierOf(a, offsets))
    ensures (q, a.pending.value.epoch) in Saves(p, states, BarrierOf(a, offsets))
  {
    var tp :| tp in env.log && tp.partition == q;
    assert tp in a.aligned;
    assert q in Logical(a.aligned);
    SavesAt(p, states, BarrierOf(a, offsets), q, a.pending.value.epoch);
  }

  // --------------------------------------------------------------------- rounds

  /** The flow of a round that fires, as the store needs it. */
  ghost predicate FiresAt(env: Env, i: Intake, delivered: Polled) {
    var cut := i.aligner.pending;
    && cut.Some? && cut.value.complete && cut.value.epoch in env.cuts && env.cuts[cut.value.epoch] == cut.value
    && i.aligner.aligned.Keys == env.log.Keys
    && delivered == BelowCut(env.log, cut.value.offsets)
  }

  lemma {:induction false} RoundFiresAt(env: Env, w: Flow, f: Fetch)
    requires Sane(env) && Flows(env, w) && Starts(env, w, f) && Fired(IntakeBy(env, w, f).aligner)
    ensures FiresAt(env, IntakeBy(env, w, f), Extend(w.delivered, IntakeBy(env, w, f).taken))
  {
    RoundFires(env, w, f);
    RoundCommits(env, w, f);
  }

  lemma {:induction false} TakenIsInScope(env: Env, w: Flow, f: Fetch)
    requires Sane(env) && Flows(env, w) && Starts(env, w, f)
    ensures IntakeBy(env, w, f).taken.Keys <= w.delivered.Keys
  {
    RoundTookIn(env, w, f);
  }

  lemma {:induction false} CloseMeans<S, D>(env: Env, p: Processors<S, D>, w: World<S, D>, i: Intake, n: nat)
    requires StatesMean(env, p, w.flow.delivered, w.states, w.histories) && StoreMeans(env, p, w.store, w.saved)
    requires AllRun(p, w.states, i.taken) && i.taken.Keys <= w.flow.delivered.Keys
    requires Fired(i.aligner) ==> FiresAt(env, i, Extend(w.flow.delivered, i.taken))
    ensures StatesMean(env, p, Extend(w.flow.delivered, i.taken), StatesAfter(p, w.states, i.taken), HistoriesAfter(w.histories, i.taken))
    ensures StoreMeans(env, p, w.store + SavedBy(p, w.states, i, n), w.saved + BeforeBy(p, w.states, w.histories, i, n))
  {
    var states, histories := StatesAfter(p, w.states, i.taken), HistoriesAfter(w.histories, i.taken);
    RunMeans(env, p, w.flow.delivered, w.states, w.histories, i.taken);
    match BarrierBy(i) {
      case None => NothingAdded(w.store, w.saved);
      case Some(barrier) =>
        SavesMean(env, p, barrier.cut, Extend(w.flow.delivered, i.taken), states, histories, w.store, w.saved, FirstOf(barrier, n));
    }
  }

  lemma {:induction false} NothingAdded<D>(store: map<(int, int), D>, saved: map<(int, int), History>)
    ensures store + map[] == store && saved + map[] == saved
  {
  }

  lemma {:induction false} ClosedInvariant<S, D>(env: Env, p: Processors<S, D>, w: World<S, D>, i: Intake, next: Counts)
    requires Invariant(env, p, w) && Flows(env, Close(w.flow, i, next))
    requires AllRun(p, w.states, i.taken) && i.taken.Keys <= w.flow.delivered.Keys
    requires Fired(i.aligner) ==> FiresAt(env, i, Extend(w.flow.delivered, i.taken))
    ensures Invariant(env, p, CloseWorld(p, w, i, next))
  {
    CloseMeans(env, p, w, i, SaveCount(i));
  }

  lemma {:induction false} RoundInvariant<S, D>(env: Env, p: Processors<S, D>, w: World<S, D>, f: Fetch)
    requires Sane(env) && Invariant(env, p, w) && Starts(env, w.flow, f) && Succeeds(p, w.states, IntakeBy(env, w.flow, f))
    ensures Invariant(env, p, RoundWorld(env, p, w, f))
  {
    var i := IntakeBy(env, w.flow, f);
    RoundFlows(env, w.flow, f);
    TakenIsInScope(env, w.flow, f);
    if Fired(i.aligner) { RoundFiresAt(env, w.flow, f); }
    ClosedInvariant(env, p, w, i, NextAfter(w.flow.next, f.counts));
  }

  // --------------------------------------------------------------------- events

  /** A round that succeeds, or one that fails at any point and is followed by a
      restore. A failed round may have saved its first snapshots, and
      leaves the aligner and the processors in any state. */
  datatype Event =
    | Succeeded(fetch: Fetch)
    | Failed(attempt: Option<Fetch>, saves: nat, left: Aligner, epoch: int)

  /** The world a round that took in this much leaves when it fails, as far as the
      store goes: some snapshots of a barrier, if it got that far. */
  ghost function BrokenWorld<S, D>(p: Processors<S, D>, w: World<S, D>, i: Intake, n: nat): World<S, D> {
    if AllRun(p, w.states, i.taken)
    then w.(store := w.store + SavedBy(p, w.states, i, n), saved := w.saved + BeforeBy(p, w.states, w.histories, i, n))
    else w
  }

  ghost function FailedWorld<S, D>(env: Env, p: Processors<S, D>, w: World<S, D>, attempt: Option<Fetch>, n: nat): World<S, D>
    requires attempt.Some? ==> Legal(env, w.flow, attempt.value)
  {
    match attempt
    case None => w
    case Some(f) => BrokenWorld(p, w, IntakeBy(env, w.flow, f), n)
  }

  lemma {:induction false} NoSaves<S, D>(p: Processors<S, D>, states: map<int, S>, barrier: Barrier)
    requires barrier.partitions == []
    ensures Saves(p, states, barrier) == map[]
  {
  }

  lemma {:induction false} FirstOfNone(barrier: Barrier)
    ensures FirstOf(barrier, 0).partitions == []
  {
  }

  lemma {:induction false} SavedByNone<S, D>(p: Processors<S, D>, states: map<int, S>, i: Intake)
    ensures SavedBy(p, states, i, 0) == map[]
  {
    if BarrierBy(i).Some? {
      FirstOfNone(BarrierBy(i).value);
      NoSaves(p, StatesAfter(p, states, i.taken), FirstOf(BarrierBy(i).value, 0));
    }
  }

  lemma {:induction false} NothingSaved<S, D>(p: Processors<S, D>, w: World<S, D>, i: Intake)
    ensures BrokenWorld(p, w, i, 0).store == w.store
  {
    SavedByNone(p, w.states, i);
    NothingAdded(w.store, w.saved);
  }

  ghost predicate Restorable<S, D>(env: Env, p: Processors<S, D>, store: map<(int, int), D>, epoch: int) {
    && epoch in env.cuts
    && env.cuts[epoch].complete
    && env.log.Keys <= env.cuts[epoch].offsets.Keys
    && forall q :: q in LogicalOf(env.log) ==> (q, epoch) in store && p.load(store[(q, epoch)]).Some?
  }

  /** Restoring to an epoch loads the snapshot of every partition into new processors
      and seeks every input to the cut. */
  function RestoredFlow(env: Env, w: Flow, left: Aligner, epoch: int): Flow
    requires epoch in env.cuts && env.log.Keys <= env.cuts[epoch].offsets.Keys
  {
    var cut := env.cuts[epoch];
    Flow(Restored(left, cut, env.log.Keys), map tp | tp in env.log :: Split(env.log[tp], cut.offsets[tp]),
         BelowCut(env.log, cut.offsets), w.committed)
  }

  function LoadedStates<S, D>(env: Env, p: Processors<S, D>, store: map<(int, int), D>, epoch: int): map<int, S> {
    map q | q in LogicalOf(env.log) && (q, epoch) in store && p.load(store[(q, epoch)]).Some? :: p.load(store[(q, epoch)]).value
  }

  function LoadedHistories(env: Env, saved: map<(int, int), History>, epoch: int): map<int, History> {
    map q | q in LogicalOf(env.log) && (q, epoch) in saved :: saved[(q, epoch)] + [Reloaded]
  }

  ghost function RestoreTo<S, D>(env: Env, p: Processors<S, D>, w: World<S, D>, left: Aligner, epoch: int): World<S, D>
    requires Restorable(env, p, w.store, epoch)
  {
    World(RestoredFlow(env, w.flow, left, epoch), LoadedStates(env, p, w.store, epoch), LoadedHistories(env, w.saved, epoch),
          w.store, w.saved)
  }

  ghost function StepEvent<S, D>(env: Env, p: Processors<S, D>, w: World<S, D>, e: Event): Option<World<S, D>> {
    match e
    case Succeeded(f) =>
      if Starts(env, w.flow, f) && Succeeds(p, w.states, IntakeBy(env, w.flow, f)) then Some(RoundWorld(env, p, w, f)) else None
    case Failed(attempt, n, left, epoch) =>
      if (attempt.Some? ==> Starts(env, w.flow, attempt.value))
         && Restorable(env, p, FailedWorld(env, p, w, attempt, n).store, epoch)
      then Some(RestoreTo(env, p, FailedWorld(env, p, w, attempt, n), left, epoch))
      else None
  }

  /** The world a sequence of events leads to, when each of them can happen. */
  ghost function RunEvents<S, D>(env: Env, p: Processors<S, D>, events: seq<Event>): Option<World<S, D>> {
    if events == [] then Some(StartWorld(env, p))
    else
      match RunEvents(env, p, events[..|events| - 1])
      case None => None
      case Some(w) => StepEvent(env, p, w, events[|events| - 1])
  }

  /** The worlds a run goes through, from the start to the last event. */
  ghost predicate IsCourse<S, D>(env: Env, p: Processors<S, D>, events: seq<Event>, worlds: seq<World<S, D>>) {
    && |worlds| == |events| + 1 && worlds[0] == StartWorld(env, p)
    && forall k {:trigger GoesOn(env, p, events, worlds, k)} :: 0 <= k < |events| ==> GoesOn(env, p, events, worlds, k)
  }

  ghost predicate GoesOn<S, D>(env: Env, p: Processors<S, D>, events: seq<Event>, worlds: seq<World<S, D>>, k: nat)
    requires k < |events| < |worlds|
  {
    StepEvent(env, p, worlds[k], events[k]) == Some(worlds[k + 1])
  }

  lemma {:induction false} CoursePrefix<S, D>(env: Env, p: Processors<S, D>, events: seq<Event>, worlds: seq<World<S, D>>)
    requires IsCourse(env, p, events, worlds) && events != []
    ensures IsCourse(env, p, events[..|events| - 1], worlds[..|events|])
    ensures StepEvent(env, p, worlds[|events| - 1], events[|events| - 1]) == Some(worlds[|events|])
  {
    var fewer, before := events[..|events| - 1], worlds[..|events|];
    forall k: nat | k < |events| - 1 ensures GoesOn(env, p, fewer, before, k) {
      assert GoesOn(env, p, events, worlds, k);
    }
    assert GoesOn(env, p, events, worlds, |events| - 1);
  }

  lemma {:induction false} CourseRuns<S, D>(env: Env, p: Processors<S, D>, events: seq<Event>, worlds: seq<World<S, D>>)
    requires IsCourse(env, p, events, worlds)
    ensures RunEvents(env, p, events) == Some(worlds[|events|])
  {
    if events != [] {
      var n := |events| - 1;
      CoursePrefix(env, p, events, worlds);
      CourseRuns(env, p, events[..n], worlds[..n + 1]);
    }
  }

  lemma {:induction false} CourseNext<S, D>(env: Env, p: Processors<S, D>, events: seq<Event>, worlds: seq<World<S, D>>, e: Event, w: World<S, D>)
    requires IsCourse(env, p, events, worlds) && StepEvent(env, p, worlds[|events|], e) == Some(w)
    ensures IsCourse(env, p, events + [e], worlds + [w])
  {
    forall k: nat | k < |events| + 1 ensures GoesOn(env, p, events + [e], worlds + [w], k) {
      assert k < |events| ==> GoesOn(env, p, events, worlds, k);
    }
  }

  // ---------------------------------------------------------------- the invariant

  lemma {:induction false} FailureKeepsStore<S, D>(env: Env, p: Processors<S, D>, w: World<S, D>, attempt: Option<Fetch>, n: nat)
    requires Sane(env) && Invariant(env, p, w) && (attempt.Some? ==> Starts(env, w.flow, attempt.value))
    ensures var left := FailedWorld(env, p, w, attempt, n); StoreMeans(env, p, left.store, left.saved)
  {
    if attempt.Some? {
      var i := IntakeBy(env, w.flow, attempt.value);
      TakenIsInScope(env, w.flow, attempt.value);
      if Fired(i.aligner) { RoundFiresAt(env, w.flow, attempt.value); }
      BrokenKeepsStore(env, p, w, i, n);
    }
  }

  lemma {:induction false} BrokenKeepsStore<S, D>(env: Env, p: Processors<S, D>, w: World<S, D>, i: Intake, n: nat)
    requires StatesMean(env, p, w.flow.delivered, w.states, w.histories) && StoreMeans(env, p, w.store, w.saved)
    requires i.taken.Keys <= w.flow.delivered.Keys && (Fired(i.aligner) ==> FiresAt(env, i, Extend(w.flow.delivered, i.taken)))
    ensures var left := BrokenWorld(p, w, i, n); StoreMeans(env, p, left.store, left.saved)
  {
    if AllRun(p, w.states, i.taken) {
      CloseMeans(env, p, w, i, n);
    }
  }

  lemma {:induction false} LoadedMeans<S, D>(env: Env, p: Processors<S, D>, store: map<(int, int), D>, saved: map<(int, int), History>, epoch: int)
    requires StoreMeans(env, p, store, saved) && Restorable(env, p, store, epoch)
    ensures StatesMean(env, p, BelowCut(env.log, env.cuts[epoch].offsets), LoadedStates(env, p, store, epoch), LoadedHistories(env, saved, epoch))
  {
    var states, histories := LoadedStates(env, p, store, epoch), LoadedHistories(env, saved, epoch);
    var delivered := BelowCut(env.log, env.cuts[epoch].offsets);
    forall q | q in LogicalOf(env.log)
      ensures q in states && q in histories && Leads(p, q, histories[q], Part(delivered, q), states[q])
    {
      assert (q, epoch) in store;
      assert SnapshotMeans(env, p, q, epoch, store[(q, epoch)], saved[(q, epoch)]);
      HistoryNext(p, q, saved[(q, epoch)], Reloaded);
      CutsReloaded(saved[(q, epoch)], Part(delivered, q));
    }
  }

  lemma {:induction false} RestoredFlows(env: Env, w: Flow, left: Aligner, epoch: int)
    requires Sane(env) && epoch in env.cuts && env.log.Keys <= env.cuts[epoch].offsets.Keys
    ensures Flows(env, RestoredFlow(env, w, left, epoch))
  {
    RestoredTracks(env, left, env.cuts[epoch]);
  }

  /** Whatever a failure left behind, the restored world is as good as any. */
  lemma {:induction false} RestoreInvariant<S, D>(env: Env, p: Processors<S, D>, w: World<S, D>, left: Aligner, epoch: int)
    requires Sane(env) && StoreMeans(env, p, w.store, w.saved) && Restorable(env, p, w.store, epoch)
    ensures Invariant(env, p, RestoreTo(env, p, w, left, epoch))
  {
    RestoredFlows(env, w.flow, left, epoch);
    LoadedMeans(env, p, w.store, w.saved, epoch);
  }

  lemma {:induction false} StartInvariant<S, D>(env: Env, p: Processors<S, D>)
    requires Sane(env)
    ensures Invariant(env, p, StartWorld(env, p))
  {
    StartFlows(env);
  }

  /** Every run of rounds, failures and restores keeps the invariant, whatever the
      processors are. */
  lemma {:induction false} RunInvariant<S, D>(env: Env, p: Processors<S, D>, events: seq<Event>)
    requires Sane(env) && RunEvents(env, p, events).Some?
    ensures Invariant(env, p, RunEvents(env, p, events).value)
  {
    if events == [] {
      StartInvariant(env, p);
    } else {
      RunInvariant(env, p, events[..|events| - 1]);
      StepInvariant(env, p, RunEvents(env, p, events[..|events| - 1]).value, events[|events| - 1]);
    }
  }

  lemma {:induction false} StepInvariant<S, D>(env: Env, p: Processors<S, D>, w: World<S, D>, e: Event)
    requires Sane(env) && Invariant(env, p, w) && StepEvent(env, p, w, e).Some?
    ensures Invariant(env, p, StepEvent(env, p, w, e).value)
  {
    match e {
      case Succeeded(f) => RoundInvariant(env, p, w, f);
      case Failed(attempt, n, left, epoch) =>
        FailureKeepsStore(env, p, w, attempt, n);
        RestoreInvariant(env, p, FailedWorld(env, p, w, attempt, n), left, epoch);
    }
  }

  // ---------------------------------------------------------------- the theorems

  /** The store has a snapshot of every logical partition under an epoch: of the state
      that the records below the cut lead to, in the rounds they came in. */
  ghost predicate HasAll<S, D>(env: Env, p: Processors<S, D>, store: map<(int, int), D>, saved: map<(int, int), History>, e: int) {
    forall q :: q in LogicalOf(env.log) ==> (q, e) in store && (q, e) in saved && SnapshotMeans(env, p, q, e, store[(q, e)], saved[(q, e)])
  }

  /** What a barrier that fired leaves: exactly the records below the cut delivered,
      for every logical partition a snapshot of the state that these records lead to
      in the rounds they came in, and the cut committed. */
  ghost predicate IsExact<S, D>(env: Env, p: Processors<S, D>, w: World<S, D>, cut: Cut) {
    && env.log.Keys <= cut.offsets.Keys
    && w.flow.delivered == BelowCut(env.log, cut.offsets)
    && HasAll(env, p, w.store, w.saved, cut.epoch)
    && (forall tp :: tp in env.log ==> tp in w.flow.committed && w.flow.committed[tp] == cut.offsets[tp])
    && w.flow.aligner.lastEpoch == cut.epoch && w.flow.aligner.pending.None?
  }

  /** Barrier exactness, for any processors, in any run of rounds, failures and
      restores. */
  lemma {:induction false} BarrierIsExact<S, D>(env: Env, p: Processors<S, D>, events: seq<Event>, f: Fetch)
    requires Sane(env) && RunEvents(env, p, events).Some?
    requires var w := RunEvents(env, p, events).value;
             Starts(env, w.flow, f) && Succeeds(p, w.states, IntakeBy(env, w.flow, f)) && Fired(IntakeBy(env, w.flow, f).aligner)
    ensures var w := RunEvents(env, p, events).value;
            IsExact(env, p, RoundWorld(env, p, w, f), IntakeBy(env, w.flow, f).aligner.pending.value)
  {
    RunInvariant(env, p, events);
    FireIsExact(env, p, RunEvents(env, p, events).value, f);
  }

  /** A round that fires saves its whole barrier. */
  lemma {:induction false} SavedByAll<S, D>(p: Processors<S, D>, states: map<int, S>, i: Intake)
    requires Fired(i.aligner)
    ensures SavedBy(p, states, i, SaveCount(i)) == Saves(p, StatesAfter(p, states, i.taken), BarrierOf(i.aligner, OffsetsOf(i.taken)))
  {
  }

  /** What the invariant says of the store at the cut just fired. */
  lemma {:induction false} StoreIsExact<S, D>(env: Env, p: Processors<S, D>, w: World<S, D>, i: Intake,
                                              store: map<(int, int), D>, saved: map<(int, int), History>)
    requires w.states.Keys == LogicalOf(env.log) && Succeeds(p, w.states, i) && Fired(i.aligner)
    requires i.aligner.aligned.Keys == env.log.Keys && StoreMeans(env, p, store, saved)
    requires store == w.store + SavedBy(p, w.states, i, SaveCount(i))
    ensures HasAll(env, p, store, saved, i.aligner.pending.value.epoch)
  {
    SavedByAll(p, w.states, i);
    forall q | q in LogicalOf(env.log) ensures (q, i.aligner.pending.value.epoch) in store {
      EveryPartitionIsSaved(env, p, i.aligner, OffsetsOf(i.taken), StatesAfter(p, w.states, i.taken), q);
    }
  }

  lemma {:induction false} FireIsExact<S, D>(env: Env, p: Processors<S, D>, w: World<S, D>, f: Fetch)
    requires Sane(env) && Invariant(env, p, w) && Starts(env, w.flow, f)
    requires Succeeds(p, w.states, IntakeBy(env, w.flow, f)) && Fired(IntakeBy(env, w.flow, f).aligner)
    ensures IsExact(env, p, RoundWorld(env, p, w, f), IntakeBy(env, w.flow, f).aligner.pending.value)
  {
    RoundFires(env, w.flow, f);
    RoundFiresAt(env, w.flow, f);
    RoundInvariant(env, p, w, f);
    StoreIsExact(env, p, w, IntakeBy(env, w.flow, f), RoundWorld(env, p, w, f).store, RoundWorld(env, p, w, f).saved);
  }

  // -------------------------------------------------------------- restore, replay

  /** A relation of states that cannot be told apart: they run alike, save the same
      snapshot, and are alike to what is loaded from it. */
  ghost predicate Bisimilar<S(!new), D>(p: Processors<S, D>, alike: (S, S) -> bool) {
    && alike(p.initial, p.initial)
    && (forall s, t :: alike(s, t) ==> p.save(s) == p.save(t))
    && (forall s, t :: alike(s, t) && p.save(s).Some? && p.load(p.save(s).value).Some? ==> alike(p.load(p.save(s).value).value, t))
    && forall q, s, t, x ::
         alike(s, t) && p.run(q, s, x).Some? ==> p.run(q, t, x).Some? && alike(p.run(q, s, x).value, p.run(q, t, x).value)
  }

  /** The rounds of a history, without the reloads. */
  function Rounds(h: History): History {
    if h == [] then []
    else Rounds(h[..|h| - 1]) + if h[|h| - 1].Took? then [h[|h| - 1]] else []
  }

  lemma {:induction false} AlikeAfter<S(!new), D>(p: Processors<S, D>, alike: (S, S) -> bool, q: int, s: S, t: S, happening: Happening)
    requires Bisimilar(p, alike) && alike(s, t) && AfterHappening(p, q, s, happening).Some?
    ensures happening.Took? ==>
              && AfterHappening(p, q, t, happening).Some?
              && alike(AfterHappening(p, q, s, happening).value, AfterHappening(p, q, t, happening).value)
    ensures happening.Reloaded? ==> alike(AfterHappening(p, q, s, happening).value, t)
  {
  }

  /** Reloading cannot be told from not reloading. */
  lemma {:induction false} ReloadsAreInvisible<S(!new), D>(p: Processors<S, D>, alike: (S, S) -> bool, q: int, h: History)
    requires Bisimilar(p, alike) && StateAfter(p, q, h).Some?
    ensures StateAfter(p, q, Rounds(h)).Some? && alike(StateAfter(p, q, h).value, StateAfter(p, q, Rounds(h)).value)
  {
    if h != [] {
      var earlier, last := h[..|h| - 1], h[|h| - 1];
      ReloadsAreInvisible(p, alike, q, earlier);
      AlikeAfter(p, alike, q, StateAfter(p, q, earlier).value, StateAfter(p, q, Rounds(earlier)).value, last);
      HistoryNext(p, q, Rounds(earlier), last);
      assert Rounds(earlier) + [] == Rounds(earlier);
    }
  }

  /** Replaying in the same rounds is invisible, for any processors: take any two runs
      with whatever failures and restores, and a partition whose records were cut into
      rounds alike. Its states cannot be told apart and save the same snapshot. */
  lemma {:induction false} SameRoundsSameState<S(!new), D>(env: Env, p: Processors<S, D>, alike: (S, S) -> bool, xs: seq<Event>, ys: seq<Event>, q: int)
    requires Sane(env) && RunEvents(env, p, xs).Some? && RunEvents(env, p, ys).Some? && q in LogicalOf(env.log)
    requires Bisimilar(p, alike)
    requires q in RunEvents(env, p, xs).value.histories && q in RunEvents(env, p, ys).value.histories
    requires Rounds(RunEvents(env, p, xs).value.histories[q]) == Rounds(RunEvents(env, p, ys).value.histories[q])
    ensures q in RunEvents(env, p, xs).value.states && q in RunEvents(env, p, ys).value.states
    ensures var s, t := RunEvents(env, p, xs).value.states[q], RunEvents(env, p, ys).value.states[q];
            p.save(s) == p.save(t) && exists u :: alike(s, u) && alike(t, u)
  {
    RunInvariant(env, p, xs);
    RunInvariant(env, p, ys);
    var x, y := RunEvents(env, p, xs).value, RunEvents(env, p, ys).value;
    assert Leads(p, q, x.histories[q], Part(x.flow.delivered, q), x.states[q]);
    assert Leads(p, q, y.histories[q], Part(y.flow.delivered, q), y.states[q]);
    ReloadsAreInvisible(p, alike, q, x.histories[q]);
    ReloadsAreInvisible(p, alike, q, y.histories[q]);
  }

  /** Restoring keeps the rounds that led to the snapshot, so a replay that cuts the
      records after the cut as before is a replay in the same rounds. */
  lemma {:induction false} RestoreKeepsRounds<S, D>(env: Env, p: Processors<S, D>, w: World<S, D>, left: Aligner, epoch: int, q: int)
    requires Restorable(env, p, w.store, epoch) && StoreMeans(env, p, w.store, w.saved) && q in LogicalOf(env.log)
    ensures (q, epoch) in w.saved && q in RestoreTo(env, p, w, left, epoch).histories
    ensures Rounds(RestoreTo(env, p, w, left, epoch).histories[q]) == Rounds(w.saved[(q, epoch)])
  {
    assert (q, epoch) in w.store;
    assert (w.saved[(q, epoch)] + [Reloaded])[..|w.saved[(q, epoch)]|] == w.saved[(q, epoch)];
  }

  /** A state for every collection of records, such that running from a state alike to
      that of some records gives a state alike to that of all of them: the state does
      not depend on how the records are cut into rounds. */
  ghost predicate Means<S(!new), D>(p: Processors<S, D>, alike: (S, S) -> bool, q: int, meaning: Polled -> Option<S>) {
    && (forall h: Polled :: (forall tp :: tp in h ==> h[tp] == []) ==> meaning(h).Some? && alike(p.initial, meaning(h).value))
    && forall h: Polled, x: Polled, s ::
         x.Keys <= h.Keys && meaning(h).Some? && alike(s, meaning(h).value) && p.run(q, s, x).Some? ==>
           meaning(Extend(h, x)).Some? && alike(p.run(q, s, x).value, meaning(Extend(h, x)).value)
  }

  /** The records of a history by the partitions of a scope. */
  function Gathered(h: History, scope: set<TopicPartition>): Polled { map tp | tp in scope :: RecordsIn(h, tp) }

  lemma {:induction false} HistoryMeans<S(!new), D>(p: Processors<S, D>, alike: (S, S) -> bool, q: int, meaning: Polled -> Option<S>,
                                                    h: History, scope: set<TopicPartition>)
    requires Bisimilar(p, alike) && Means(p, alike, q, meaning) && StateAfter(p, q, h).Some?
    requires forall k :: 0 <= k < |h| && h[k].Took? ==> h[k].part.Keys <= scope
    ensures meaning(Gathered(h, scope)).Some? && alike(StateAfter(p, q, h).value, meaning(Gathered(h, scope)).value)
  {
    if h != [] {
      var earlier, last := h[..|h| - 1], h[|h| - 1];
      HistoryMeans(p, alike, q, meaning, earlier, scope);
      GatheredNext(earlier, last, scope);
      assert earlier + [last] == h;
      AlikeAfter(p, alike, q, StateAfter(p, q, earlier).value, meaning(Gathered(earlier, scope)).value, last);
    }
  }

  lemma {:induction false} GatheredNext(h: History, last: Happening, scope: set<TopicPartition>)
    ensures Gathered(h + [last], scope) == if last.Took? then Extend(Gathered(h, scope), last.part) else Gathered(h, scope)
  {
    var now := if last.Took? then Extend(Gathered(h, scope), last.part) else Gathered(h, scope);
    forall tp | tp in scope ensures Gathered(h + [last], scope)[tp] == now[tp] {
      RecordsNext(h, last, tp);
    }
    assert Gathered(h + [last], scope).Keys == now.Keys;
  }

  lemma {:induction false} CutsGathers(h: History, part: Polled)
    requires Cuts(h, part)
    ensures Gathered(h, part.Keys) == part
  {
  }

  /** When the state does not depend on the rounds, restore then replay is invisible:
      in any two runs, where a partition has delivered as many records of each of its
      inputs, its states cannot be told apart and save the same snapshot. */
  lemma {:induction false} ReplayIsInvisible<S(!new), D>(env: Env, p: Processors<S, D>, alike: (S, S) -> bool, meaning: Polled -> Option<S>,
                                                         xs: seq<Event>, ys: seq<Event>, q: int)
    requires Sane(env) && RunEvents(env, p, xs).Some? && RunEvents(env, p, ys).Some? && q in LogicalOf(env.log)
    requires Bisimilar(p, alike) && Means(p, alike, q, meaning)
    requires forall tp :: tp in env.log && tp.partition == q ==>
                            |RecordsOf(RunEvents(env, p, xs).value.flow.delivered, tp)| == |RecordsOf(RunEvents(env, p, ys).value.flow.delivered, tp)|
    ensures q in RunEvents(env, p, xs).value.states && q in RunEvents(env, p, ys).value.states
    ensures var s, t := RunEvents(env, p, xs).value.states[q], RunEvents(env, p, ys).value.states[q];
            p.save(s) == p.save(t) && exists u :: alike(s, u) && alike(t, u)
  {
    RunInvariant(env, p, xs);
    RunInvariant(env, p, ys);
    SamePositionsSameState(env, p, alike, meaning, RunEvents(env, p, xs).value, RunEvents(env, p, ys).value, q);
  }

  lemma {:induction false} AlikeToOne<S(!new), D>(p: Processors<S, D>, alike: (S, S) -> bool, s: S, t: S, u: S)
    requires Bisimilar(p, alike) && alike(s, u) && alike(t, u)
    ensures p.save(s) == p.save(t) && exists u :: alike(s, u) && alike(t, u)
  {
  }

  lemma {:induction false} SamePositionsSameState<S(!new), D>(env: Env, p: Processors<S, D>, alike: (S, S) -> bool, meaning: Polled -> Option<S>,
                                                              x: World<S, D>, y: World<S, D>, q: int)
    requires Invariant(env, p, x) && Invariant(env, p, y) && q in LogicalOf(env.log)
    requires Bisimilar(p, alike) && Means(p, alike, q, meaning)
    requires forall tp :: tp in env.log && tp.partition == q ==> |RecordsOf(x.flow.delivered, tp)| == |RecordsOf(y.flow.delivered, tp)|
    ensures q in x.states && q in y.states
    ensures p.save(x.states[q]) == p.save(y.states[q]) && exists u :: alike(x.states[q], u) && alike(y.states[q], u)
  {
    SamePositionsSameRecords(env, x.flow, y.flow, q);
    StateMeans(env, p, alike, meaning, x, q);
    StateMeans(env, p, alike, meaning, y, q);
    AlikeToOne(p, alike, x.states[q], y.states[q], meaning(Part(x.flow.delivered, q)).value);
  }

  lemma {:induction false} StateMeans<S(!new), D>(env: Env, p: Processors<S, D>, alike: (S, S) -> bool, meaning: Polled -> Option<S>, w: World<S, D>, q: int)
    requires Invariant(env, p, w) && q in LogicalOf(env.log) && Bisimilar(p, alike) && Means(p, alike, q, meaning)
    ensures var part := Part(w.flow.delivered, q);
            q in w.states && meaning(part).Some? && alike(w.states[q], meaning(part).value)
  {
    var part := Part(w.flow.delivered, q);
    assert Leads(p, q, w.histories[q], part, w.states[q]);
    HistoryMeans(p, alike, q, meaning, w.histories[q], part.Keys);
    CutsGathers(w.histories[q], part);
  }

  lemma {:induction false} SamePositionsSameRecords(env: Env, x: Flow, y: Flow, q: int)
    requires Flows(env, x) && Flows(env, y)
    requires forall tp :: tp in env.log && tp.partition == q ==> |RecordsOf(x.delivered, tp)| == |RecordsOf(y.delivered, tp)|
    ensures Part(x.delivered, q) == Part(y.delivered, q)
  {
    forall tp | tp in env.log && tp.partition == q ensures x.delivered[tp] == y.delivered[tp] {
      DeliveredIsPrefix(env.log[tp], x.next[tp], x.delivered[tp], RecordsOf(x.aligner.held, tp), PositionOf(x.aligner.positions, tp));
      DeliveredIsPrefix(env.log[tp], y.next[tp], y.delivered[tp], RecordsOf(y.aligner.held, tp), PositionOf(y.aligner.positions, tp));
    }
    assert Part(x.delivered, q).Keys == Part(y.delivered, q).Keys;
  }
}
