/** When a barrier fires: as soon as what was fetched of every partition has reached the
    cut, and not before. */
module BarrierProgress {
  import opened Wrappers
  import opened Records
  import opened Barriers
  import opened BarrierRuns
  import BarrierWorlds

  /** A partition whose position has passed the pending cut is known to have reached it. */
  ghost predicate KnowsReached(a: Aligner) {
    a.pending.Some? ==> forall tp :: tp in a.aligned && PositionOf(a.positions, tp) >= a.aligned[tp] ==> tp in a.reached
  }

  /** The position of a partition is past the last record fetched from it. */
  ghost predicate IsPast(log: seq<Record>, next: nat, position: int) {
    0 < next <= |log| ==> position > log[next - 1].offset
  }

  ghost predicate AllPast(log: Polled, a: Aligner, next: Counts) {
    next.Keys == log.Keys && forall tp :: tp in log ==> IsPast(log[tp], next[tp], PositionOf(a.positions, tp))
  }

  ghost predicate IsAlert(env: Env, w: Flow) { KnowsReached(w.aligner) && AllPast(env.log, w.aligner, w.next) }

  lemma {:induction false} RealignKnows(a: Aligner)
    requires a.pending.Some?
    ensures KnowsReached(Realign(a)) && Realign(a).positions == a.positions
  {
  }

  lemma {:induction false} RefreshKnows(a: Aligner, assignment: set<TopicPartition>, cuts: seq<Cut>)
    ensures KnowsReached(Refresh(a, assignment, cuts)) && Refresh(a, assignment, cuts).positions == a.positions
  {
    var now := a.(assignment := assignment);
    if a.pending.Some? {
      RealignKnows(now);
    } else if cuts != [] {
      RealignKnows(now.(pending := Some(cuts[0]), reached := {}));
    }
  }

  lemma {:induction false} RaisedIsPast(log: seq<Record>, next: nat, positions: Offsets, reported: Offsets, tp: TopicPartition)
    requires IsPast(log, next, PositionOf(positions, tp)) && NoneBelow(log, 0)
    ensures IsPast(log, next, PositionOf(Raise(positions, reported), tp))
  {
  }

  lemma {:induction false} AlignedIsAlert(env: Env, w: Flow, f: Fetch)
    requires Sane(env) && Legal(env, w, f) && AllPast(env.log, w.aligner, w.next)
    ensures KnowsReached(AlignedBy(env, w, f)) && AllPast(env.log, AlignedBy(env, w, f), w.next)
  {
    var refreshed := Refresh(w.aligner, env.assignment, f.cuts);
    RefreshKnows(w.aligner, env.assignment, f.cuts);
    if f.reported.Some? && refreshed.pending.Some? {
      var raised := refreshed.(positions := Raise(refreshed.positions, f.reported.value));
      RealignKnows(raised);
      forall tp | tp in env.log ensures IsPast(env.log[tp], w.next[tp], PositionOf(raised.positions, tp)) {
        RaisedIsPast(env.log[tp], w.next[tp], refreshed.positions, f.reported.value, tp);
      }
    }
  }

  /** Taking in what follows moves the position past it. */
  lemma {:induction false} TakeInIsPast(log: seq<Record>, a: Aligner, polled: Polled, tp: TopicPartition, next: nat, delivered: seq<Record>, count: nat)
    requires next + count <= |log| && RecordsOf(polled, tp) == log[next..next + count]
    requires Tracks(log, next, delivered, RecordsOf(a.held, tp), PositionOf(a.positions, tp)) && IsPast(log, next, PositionOf(a.positions, tp))
    ensures IsPast(log, next + count, PositionOf(TakeIn(a, polled).aligner.positions, tp))
  {
    var merged := RecordsOf(a.held, tp) + RecordsOf(polled, tp);
    TakeInMoves(a, polled, tp);
    if merged != [] {
      MergedContinues(log, next, delivered, RecordsOf(a.held, tp), count);
      assert merged[|merged| - 1] == (delivered + merged)[next + count - 1] == log[next + count - 1];
    } else {
      assert count == 0;
    }
  }

  lemma {:induction false} AcceptedKnows(a: Aligner, merged: Polled, tp: TopicPartition)
    requires a.held == map[] && AllPresent(merged) && tp in a.aligned && (PositionOf(a.positions, tp) >= a.aligned[tp] ==> tp in a.reached)
    requires PositionOf(AcceptAll(a, merged).positions, tp) >= a.aligned[tp]
    ensures tp in AcceptAll(a, merged).reached
  {
    AcceptedAt(a, merged, tp);
    if tp in merged {
      assert PositionAfter(a, tp, merged[tp]) >= a.aligned[tp];
    } else {
      assert RecordsOf(merged, tp) == [];
    }
  }

  lemma {:induction false} TakeInKnows(a: Aligner, polled: Polled)
    requires KnowsReached(a)
    ensures KnowsReached(TakeIn(a, polled).aligner)
  {
    var merged, emptied, b := Present(Merge(a.held, polled)), a.(held := map[]), TakeIn(a, polled).aligner;
    TakeInFrame(a, polled);
    if a.pending.Some? {
      forall tp | tp in a.aligned && PositionOf(b.positions, tp) >= a.aligned[tp] ensures tp in b.reached {
        AcceptedKnows(emptied, merged, tp);
      }
    }
  }

  lemma {:induction false} IntakeIsAlert(env: Env, w: Flow, f: Fetch)
    requires Sane(env) && Legal(env, w, f) && Aligns(env, w.aligner) && Tracked(env.log, w.aligner, w.next, w.delivered)
    requires AllPast(env.log, w.aligner, w.next)
    ensures KnowsReached(IntakeBy(env, w, f).aligner) && AllPast(env.log, IntakeBy(env, w, f).aligner, NextAfter(w.next, f.counts))
  {
    AlignedByKeeps(env, w, f);
    AlignedIsAlert(env, w, f);
    PolledIsFetched(env, w, f);
    TakenInIsAlert(env.log, AlignedBy(env, w, f), PolledBy(env, w, f), w.next, f.counts, w.delivered, IntakeBy(env, w, f));
  }

  lemma {:induction false} PolledIsFetched(env: Env, w: Flow, f: Fetch)
    requires Legal(env, w, f)
    ensures Fetched(env.log, PolledBy(env, w, f), w.next, f.counts)
  {
  }

  lemma {:induction false} TakenInIsAlert(log: Polled, a: Aligner, polled: Polled, next: Counts, counts: Counts, delivered: Polled, i: Intake)
    requires Tracked(log, a, next, delivered) && Fetched(log, polled, next, counts) && AllPast(log, a, next) && KnowsReached(a)
    requires i == TakeIn(a, polled)
    ensures KnowsReached(i.aligner) && AllPast(log, i.aligner, NextAfter(next, counts))
  {
    TakeInKnows(a, polled);
    TakeInAllPast(log, a, polled, next, counts, delivered);
  }

  lemma {:induction false} TakeInAllPast(log: Polled, a: Aligner, polled: Polled, next: Counts, counts: Counts, delivered: Polled)
    requires Tracked(log, a, next, delivered) && Fetched(log, polled, next, counts) && AllPast(log, a, next)
    ensures AllPast(log, TakeIn(a, polled).aligner, NextAfter(next, counts))
  {
    forall tp | tp in log ensures IsPast(log[tp], NextAfter(next, counts)[tp], PositionOf(TakeIn(a, polled).aligner.positions, tp)) {
      TrackedAt(log, a, next, delivered, tp);
      FetchedAt(log, polled, next, counts, tp);
      NextAt(next, counts, tp);
      TakeInIsPast(log[tp], a, polled, tp, next[tp], delivered[tp], if tp in counts then counts[tp] else 0);
    }
  }

  lemma {:induction false} RoundIsAlert(env: Env, w: Flow, f: Fetch)
    requires Sane(env) && Flows(env, w) && Starts(env, w, f) && IsAlert(env, w)
    ensures IsAlert(env, Round(env, w, f))
  {
    var i, next := IntakeBy(env, w, f), NextAfter(w.next, f.counts);
    IntakeIsAlert(env, w, f);
    if Fired(i.aligner) {
      FinishIsAlert(env, i.aligner, BarrierOf(i.aligner, OffsetsOf(i.taken)), next);
    }
  }

  lemma {:induction false} FinishIsAlert(env: Env, a: Aligner, barrier: Barrier, next: Counts)
    requires Sane(env) && AllPast(env.log, a, next)
    ensures KnowsReached(Finish(a, barrier)) && AllPast(env.log, Finish(a, barrier), next)
  {
    forall tp | tp in env.log ensures IsPast(env.log[tp], next[tp], PositionOf(Finish(a, barrier).positions, tp)) {
      RaisedIsPast(env.log[tp], next[tp], a.positions, barrier.offsets, tp);
    }
  }

  lemma {:induction false} RestoredIsAlert(env: Env, w: Flow, left: Aligner, epoch: int)
    requires Sane(env) && epoch in env.cuts && env.log.Keys <= env.cuts[epoch].offsets.Keys
    ensures IsAlert(env, BarrierWorlds.RestoredFlow(env, w, left, epoch))
  {
  }

  /** Every run of rounds, failures and restores keeps the aligner alert. */
  lemma {:induction false} RunIsAlert<S, D>(env: Env, p: BarrierWorlds.Processors<S, D>, events: seq<BarrierWorlds.Event>)
    requires Sane(env) && BarrierWorlds.RunEvents(env, p, events).Some?
    ensures IsAlert(env, BarrierWorlds.RunEvents(env, p, events).value.flow)
  {
    if events != [] {
      var earlier := events[..|events| - 1];
      RunIsAlert(env, p, earlier);
      BarrierWorlds.RunInvariant(env, p, earlier);
      StepIsAlert(env, p, BarrierWorlds.RunEvents(env, p, earlier).value, events[|events| - 1]);
    }
  }

  lemma {:induction false} StepIsAlert<S, D>(env: Env, p: BarrierWorlds.Processors<S, D>, w: BarrierWorlds.World<S, D>, e: BarrierWorlds.Event)
    requires Sane(env) && Flows(env, w.flow) && IsAlert(env, w.flow) && BarrierWorlds.StepEvent(env, p, w, e).Some?
    ensures IsAlert(env, BarrierWorlds.StepEvent(env, p, w, e).value.flow)
  {
    match e {
      case Succeeded(f) => RoundIsAlert(env, w.flow, f);
      case Failed(attempt, n, left, epoch) =>
        RestoredIsAlert(env, BarrierWorlds.FailedWorld(env, p, w, attempt, n).flow, left, epoch);
    }
  }

  /** A round has fetched a partition up to the pending cut: its last record lies at or
      next to the cut, or past it. */
  ghost predicate FetchedToCut(env: Env, w: Flow, f: Fetch, tp: TopicPartition)
    requires Legal(env, w, f) && tp in env.log && tp in IntakeBy(env, w, f).aligner.aligned
  {
    var next := NextAfter(w.next, f.counts)[tp];
    0 < next <= |env.log[tp]| && env.log[tp][next - 1].offset + 1 >= IntakeBy(env, w, f).aligner.aligned[tp]
  }

  lemma {:induction false} FiresExactly(env: Env, w: Flow, f: Fetch)
    requires Sane(env) && Flows(env, w) && Starts(env, w, f) && IsAlert(env, w)
    ensures var a := IntakeBy(env, w, f).aligner;
            && (Fired(a) <==> a.pending.Some? && forall tp :: tp in a.aligned ==> PositionOf(a.positions, tp) >= a.aligned[tp])
            && (a.pending.Some? ==> a.aligned.Keys == env.log.Keys)
            && (a.pending.Some? && (forall tp :: tp in env.log ==> FetchedToCut(env, w, f, tp)) ==> Fired(a))
  {
    var a := IntakeBy(env, w, f).aligner;
    RoundTookIn(env, w, f);
    TookInKeeps(env, AlignedBy(env, w, f), IntakeBy(env, w, f), NextAfter(w.next, f.counts), w.delivered);
    IntakeIsAlert(env, w, f);
    if a.pending.Some? && forall tp :: tp in env.log ==> FetchedToCut(env, w, f, tp) {
      forall tp | tp in a.aligned ensures PositionOf(a.positions, tp) >= a.aligned[tp] {
        assert FetchedToCut(env, w, f, tp);
      }
    }
  }

  /** After any run of rounds, failures and restores, the next round fires if and only if a
      cut is pending and every position has reached it; and it has reached it once the
      records before it have been fetched. */
  lemma {:induction false} BarrierFires<S, D>(env: Env, p: BarrierWorlds.Processors<S, D>, events: seq<BarrierWorlds.Event>, f: Fetch)
    requires Sane(env) && BarrierWorlds.RunEvents(env, p, events).Some?
    requires Starts(env, BarrierWorlds.RunEvents(env, p, events).value.flow, f)
    ensures var w := BarrierWorlds.RunEvents(env, p, events).value.flow;
            var a := IntakeBy(env, w, f).aligner;
            && (Fired(a) <==> a.pending.Some? && forall tp :: tp in a.aligned ==> PositionOf(a.positions, tp) >= a.aligned[tp])
            && (a.pending.Some? ==> a.aligned.Keys == env.log.Keys)
            && (a.pending.Some? && (forall tp :: tp in env.log ==> FetchedToCut(env, w, f, tp)) ==> Fired(a))
  {
    RunIsAlert(env, p, events);
    BarrierWorlds.RunInvariant(env, p, events);
    FiresExactly(env, BarrierWorlds.RunEvents(env, p, events).value.flow, f);
  }
}
