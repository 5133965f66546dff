/** The aligner of a group runner as it runs: one object whose fields each
    operation updates, proved against the steps of `Barriers`. */
module BarrierAligners {
  import opened Wrappers
  import opened Records
  import opened IntOrders
  import opened Barriers

  class BarrierAligner {
    var lastEpoch: int
    var pending: Option<Cut>
    var aligned: Offsets
    var reached: set<TopicPartition>
    var held: Polled
    var positions: Offsets
    var assignment: set<TopicPartition>

    ghost function Content(): Aligner
      reads this
    {
      Aligner(lastEpoch, pending, aligned, reached, held, positions, assignment)
    }

    constructor ()
      ensures Content() == NEW_ALIGNER
    {
      lastEpoch, pending, aligned, reached := -1, None, map[], {};
      held, positions, assignment := map[], map[], {};
    }

    predicate OwnsPartition(tp: TopicPartition)
      reads this
    {
      |assignment| == 0 || tp in assignment
    }

    /** `cuts` are the complete cuts above the last epoch, oldest first; they are
        asked for only when no cut is pending. */
    method RefreshWith(assigned_: set<TopicPartition>, cuts: seq<Cut>)
      modifies this
      ensures Content() == Refresh(old(Content()), assigned_, cuts)
    {
      assignment := assigned_;
      if pending.Some? {
        RealignNow();
        return;
      }
      if |cuts| == 0 { return; }
      BeginAt(cuts[0]);
    }

    method BeginAt(cut: Cut)
      modifies this
      ensures Content() == Begin(old(Content()), cut)
    {
      pending := Some(cut);
      reached := {};
      RealignNow();
    }

    method RealignNow()
      requires pending.Some?
      modifies this
      ensures Content() == Realign(old(Content()))
    {
      var now := CollectAligned(pending.value.offsets);
      DropUnaligned(now);
      ReachedOfAligned(old(reached), positions, now);
      aligned := now;
    }

    /** The owned partitions of a cut; those already at the cut count as reached. */
    method CollectAligned(offsets: Offsets) returns (now: Offsets)
      modifies `reached
      ensures now == OwnedPart(assignment, offsets) && reached == old(reached) + Passed(positions, now)
    {
      now := map[];
      var rest := offsets.Keys;
      while rest != {}
        invariant rest <= offsets.Keys
        invariant reached == old(reached) + Passed(positions, now)
        invariant now == OwnedPart(assignment, offsets - rest)
        decreases |rest|
      {
        var tp :| tp in rest;
        AlignNext(assignment, positions, offsets, rest, tp);
        rest := rest - {tp};
        if !OwnsPartition(tp) { continue; }
        now := now[tp := offsets[tp]];
        if PositionOf(positions, tp) >= offsets[tp] {
          reached := reached + {tp};
        }
      }
      assert offsets - {} == offsets;
    }

    /** Forgets what was reached or is held for partitions the runner has lost. */
    method DropUnaligned(now: Offsets)
      modifies `reached, `held
      ensures reached == set tp | tp in now && tp in old(reached)
      ensures held == map tp | tp in old(held) && (tp in now || OwnsPartition(tp)) :: old(held)[tp]
    {
      var rest := reached;
      while rest != {}
        invariant rest <= old(reached) && held == old(held)
        invariant forall tp :: tp in reached <==> tp in old(reached) && (tp in rest || tp in now)
        decreases |rest|
      {
        var tp :| tp in rest;
        rest := rest - {tp};
        if tp !in now {
          reached := reached - {tp};
        }
      }
      var left := held.Keys;
      while left != {}
        invariant left <= old(held).Keys && reached == set tp | tp in now && tp in old(reached)
        invariant forall tp :: tp in held <==> tp in old(held) && (tp in left || tp in now || OwnsPartition(tp))
        invariant forall tp :: tp in held ==> held[tp] == old(held)[tp]
        decreases |left|
      {
        var tp :| tp in left;
        left := left - {tp};
        if tp !in now && !OwnsPartition(tp) {
          held := held - {tp};
        }
      }
    }

    method Observe(reported: Offsets)
      modifies this
      ensures Content() == ObservePositions(old(Content()), reported)
    {
      if pending.None? { return; }
      RaisePositions(reported);
      RealignNow();
    }

    method RaisePositions(reported: Offsets)
      modifies `positions
      ensures positions == Raise(old(positions), reported)
    {
      var rest := reported.Keys;
      while rest != {}
        invariant rest <= reported.Keys
        invariant positions == Raise(old(positions), reported - rest)
        decreases |rest|
      {
        var tp :| tp in rest;
        RaiseNext(old(positions), reported, rest, tp);
        rest := rest - {tp};
        positions := positions[tp := Max(PositionOf(positions, tp), reported[tp])];
      }
      assert reported - {} == reported;
    }

    /** The held records go in front of the fetched ones and are no longer held. */
    method MergeHeld(polled: Polled) returns (merged: Polled)
      modifies `held
      ensures merged == Merge(old(held), polled) && held == map[]
    {
      if |held| == 0 { return polled; }
      merged := held;
      var rest := polled.Keys;
      AppendNothing(held, polled);
      while rest != {}
        invariant rest <= polled.Keys && held == old(held)
        invariant merged == Append(held, polled - rest)
        decreases |rest|
      {
        var tp :| tp in rest;
        AppendNext(held, polled, rest, tp);
        rest := rest - {tp};
        merged := merged[tp := RecordsOf(merged, tp) + polled[tp]];
      }
      assert polled - {} == polled;
      held := map[];
    }

    /** Truncates the records of one partition at the cut and holds the rest. */
    method AcceptRecords(tp: TopicPartition, records: seq<Record>) returns (taken: seq<Record>)
      modifies this
      ensures (Content(), taken) == Accept(old(Content()), tp, records)
    {
      if |records| > 0 {
        positions := positions[tp := Max(PositionOf(positions, tp), records[|records| - 1].offset + 1)];
      }
      if tp !in aligned { return records; }
      var split := 0;
      while split < |records| && records[split].offset < aligned[tp]
        invariant split <= |records| && forall k :: 0 <= k < split ==> records[k].offset < aligned[tp]
      {
        split := split + 1;
      }
      SplitIsFirst(records, aligned[tp], split);
      if split < |records| {
        held := held[tp := RecordsOf(held, tp) + records[split..]];
      }
      if PositionOf(positions, tp) >= aligned[tp] {
        reached := reached + {tp};
      }
      taken := records[..split];
    }

    method HasFired() returns (fired: bool)
      ensures fired == Fired(Content())
    {
      if pending.None? { return false; }
      var rest := aligned.Keys;
      while rest != {}
        invariant rest <= aligned.Keys && forall tp :: tp in aligned && tp !in rest ==> tp in reached
        decreases |rest|
      {
        var tp :| tp in rest;
        rest := rest - {tp};
        if tp !in reached { return false; }
      }
      fired := true;
    }

    /** Raises the offsets of the aligned partitions to the cut and describes the
        barrier. */
    method Describe(offsets: Offsets) returns (raised: Offsets, barrier: Barrier)
      requires pending.Some?
      ensures raised == Raised(Content(), offsets) && barrier == BarrierOf(Content(), offsets)
    {
      var committed, logical;
      raised, committed, logical := RaiseAligned(offsets);
      barrier := Barrier(pending.value, SortedInts(logical), committed);
    }

    method RaiseAligned(offsets: Offsets) returns (raised: Offsets, committed: Offsets, logical: set<int>)
      ensures raised == RaiseTo(offsets, aligned)
      ensures committed == Committed(offsets, aligned)
      ensures logical == Logical(aligned)
    {
      raised, committed, logical := offsets, map[], {};
      var rest := aligned.Keys;
      RaiseNothing(offsets, aligned);
      while rest != {}
        invariant rest <= aligned.Keys
        invariant raised == RaiseTo(offsets, aligned - rest)
        invariant committed == Committed(offsets, aligned - rest)
        invariant logical == Logical(aligned - rest)
        decreases |rest|
      {
        var tp :| tp in rest;
        RaiseToNext(offsets, aligned, rest, tp);
        CommittedNext(offsets, aligned, rest, tp);
        LogicalNext(aligned, rest, tp);
        rest := rest - {tp};
        if tp !in raised || raised[tp] < aligned[tp] {
          raised := raised[tp := aligned[tp]];
        }
        committed := committed[tp := raised[tp]];
        logical := logical + {tp.partition};
      }
      assert aligned - {} == aligned;
    }

    method FinishBarrier(barrier: Barrier)
      modifies this
      ensures Content() == Finish(old(Content()), barrier)
    {
      lastEpoch := barrier.cut.epoch;
      pending, aligned, reached := None, map[], {};
      RaisePositions(barrier.offsets);
    }

    /** Puts the aligner at a cut the runner rewound to. */
    method RestoredTo(cut: Cut, targets: set<TopicPartition>)
      requires targets <= cut.offsets.Keys
      modifies this
      ensures Content() == Restored(old(Content()), cut, targets)
    {
      lastEpoch := cut.epoch;
      pending, aligned, reached, held := None, map[], {}, map[];
      var rest := targets;
      while rest != {}
        invariant rest <= targets
        invariant Content() == old(Content()).(lastEpoch := cut.epoch, pending := None, aligned := map[], reached := {},
                                               held := map[], positions := positions)
        invariant positions == Overwrite(old(positions), cut.offsets, targets - rest)
        decreases |rest|
      {
        var tp :| tp in rest;
        OverwriteNext(old(positions), cut.offsets, targets, rest, tp);
        rest := rest - {tp};
        positions := positions[tp := cut.offsets[tp]];
      }
      assert targets - {} == targets;
    }
  }

  // Each operation visits the entries of a map in no particular order; `m - rest`
  // are the entries already visited.

  lemma {:induction false} ReachedOfAligned(reached: set<TopicPartition>, positions: Offsets, now: Offsets)
    ensures (set tp | tp in now && tp in reached + Passed(positions, now))
            == set tp | tp in now && (tp in reached || PositionOf(positions, tp) >= now[tp])
  {
  }

  lemma {:induction false} AlignNext(assignment: set<TopicPartition>, positions: Offsets, offsets: Offsets, rest: set<TopicPartition>, tp: TopicPartition)
    requires tp in rest && tp in offsets
    ensures var owned := assignment == {} || tp in assignment;
            && OwnedPart(assignment, offsets - (rest - {tp}))
               == (if owned then OwnedPart(assignment, offsets - rest)[tp := offsets[tp]] else OwnedPart(assignment, offsets - rest))
            && Passed(positions, OwnedPart(assignment, offsets - (rest - {tp})))
               == Passed(positions, OwnedPart(assignment, offsets - rest))
                  + if owned && PositionOf(positions, tp) >= offsets[tp] then {tp} else {}
  {
  }

  lemma {:induction false} RaiseNext(positions: Offsets, reported: Offsets, rest: set<TopicPartition>, tp: TopicPartition)
    requires tp in rest && tp in reported
    ensures PositionOf(Raise(positions, reported - rest), tp) == PositionOf(positions, tp)
    ensures Raise(positions, reported - (rest - {tp}))
            == Raise(positions, reported - rest)[tp := Max(PositionOf(positions, tp), reported[tp])]
  {
  }

  lemma {:induction false} AppendNothing(held: Polled, polled: Polled)
    ensures Append(held, polled - polled.Keys) == held
  {
    assert forall tp :: tp in held ==> RecordsOf(held, tp) + RecordsOf(polled - polled.Keys, tp) == held[tp];
  }

  lemma {:induction false} AppendNext(held: Polled, polled: Polled, rest: set<TopicPartition>, tp: TopicPartition)
    requires tp in rest && tp in polled
    ensures RecordsOf(Append(held, polled - rest), tp) == RecordsOf(held, tp)
    ensures Append(held, polled - (rest - {tp})) == Append(held, polled - rest)[tp := RecordsOf(held, tp) + polled[tp]]
  {
    assert RecordsOf(held, tp) + RecordsOf(polled - rest, tp) == RecordsOf(held, tp);
    var a, b := Append(held, polled - (rest - {tp})), Append(held, polled - rest);
    assert forall k :: k != tp ==> (k in a <==> k in b);
    assert forall k :: k != tp && k in a ==> a[k] == b[k];
  }

  lemma {:induction false} RaiseNothing(offsets: Offsets, aligned: Offsets)
    ensures RaiseTo(offsets, aligned - aligned.Keys) == offsets
    ensures Committed(offsets, aligned - aligned.Keys) == map[]
    ensures Logical(aligned - aligned.Keys) == {}
  {
  }

  lemma {:induction false} RaiseToNext(offsets: Offsets, aligned: Offsets, rest: set<TopicPartition>, tp: TopicPartition)
    requires tp in rest && tp in aligned
    ensures var before := RaiseTo(offsets, aligned - rest);
            RaiseTo(offsets, aligned - (rest - {tp}))
            == if tp !in before || before[tp] < aligned[tp] then before[tp := aligned[tp]] else before
  {
  }

  lemma {:induction false} CommittedNext(offsets: Offsets, aligned: Offsets, rest: set<TopicPartition>, tp: TopicPartition)
    requires tp in rest && tp in aligned
    ensures tp in RaiseTo(offsets, aligned - (rest - {tp}))
    ensures Committed(offsets, aligned - (rest - {tp}))
            == Committed(offsets, aligned - rest)[tp := RaiseTo(offsets, aligned - (rest - {tp}))[tp]]
  {
    var a, b := Committed(offsets, aligned - (rest - {tp})), Committed(offsets, aligned - rest);
    assert forall k :: k != tp ==> (k in a <==> k in b);
    assert forall k :: k != tp && k in a ==> a[k] == b[k];
  }

  lemma {:induction false} LogicalNext(aligned: Offsets, rest: set<TopicPartition>, tp: TopicPartition)
    requires tp in rest && tp in aligned
    ensures Logical(aligned - (rest - {tp})) == Logical(aligned - rest) + {tp.partition}
  {
    assert tp in aligned - (rest - {tp});
  }

  lemma {:induction false} OverwriteNext(positions: Offsets, cut: Offsets, targets: set<TopicPartition>, rest: set<TopicPartition>, tp: TopicPartition)
    requires tp in rest && tp in targets && targets <= cut.Keys
    ensures Overwrite(positions, cut, targets - (rest - {tp})) == Overwrite(positions, cut, targets - rest)[tp := cut[tp]]
  {
  }

  lemma {:induction false} SplitIsFirst(records: seq<Record>, cut: int, i: nat)
    requires i <= |records| && (forall k :: 0 <= k < i ==> records[k].offset < cut)
    requires i < |records| ==> records[i].offset >= cut
    ensures Split(records, cut) == i
  {
  }
}
