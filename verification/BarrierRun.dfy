/** Whole runs of a barrier-aligned runner: rounds that succeed, and failures that
    are followed by a restore to a saved epoch. */
module BarrierRuns {
  import opened Wrappers
  import opened Records
  import opened Barriers

  // ------------------------------------------------------------ one partition

  predicate Ascending(log: seq<Record>) {
    forall i, j :: 0 <= i < j < |log| ==> log[i].offset < log[j].offset
  }

  predicate AllBelow(records: seq<Record>, cut: int) { forall i :: 0 <= i < |records| ==> records[i].offset < cut }

  predicate NoneBelow(records: seq<Record>, cut: int) { forall i :: 0 <= i < |records| ==> records[i].offset >= cut }

  /** The records of a log before a cut. */
  function Below(log: seq<Record>, cut: int): seq<Record> {
    if log == [] then []
    else Below(log[..|log| - 1], cut) + if log[|log| - 1].offset < cut then [log[|log| - 1]] else []
  }

  /** What was delivered and what is held make up what was fetched, in order, and
      no record that is still to come lies below the position. */
  predicate Tracks(log: seq<Record>, next: nat, delivered: seq<Record>, held: seq<Record>, position: int) {
    && next <= |log|
    && delivered + held == log[..next]
    && NoneBelow(log[next..], position)
  }

  lemma {:induction false} SplitRest(records: seq<Record>, cut: int)
    requires Ascending(records)
    ensures NoneBelow(records[Split(records, cut)..], cut) && AllBelow(records[..Split(records, cut)], cut)
  {
    var i := Split(records, cut);
    var rest := records[i..];
    forall k | 0 <= k < |rest| ensures rest[k].offset >= cut {
      assert rest[k] == records[i + k] && records[i].offset <= records[i + k].offset;
    }
  }

  /** What is held and fetched continues what was delivered. */
  lemma {:induction false} MergedContinues(log: seq<Record>, next: nat, delivered: seq<Record>, held: seq<Record>, count: nat)
    requires next + count <= |log| && delivered + held == log[..next]
    ensures delivered + (held + log[next..next + count]) == log[..next + count]
  {
    assert log[..next + count] == log[..next] + log[next..next + count];
  }

  lemma {:induction false} MergedAscends(log: seq<Record>, next: nat, delivered: seq<Record>, merged: seq<Record>)
    requires Ascending(log) && next <= |log| && delivered + merged == log[..next]
    ensures Ascending(merged)
  {
    forall i, j | 0 <= i < j < |merged| ensures merged[i].offset < merged[j].offset {
      assert merged[i] == (delivered + merged)[|delivered| + i] == log[|delivered| + i];
      assert merged[j] == (delivered + merged)[|delivered| + j] == log[|delivered| + j];
    }
  }

  /** Nothing to come lies below the last record fetched. */
  lemma {:induction false} RestIsLater(log: seq<Record>, next: nat, delivered: seq<Record>, merged: seq<Record>)
    requires Ascending(log) && next <= |log| && delivered + merged == log[..next] && merged != []
    ensures NoneBelow(log[next..], merged[|merged| - 1].offset + 1)
  {
    assert merged[|merged| - 1] == (delivered + merged)[next - 1] == log[next - 1];
  }

  /** Taking a part of what is held and fetched, and holding the rest. */
  lemma {:induction false} TakeTracks(log: seq<Record>, next: nat, delivered: seq<Record>, held: seq<Record>, position: int, count: nat, k: nat)
    requires Ascending(log) && Tracks(log, next, delivered, held, position) && next + count <= |log|
    requires k <= |held| + count
    ensures var merged := held + log[next..next + count];
            var position' := if merged == [] then position else Max(position, merged[|merged| - 1].offset + 1);
            && Tracks(log, next + count, delivered + merged[..k], merged[k..], position')
            && Ascending(merged)
  {
    var merged := held + log[next..next + count];
    MergedContinues(log, next, delivered, held, count);
    MergedAscends(log, next + count, delivered, merged);
    assert merged == merged[..k] + merged[k..];
    assert (delivered + merged[..k]) + merged[k..] == delivered + merged;
    assert log[next..][count..] == log[next + count..];
    if merged != [] { RestIsLater(log, next + count, delivered, merged); }
  }

  lemma {:induction false} BelowConcatenation(a: seq<Record>, b: seq<Record>, cut: int)
    ensures Below(a + b, cut) == Below(a, cut) + Below(b, cut)
  {
    if b == [] {
      assert a + b == a;
    } else {
      assert (a + b)[..|a + b| - 1] == a + b[..|b| - 1];
      BelowConcatenation(a, b[..|b| - 1], cut);
    }
  }

  lemma {:induction false} BelowNothing(records: seq<Record>, cut: int)
    requires NoneBelow(records, cut)
    ensures Below(records, cut) == []
  {
    if records != [] {
      BelowNothing(records[..|records| - 1], cut);
    }
  }

  lemma {:induction false} BelowAll(records: seq<Record>, cut: int)
    ensures |Below(records, cut)| <= |records| && AllBelow(Below(records, cut), cut)
    ensures AllBelow(records, cut) ==> Below(records, cut) == records
  {
    if records != [] {
      BelowAll(records[..|records| - 1], cut);
    }
  }

  /** Once the position of a partition has passed the cut and the rest is held, the
      delivered records are those below the cut exactly when none of them was
      delivered too early. */
  lemma {:induction false} ReachedIsExact(log: seq<Record>, next: nat, delivered: seq<Record>, held: seq<Record>, position: int, cut: int)
    requires Tracks(log, next, delivered, held, position) && NoneBelow(held, cut) && position >= cut
    ensures delivered == Below(log, cut) <==> AllBelow(delivered, cut)
  {
    assert log == log[..next] + log[next..];
    BelowConcatenation(log[..next], log[next..], cut);
    BelowConcatenation(delivered, held, cut);
    assert NoneBelow(log[next..], cut);
    BelowNothing(held, cut);
    BelowNothing(log[next..], cut);
    BelowAll(delivered, cut);
    assert Below(delivered, cut) + [] + [] == Below(delivered, cut);
  }

  /** The first index at or past a cut: where a seek to the cut fetches next. */
  lemma {:induction false} SeekTracks(log: seq<Record>, cut: int)
    requires Ascending(log)
    ensures Tracks(log, Split(log, cut), Below(log, cut), [], cut)
  {
    var n := Split(log, cut);
    SplitRest(log, cut);
    assert log == log[..n] + log[n..];
    BelowConcatenation(log[..n], log[n..], cut);
    BelowAll(log[..n], cut);
    BelowNothing(log[n..], cut);
    assert log[..n] + [] == log[..n];
  }

  // ------------------------------------------------------------------- worlds

  type Counts = map<TopicPartition, nat>

  function Extend(h: Polled, x: Polled): Polled {
    map tp | tp in h :: h[tp] + RecordsOf(x, tp)
  }

  /** The part of a history that one logical partition sees. */
  function Part(h: Polled, q: int): Polled {
    map tp | tp in h && tp.partition == q :: h[tp]
  }

  /** The log of every partition the runner consumes, its assignment, and the cuts
      of the barrier group by epoch. */
  datatype Env = Env(log: Polled, assignment: set<TopicPartition>, cuts: map<int, Cut>)

  /** Offsets ascend, and every complete cut covers exactly the partitions the
      runner consumes. */
  ghost predicate Sane(env: Env) {
    && (forall tp :: tp in env.log ==> Ascending(env.log[tp]) && NoneBelow(env.log[tp], 0))
    && (forall e :: e in env.cuts ==> env.cuts[e].epoch == e && (env.cuts[e].complete ==> Targets(env.assignment, env.cuts[e]) == env.log.Keys))
  }

  /** How far the runner is: what the aligner holds, what the consumer fetches next,
      what the processors have taken in, and what is committed. */
  datatype Flow = Flow(aligner: Aligner, next: Counts, delivered: Polled, committed: Offsets)

  function Start(env: Env): Flow {
    Flow(NEW_ALIGNER, map tp | tp in env.log :: 0, map tp | tp in env.log :: [], map[])
  }

  // -------------------------------------------------------------------- rounds

  /** What a round gets from outside: the cuts the reader offers, the positions the
      consumer reports, and how many records it fetches from each partition. */
  datatype Fetch = Fetch(cuts: seq<Cut>, reported: Option<Offsets>, counts: Counts)

  function AlignedBy(env: Env, w: Flow, f: Fetch): Aligner {
    Prepare(w.aligner, env.assignment, f.cuts, f.reported)
  }

  function PolledBy(env: Env, w: Flow, f: Fetch): Polled
    requires Legal(env, w, f)
  {
    map tp | tp in f.counts :: env.log[tp][w.next[tp]..w.next[tp] + f.counts[tp]]
  }

  /** The consumer goes on where it stopped, and a position it reports has no
      record below it that is still to come. The reader offers complete cuts of
      the group above the last epoch. */
  ghost predicate Legal(env: Env, w: Flow, f: Fetch) {
    && w.next.Keys == env.log.Keys
    && (forall tp :: tp in f.counts ==> tp in env.log && w.next[tp] + f.counts[tp] <= |env.log[tp]|)
    && (f.reported.Some? ==> forall tp :: tp in f.reported.value && tp in env.log ==>
          w.next[tp] <= |env.log[tp]| && NoneBelow(env.log[tp][w.next[tp]..], f.reported.value[tp]))
    && (w.aligner.pending.None? && f.cuts != [] ==>
          && f.cuts[0].complete
          && f.cuts[0].epoch in env.cuts
          && env.cuts[f.cuts[0].epoch] == f.cuts[0]
          && f.cuts[0].epoch > w.aligner.lastEpoch)
  }

  function IntakeBy(env: Env, w: Flow, f: Fetch): Intake
    requires Legal(env, w, f)
  {
    TakeIn(AlignedBy(env, w, f), PolledBy(env, w, f))
  }

  function NextAfter(next: Counts, counts: Counts): Counts {
    map tp | tp in next :: next[tp] + if tp in counts then counts[tp] else 0
  }

  /** The end of a round that succeeds: a barrier that fired is committed and
      finished. */
  function Close(w: Flow, i: Intake, next: Counts): Flow {
    Flow(FinishedBy(i), next, Extend(w.delivered, i.taken), w.committed + CommittedBy(i))
  }

  /** A round that succeeds. */
  function Round(env: Env, w: Flow, f: Fetch): Flow
    requires Legal(env, w, f)
  {
    Close(w, IntakeBy(env, w, f), NextAfter(w.next, f.counts))
  }

  // ------------------------------------------------- what every round keeps

  /** Every partition is tracked: nothing fetched is lost, repeated or reordered. */
  ghost predicate Tracked(log: Polled, a: Aligner, next: Counts, delivered: Polled) {
    && next.Keys == log.Keys == delivered.Keys
    && a.held.Keys <= log.Keys
    && forall tp :: tp in log ==>
         Tracks(log[tp], next[tp], delivered[tp], RecordsOf(a.held, tp), PositionOf(a.positions, tp))
  }

  /** The aligner waits for the partitions of a cut of the group, or for nothing. */
  ghost predicate Aligns(env: Env, a: Aligner) {
    match a.pending
    case None => a.aligned == map[] && a.reached == {}
    case Some(cut) =>
      && cut.complete
      && cut.epoch in env.cuts
      && env.cuts[cut.epoch] == cut
      && a.assignment == env.assignment
      && a.aligned == AlignedOf(a, cut)
      && a.aligned.Keys == env.log.Keys
      && forall tp :: tp in a.reached ==> tp in a.aligned && PositionOf(a.positions, tp) >= a.aligned[tp]
  }

  lemma {:induction false} AlignedIsScope(env: Env, a: Aligner, cut: Cut)
    requires Sane(env) && cut.complete && cut.epoch in env.cuts && env.cuts[cut.epoch] == cut
    requires a.assignment == env.assignment
    ensures AlignedOf(a, cut).Keys == env.log.Keys
  {
    assert AlignedOf(a, cut).Keys == Targets(env.assignment, cut);
  }

  lemma {:induction false} RealignKeeps(env: Env, a: Aligner, next: Counts, delivered: Polled)
    requires Sane(env) && Tracked(env.log, a, next, delivered)
    requires a.pending.Some? && a.assignment == env.assignment
    requires a.pending.value.complete && a.pending.value.epoch in env.cuts
    requires env.cuts[a.pending.value.epoch] == a.pending.value
    requires forall tp :: tp in a.reached && tp in a.pending.value.offsets ==>
                            PositionOf(a.positions, tp) >= a.pending.value.offsets[tp]
    ensures Tracked(env.log, Realign(a), next, delivered) && Aligns(env, Realign(a))
    ensures Realign(a).pending == a.pending && Realign(a).lastEpoch == a.lastEpoch
  {
    AlignedIsScope(env, a, a.pending.value);
    assert Realign(a).held == a.held;
  }

  lemma {:induction false} RaiseKeeps(env: Env, w: Flow, f: Fetch, a: Aligner)
    requires Legal(env, w, f) && f.reported.Some? && Tracked(env.log, a, w.next, w.delivered)
    ensures Tracked(env.log, a.(positions := Raise(a.positions, f.reported.value)), w.next, w.delivered)
    ensures forall tp :: PositionOf(Raise(a.positions, f.reported.value), tp) >= PositionOf(a.positions, tp)
                         || PositionOf(a.positions, tp) < 0
  {
  }

  lemma {:induction false} RefreshKeeps(env: Env, w: Flow, f: Fetch)
    requires Sane(env) && Legal(env, w, f) && Aligns(env, w.aligner) && Tracked(env.log, w.aligner, w.next, w.delivered)
    ensures var a := Refresh(w.aligner, env.assignment, f.cuts);
            && Aligns(env, a) && Tracked(env.log, a, w.next, w.delivered)
            && (w.aligner.pending.Some? ==> a.pending == w.aligner.pending)
            && (a.pending.Some? ==> a.assignment == env.assignment)
  {
    var now := w.aligner.(assignment := env.assignment);
    if w.aligner.pending.Some? {
      RealignKeeps(env, now, w.next, w.delivered);
    } else if f.cuts != [] {
      RealignKeeps(env, now.(pending := Some(f.cuts[0]), reached := {}), w.next, w.delivered);
    }
  }

  lemma {:induction false} ObserveKeeps(env: Env, w: Flow, f: Fetch, a: Aligner)
    requires Sane(env) && Legal(env, w, f) && f.reported.Some?
    requires Aligns(env, a) && Tracked(env.log, a, w.next, w.delivered)
    ensures var b := ObservePositions(a, f.reported.value);
            Aligns(env, b) && Tracked(env.log, b, w.next, w.delivered) && b.pending == a.pending
  {
    if a.pending.Some? {
      RaiseKeeps(env, w, f, a);
      RealignKeeps(env, a.(positions := Raise(a.positions, f.reported.value)), w.next, w.delivered);
    }
  }

  /** Taking up a cut and observing positions. */
  lemma {:induction false} AlignedByKeeps(env: Env, w: Flow, f: Fetch)
    requires Sane(env) && Legal(env, w, f) && Aligns(env, w.aligner) && Tracked(env.log, w.aligner, w.next, w.delivered)
    ensures Aligns(env, AlignedBy(env, w, f)) && Tracked(env.log, AlignedBy(env, w, f), w.next, w.delivered)
    ensures w.aligner.pending.Some? ==> AlignedBy(env, w, f).pending == w.aligner.pending
  {
    RefreshKeeps(env, w, f);
    if f.reported.Some? {
      ObserveKeeps(env, w, f, Refresh(w.aligner, env.assignment, f.cuts));
    }
  }

  // ---------------------------------------------------------- taking records in

  lemma {:induction false} MergedAt(held: Polled, polled: Polled, tp: TopicPartition)
    ensures RecordsOf(Present(Merge(held, polled)), tp) == RecordsOf(held, tp) + RecordsOf(polled, tp)
  {
  }

  lemma {:induction false} AcceptedAt(a: Aligner, merged: Polled, tp: TopicPartition)
    requires a.held == map[] && AllPresent(merged)
    ensures RecordsOf(AcceptAll(a, merged).held, tp) == Rest(a, tp, RecordsOf(merged, tp))
    ensures PositionOf(AcceptAll(a, merged).positions, tp) == PositionAfter(a, tp, RecordsOf(merged, tp))
    ensures RecordsOf(Accepted(a, merged), tp) == Taken(a, tp, RecordsOf(merged, tp))
  {
    assert Rest(a, tp, []) == [] && Taken(a, tp, []) == [];
  }

  /** What taking in a poll does to one partition. */
  ghost predicate TakesIn(a: Aligner, i: Intake, tp: TopicPartition, log: seq<Record>, next: nat, delivered: seq<Record>) {
    && Tracks(log, next, delivered + RecordsOf(i.taken, tp), RecordsOf(i.aligner.held, tp), PositionOf(i.aligner.positions, tp))
    && PositionOf(i.aligner.positions, tp) >= PositionOf(a.positions, tp)
    && (tp in a.aligned ==>
          && NoneBelow(RecordsOf(i.aligner.held, tp), a.aligned[tp])
          && AllBelow(RecordsOf(i.taken, tp), a.aligned[tp]))
  }

  lemma {:induction false} TakeInHolds(a: Aligner, polled: Polled, tp: TopicPartition)
    ensures RecordsOf(TakeIn(a, polled).aligner.held, tp) == Rest(a, tp, RecordsOf(a.held, tp) + RecordsOf(polled, tp))
  {
    var merged, emptied := Present(Merge(a.held, polled)), a.(held := map[]);
    MergedAt(a.held, polled, tp);
    AcceptedAt(emptied, merged, tp);
    assert Rest(emptied, tp, RecordsOf(merged, tp)) == Rest(a, tp, RecordsOf(merged, tp));
  }

  lemma {:induction false} TakeInMoves(a: Aligner, polled: Polled, tp: TopicPartition)
    ensures PositionOf(TakeIn(a, polled).aligner.positions, tp) == PositionAfter(a, tp, RecordsOf(a.held, tp) + RecordsOf(polled, tp))
  {
    var merged, emptied := Present(Merge(a.held, polled)), a.(held := map[]);
    MergedAt(a.held, polled, tp);
    AcceptedAt(emptied, merged, tp);
    assert PositionAfter(emptied, tp, RecordsOf(merged, tp)) == PositionAfter(a, tp, RecordsOf(merged, tp));
  }

  lemma {:induction false} TakeInTakes(a: Aligner, polled: Polled, tp: TopicPartition)
    ensures RecordsOf(TakeIn(a, polled).taken, tp) == Taken(a, tp, RecordsOf(a.held, tp) + RecordsOf(polled, tp))
  {
    var merged, emptied := Present(Merge(a.held, polled)), a.(held := map[]);
    MergedAt(a.held, polled, tp);
    AcceptedAt(emptied, merged, tp);
    assert Taken(emptied, tp, RecordsOf(merged, tp)) == Taken(a, tp, RecordsOf(merged, tp));
  }

  /** The split of a partition's records at the cut, if it is aligned. */
  lemma {:induction false} SplitTracks(a: Aligner, tp: TopicPartition, log: seq<Record>, next: nat, delivered: seq<Record>, held: seq<Record>, count: nat)
    requires Ascending(log) && next + count <= |log| && Tracks(log, next, delivered, held, PositionOf(a.positions, tp))
    ensures var records := held + log[next..next + count];
            && Tracks(log, next + count, delivered + Taken(a, tp, records), Rest(a, tp, records), PositionAfter(a, tp, records))
            && (tp in a.aligned ==>
                  NoneBelow(Rest(a, tp, records), a.aligned[tp]) && AllBelow(Taken(a, tp, records), a.aligned[tp]))
  {
    var records := held + log[next..next + count];
    var k := if tp in a.aligned then Split(records, a.aligned[tp]) else |records|;
    TakeTracks(log, next, delivered, held, PositionOf(a.positions, tp), count, k);
    if tp in a.aligned {
      SplitRest(records, a.aligned[tp]);
    } else {
      assert records[..k] == records && records[k..] == [];
    }
  }

  lemma {:induction false} TakeInAt(a: Aligner, polled: Polled, tp: TopicPartition, log: seq<Record>, next: nat, delivered: seq<Record>, count: nat)
    requires Ascending(log) && next + count <= |log| && RecordsOf(polled, tp) == log[next..next + count]
    requires Tracks(log, next, delivered, RecordsOf(a.held, tp), PositionOf(a.positions, tp))
    ensures TakesIn(a, TakeIn(a, polled), tp, log, next + count, delivered)
  {
    TakeInHolds(a, polled, tp);
    TakeInMoves(a, polled, tp);
    TakeInTakes(a, polled, tp);
    SplitTracks(a, tp, log, next, delivered, RecordsOf(a.held, tp), count);
  }

  lemma {:induction false} TakeInScope(a: Aligner, polled: Polled, scope: set<TopicPartition>)
    requires a.held.Keys <= scope && polled.Keys <= scope
    ensures TakeIn(a, polled).aligner.held.Keys <= scope && TakeIn(a, polled).taken.Keys <= scope
  {
  }

  lemma {:induction false} TakeInReaches(a: Aligner, polled: Polled, tp: TopicPartition)
    ensures var b := TakeIn(a, polled).aligner;
            tp in b.reached && tp !in a.reached ==> tp in a.aligned && PositionOf(b.positions, tp) >= a.aligned[tp]
  {
    var merged, emptied := Present(Merge(a.held, polled)), a.(held := map[]);
    AcceptedAt(emptied, merged, tp);
  }

  /** Every partition of the scope was taken in as it should be. */
  ghost predicate TookIn(log: Polled, a: Aligner, i: Intake, next: Counts, delivered: Polled) {
    && next.Keys == log.Keys == delivered.Keys
    && i.aligner.held.Keys <= log.Keys
    && i.taken.Keys <= log.Keys
    && i.aligner == a.(positions := i.aligner.positions, held := i.aligner.held, reached := i.aligner.reached)
    && (forall tp :: tp in log ==> TakesIn(a, i, tp, log[tp], next[tp], delivered[tp]))
    && (forall tp :: tp in i.aligner.reached && tp !in a.reached ==>
                       tp in a.aligned && PositionOf(i.aligner.positions, tp) >= a.aligned[tp])
  }

  /** The polled records are the next ones of each log. */
  ghost predicate Fetched(log: Polled, polled: Polled, next: Counts, counts: Counts) {
    && next.Keys == log.Keys
    && polled.Keys == counts.Keys
    && (forall tp :: tp in counts ==> tp in log && next[tp] + counts[tp] <= |log[tp]|)
    && forall tp :: tp in polled ==> polled[tp] == log[tp][next[tp]..next[tp] + counts[tp]]
  }

  lemma {:induction false} TakeInEach(log: Polled, a: Aligner, polled: Polled, next: Counts, counts: Counts, delivered: Polled, tp: TopicPartition)
    requires Tracked(log, a, next, delivered) && Fetched(log, polled, next, counts) && tp in log && Ascending(log[tp])
    ensures TakesIn(a, TakeIn(a, polled), tp, log[tp], NextAfter(next, counts)[tp], delivered[tp])
  {
    var count := if tp in counts then counts[tp] else 0;
    TrackedAt(log, a, next, delivered, tp);
    FetchedAt(log, polled, next, counts, tp);
    NextAt(next, counts, tp);
    TakeInAt(a, polled, tp, log[tp], next[tp], delivered[tp], count);
  }

  lemma {:induction false} TrackedAt(log: Polled, a: Aligner, next: Counts, delivered: Polled, tp: TopicPartition)
    requires Tracked(log, a, next, delivered) && tp in log
    ensures tp in next && tp in delivered
    ensures Tracks(log[tp], next[tp], delivered[tp], RecordsOf(a.held, tp), PositionOf(a.positions, tp))
  {
  }

  lemma {:induction false} NextAt(next: Counts, counts: Counts, tp: TopicPartition)
    requires tp in next
    ensures NextAfter(next, counts)[tp] == next[tp] + if tp in counts then counts[tp] else 0
  {
  }

  lemma {:induction false} FetchedAt(log: Polled, polled: Polled, next: Counts, counts: Counts, tp: TopicPartition)
    requires Fetched(log, polled, next, counts) && tp in log && next[tp] <= |log[tp]|
    ensures var count := if tp in counts then counts[tp] else 0;
            next[tp] + count <= |log[tp]| && RecordsOf(polled, tp) == log[tp][next[tp]..next[tp] + count]
  {
  }

  lemma {:induction false} TakeInTakesIn(log: Polled, a: Aligner, polled: Polled, next: Counts, counts: Counts, delivered: Polled)
    requires Tracked(log, a, next, delivered) && Fetched(log, polled, next, counts)
    requires forall tp :: tp in log ==> Ascending(log[tp])
    ensures TookIn(log, a, TakeIn(a, polled), NextAfter(next, counts), delivered)
  {
    TookInFrom(log, a, polled, TakeIn(a, polled), next, counts, delivered);
  }

  lemma {:induction false} TookInFrom(log: Polled, a: Aligner, polled: Polled, i: Intake, next: Counts, counts: Counts, delivered: Polled)
    requires Tracked(log, a, next, delivered) && Fetched(log, polled, next, counts)
    requires forall tp :: tp in log ==> Ascending(log[tp])
    requires i == TakeIn(a, polled)
    ensures TookIn(log, a, i, NextAfter(next, counts), delivered)
  {
    TakeInScope(a, polled, log.Keys);
    TakeInFrame(a, polled);
    forall tp | tp in log ensures TakesIn(a, i, tp, log[tp], NextAfter(next, counts)[tp], delivered[tp]) {
      TakeInEach(log, a, polled, next, counts, delivered, tp);
    }
    forall tp | tp in i.aligner.reached && tp !in a.reached
      ensures tp in a.aligned && PositionOf(i.aligner.positions, tp) >= a.aligned[tp]
    {
      TakeInReaches(a, polled, tp);
    }
  }

  lemma {:induction false} TakeInFrame(a: Aligner, polled: Polled)
    ensures var b := TakeIn(a, polled).aligner;
            b == a.(positions := b.positions, held := b.held, reached := b.reached)
  {
  }

  // ---------------------------------------------------------- closing a round

  lemma {:induction false} TookInKeeps(env: Env, a: Aligner, i: Intake, next: Counts, delivered: Polled)
    requires Sane(env) && Aligns(env, a) && TookIn(env.log, a, i, next, delivered)
    ensures Tracked(env.log, i.aligner, next, Extend(delivered, i.taken)) && Aligns(env, i.aligner)
  {
    var after := Extend(delivered, i.taken);
    forall tp | tp in env.log
      ensures Tracks(env.log[tp], next[tp], after[tp], RecordsOf(i.aligner.held, tp), PositionOf(i.aligner.positions, tp))
    {
      assert TakesIn(a, i, tp, env.log[tp], next[tp], delivered[tp]);
    }
    forall tp | tp in i.aligner.reached
      ensures tp in a.aligned && PositionOf(i.aligner.positions, tp) >= a.aligned[tp]
    {
      if tp in a.reached {
        assert TakesIn(a, i, tp, env.log[tp], next[tp], delivered[tp]);
      }
    }
  }

  lemma {:induction false} TookInBelow(env: Env, a: Aligner, i: Intake, next: Counts, delivered: Polled)
    requires Aligns(env, a) && TookIn(env.log, a, i, next, delivered) && AllPresent(i.taken)
    ensures TakesBelow(i.aligner.aligned, i.taken)
  {
    forall tp | tp in a.aligned && tp in i.taken
      ensures i.taken[tp] != [] && i.taken[tp][|i.taken[tp]| - 1].offset < a.aligned[tp]
    {
      assert TakesIn(a, i, tp, env.log[tp], next[tp], delivered[tp]);
      assert RecordsOf(i.taken, tp) == i.taken[tp];
    }
  }

  lemma {:induction false} FinishKeeps(env: Env, a: Aligner, barrier: Barrier, next: Counts, delivered: Polled)
    requires Tracked(env.log, a, next, delivered) && Aligns(env, a) && Fired(a) && barrier.offsets == a.aligned
    ensures Tracked(env.log, Finish(a, barrier), next, delivered) && Aligns(env, Finish(a, barrier))
  {
    forall tp | tp in env.log ensures PositionOf(Finish(a, barrier).positions, tp) == PositionOf(a.positions, tp) {
      assert tp in a.reached;
    }
  }

  lemma {:induction false} CloseKeeps(env: Env, w: Flow, a: Aligner, i: Intake, next: Counts)
    requires Sane(env) && Aligns(env, a) && TookIn(env.log, a, i, next, w.delivered) && AllPresent(i.taken)
    ensures var w' := Close(w, i, next);
            Aligns(env, w'.aligner) && Tracked(env.log, w'.aligner, w'.next, w'.delivered)
  {
    TookInKeeps(env, a, i, next, w.delivered);
    if Fired(i.aligner) {
      TookInBelow(env, a, i, next, w.delivered);
      RaisedIsTheCut(i.aligner, i.taken);
      FinishKeeps(env, i.aligner, BarrierOf(i.aligner, OffsetsOf(i.taken)), next, Extend(w.delivered, i.taken));
    }
  }

  lemma {:induction false} AllBelowConcatenation(a: seq<Record>, b: seq<Record>, cut: int)
    requires AllBelow(b, cut)
    ensures AllBelow(a + b, cut) <==> AllBelow(a, cut)
  {
    if AllBelow(a + b, cut) {
      assert forall i :: 0 <= i < |a| ==> (a + b)[i] == a[i];
    }
  }

  /** Delivering what was taken in does not change whether a cut is late. */
  lemma {:induction false} LatenessIsFixed(env: Env, a: Aligner, i: Intake, next: Counts, delivered: Polled, tp: TopicPartition)
    requires Aligns(env, a) && a.pending.Some? && TookIn(env.log, a, i, next, delivered) && tp in env.log
    ensures AllBelow(Extend(delivered, i.taken)[tp], a.aligned[tp]) <==> AllBelow(delivered[tp], a.aligned[tp])
  {
    assert TakesIn(a, i, tp, env.log[tp], next[tp], delivered[tp]);
    AllBelowConcatenation(delivered[tp], RecordsOf(i.taken, tp), a.aligned[tp]);
  }

  /** At a barrier the delivered records of a partition are those below the cut
      exactly when nothing at or past the cut had been delivered before. */
  lemma {:induction false} FiredIsExact(env: Env, a: Aligner, i: Intake, next: Counts, delivered: Polled, tp: TopicPartition)
    requires Sane(env) && Aligns(env, a) && TookIn(env.log, a, i, next, delivered) && tp in env.log && Fired(i.aligner)
    ensures Extend(delivered, i.taken)[tp] == Below(env.log[tp], a.aligned[tp]) <==> AllBelow(delivered[tp], a.aligned[tp])
  {
    TookInKeeps(env, a, i, next, delivered);
    LatenessIsFixed(env, a, i, next, delivered, tp);
    assert TakesIn(a, i, tp, env.log[tp], next[tp], delivered[tp]);
    assert tp in i.aligner.reached;
    ReachedIsExact(env.log[tp], next[tp], Extend(delivered, i.taken)[tp], RecordsOf(i.aligner.held, tp),
                   PositionOf(i.aligner.positions, tp), a.aligned[tp]);
  }

  /** The intake of a legal round. */
  lemma {:induction false} RoundTookIn(env: Env, w: Flow, f: Fetch)
    requires Sane(env) && Legal(env, w, f) && Aligns(env, w.aligner) && Tracked(env.log, w.aligner, w.next, w.delivered)
    ensures Aligns(env, AlignedBy(env, w, f))
    ensures TookIn(env.log, AlignedBy(env, w, f), IntakeBy(env, w, f), NextAfter(w.next, f.counts), w.delivered)
    ensures AllPresent(IntakeBy(env, w, f).taken)
  {
    AlignedByKeeps(env, w, f);
    TakeInTakesIn(env.log, AlignedBy(env, w, f), PolledBy(env, w, f), w.next, f.counts, w.delivered);
  }

  lemma {:induction false} RoundKeeps(env: Env, w: Flow, f: Fetch)
    requires Sane(env) && Legal(env, w, f) && Aligns(env, w.aligner) && Tracked(env.log, w.aligner, w.next, w.delivered)
    ensures var w' := Round(env, w, f); Aligns(env, w'.aligner) && Tracked(env.log, w'.aligner, w'.next, w'.delivered)
  {
    RoundTookIn(env, w, f);
    CloseKeeps(env, w, AlignedBy(env, w, f), IntakeBy(env, w, f), NextAfter(w.next, f.counts));
  }

  // ------------------------------------------------------------- cuts on time

  /** Every log cut off at the offset of its marker. */
  function BelowCut(log: Polled, cut: Offsets): Polled {
    map tp | tp in log && tp in cut :: Below(log[tp], cut[tp])
  }

  /** Nothing at or past a pending cut has been delivered. */
  ghost predicate OnTime(a: Aligner, delivered: Polled) {
    forall tp :: tp in a.aligned && tp in delivered ==> AllBelow(delivered[tp], a.aligned[tp])
  }

  /** What every run of rounds whose cuts are on time keeps. */
  ghost predicate Flows(env: Env, w: Flow) {
    && Aligns(env, w.aligner)
    && Tracked(env.log, w.aligner, w.next, w.delivered)
    && OnTime(w.aligner, w.delivered)
  }

  /** A round starts legally, and a cut it takes up is not late. */
  ghost predicate Starts(env: Env, w: Flow, f: Fetch) {
    Legal(env, w, f) && (w.aligner.pending.None? ==> OnTime(AlignedBy(env, w, f), w.delivered))
  }

  lemma {:induction false} OnTimeKept(env: Env, a: Aligner, i: Intake, next: Counts, delivered: Polled)
    requires Aligns(env, a) && TookIn(env.log, a, i, next, delivered) && OnTime(a, delivered)
    ensures OnTime(i.aligner, Extend(delivered, i.taken))
  {
    forall tp | tp in i.aligner.aligned && tp in Extend(delivered, i.taken)
      ensures AllBelow(Extend(delivered, i.taken)[tp], i.aligner.aligned[tp])
    {
      LatenessIsFixed(env, a, i, next, delivered, tp);
    }
  }

  lemma {:induction false} FiredDeliversTheCut(env: Env, a: Aligner, i: Intake, next: Counts, delivered: Polled)
    requires Sane(env) && Aligns(env, a) && TookIn(env.log, a, i, next, delivered) && OnTime(a, delivered)
    requires Fired(i.aligner)
    ensures Extend(delivered, i.taken) == BelowCut(env.log, a.pending.value.offsets)
  {
    AlignedIsTheCut(env, a);
    forall tp | tp in env.log ensures Extend(delivered, i.taken)[tp] == Below(env.log[tp], a.aligned[tp]) {
      FiredIsExact(env, a, i, next, delivered, tp);
    }
    DeliveredIsBelowCut(env.log, a.pending.value.offsets, Extend(delivered, i.taken));
  }

  lemma {:induction false} DeliveredIsBelowCut(log: Polled, cut: Offsets, delivered: Polled)
    requires delivered.Keys == log.Keys && log.Keys <= cut.Keys
    requires forall tp :: tp in log ==> delivered[tp] == Below(log[tp], cut[tp])
    ensures delivered == BelowCut(log, cut)
  {
  }

  lemma {:induction false} AlignedIsTheCut(env: Env, a: Aligner)
    requires Aligns(env, a) && a.pending.Some?
    ensures env.log.Keys <= a.pending.value.offsets.Keys
    ensures forall tp :: tp in env.log ==> tp in a.aligned && a.aligned[tp] == a.pending.value.offsets[tp]
  {
  }

  lemma {:induction false} FireCommits(env: Env, a: Aligner, taken: Polled, committed: Offsets)
    requires Aligns(env, a) && a.pending.Some? && TakesBelow(a.aligned, taken)
    ensures var cut, now := a.pending.value.offsets, committed + Raised(a, OffsetsOf(taken));
            && env.log.Keys <= cut.Keys
            && forall tp :: tp in env.log ==> tp in now && now[tp] == cut[tp]
  {
    AlignedIsTheCut(env, a);
    RaisedIsTheCut(a, taken);
  }

  lemma {:induction false} RestoredTracks(env: Env, left: Aligner, cut: Cut)
    requires Sane(env) && env.log.Keys <= cut.offsets.Keys
    ensures Tracked(env.log, Restored(left, cut, env.log.Keys), map tp | tp in env.log :: Split(env.log[tp], cut.offsets[tp]),
                    BelowCut(env.log, cut.offsets))
  {
    var a, next := Restored(left, cut, env.log.Keys), map tp | tp in env.log :: Split(env.log[tp], cut.offsets[tp]);
    var delivered := BelowCut(env.log, cut.offsets);
    assert next.Keys == env.log.Keys == delivered.Keys;
    forall tp | tp in env.log
      ensures Tracks(env.log[tp], next[tp], delivered[tp], RecordsOf(a.held, tp), PositionOf(a.positions, tp))
    {
      SeekTracks(env.log[tp], cut.offsets[tp]);
      assert RecordsOf(a.held, tp) == [] && PositionOf(a.positions, tp) == cut.offsets[tp];
    }
  }

  lemma {:induction false} StartIsOnTime(env: Env, w: Flow, f: Fetch)
    requires Sane(env) && Flows(env, w) && Starts(env, w, f)
    ensures OnTime(AlignedBy(env, w, f), w.delivered)
  {
    AlignedByKeeps(env, w, f);
    var a := AlignedBy(env, w, f);
    if w.aligner.pending.Some? {
      forall tp | tp in a.aligned && tp in w.delivered ensures AllBelow(w.delivered[tp], a.aligned[tp]) {
        assert tp in w.aligner.aligned && w.aligner.aligned[tp] == a.aligned[tp];
      }
    }
  }

  lemma {:induction false} RoundFlows(env: Env, w: Flow, f: Fetch)
    requires Sane(env) && Flows(env, w) && Starts(env, w, f)
    ensures Flows(env, Round(env, w, f))
  {
    RoundKeeps(env, w, f);
    RoundTookIn(env, w, f);
    StartIsOnTime(env, w, f);
    OnTimeKept(env, AlignedBy(env, w, f), IntakeBy(env, w, f), NextAfter(w.next, f.counts), w.delivered);
  }

  lemma {:induction false} StartFlows(env: Env)
    requires Sane(env)
    ensures Flows(env, Start(env))
  {
    forall tp | tp in env.log ensures Tracks(env.log[tp], 0, [], [], 0) {
      assert env.log[tp][0..] == env.log[tp];
    }
  }

  /** A round that fires has delivered exactly the records below the cut and
      committed the cut. */
  lemma {:induction false} RoundFires(env: Env, w: Flow, f: Fetch)
    requires Sane(env) && Flows(env, w) && Starts(env, w, f) && Fired(IntakeBy(env, w, f).aligner)
    ensures var cut, w' := IntakeBy(env, w, f).aligner.pending.value, Round(env, w, f);
            && cut.complete && cut.epoch in env.cuts && env.cuts[cut.epoch] == cut
            && env.log.Keys <= cut.offsets.Keys
            && w'.delivered == BelowCut(env.log, cut.offsets)
            && (forall tp :: tp in env.log ==> tp in w'.committed && w'.committed[tp] == cut.offsets[tp])
            && w'.aligner.lastEpoch == cut.epoch && w'.aligner.pending.None?
  {
    var a, i, next := AlignedBy(env, w, f), IntakeBy(env, w, f), NextAfter(w.next, f.counts);
    RoundTookIn(env, w, f);
    StartIsOnTime(env, w, f);
    TookInKeeps(env, a, i, next, w.delivered);
    FiredDeliversTheCut(env, a, i, next, w.delivered);
    TookInBelow(env, a, i, next, w.delivered);
    FireCommits(env, i.aligner, i.taken, w.committed);
  }

  lemma {:induction false} DeliveredIsPrefix(log: seq<Record>, next: nat, delivered: seq<Record>, held: seq<Record>, position: int)
    requires Tracks(log, next, delivered, held, position)
    ensures |delivered| <= |log| && delivered == log[..|delivered|]
  {
    assert delivered == (delivered + held)[..|delivered|] == log[..next][..|delivered|];
  }

  // ------------------------------------------------------- commits that rewind

  /** Rounds one after the other, with cuts on time or late. */
  ghost function RunRounds(env: Env, rounds: seq<Fetch>): Option<Flow> {
    if rounds == [] then Some(Start(env))
    else
      match RunRounds(env, rounds[..|rounds| - 1])
      case None => None
      case Some(w) =>
        if Legal(env, w, rounds[|rounds| - 1]) then Some(Round(env, w, rounds[|rounds| - 1])) else None
  }

  /** No record that is still to be delivered lies below the committed offset. */
  ghost predicate CommitsBelowRest(log: Polled, w: Flow) {
    forall tp :: tp in log && tp in w.committed && tp in w.delivered && |w.delivered[tp]| <= |log[tp]| ==>
                   NoneBelow(log[tp][|w.delivered[tp]|..], w.committed[tp])
  }

  /** The offset a partition is committed at after a round. */
  function CommitAfter(i: Intake, before: int, tp: TopicPartition): int {
    if Fired(i.aligner) && tp in i.aligner.aligned then i.aligner.aligned[tp]
    else if tp in i.taken && i.taken[tp] != [] then i.taken[tp][|i.taken[tp]| - 1].offset + 1
    else before
  }

  lemma {:induction false} CommitIs(i: Intake, committed: Offsets, tp: TopicPartition)
    requires AllPresent(i.taken) && (Fired(i.aligner) ==> TakesBelow(i.aligner.aligned, i.taken))
    ensures tp in committed ==>
              tp in committed + CommittedBy(i) && (committed + CommittedBy(i))[tp] == CommitAfter(i, committed[tp], tp)
    ensures tp !in committed && tp in CommittedBy(i) ==>
              (committed + CommittedBy(i))[tp] == CommitAfter(i, 0, tp) && (Fired(i.aligner) || tp in i.taken)
  {
    if Fired(i.aligner) { RaisedIsTheCut(i.aligner, i.taken); }
  }

  /** A round rewinds the commit of a partition. */
  ghost predicate Rewinds(env: Env, w: Flow, f: Fetch, tp: TopicPartition)
    requires Legal(env, w, f)
  {
    tp in w.committed && tp in Round(env, w, f).committed && Round(env, w, f).committed[tp] < w.committed[tp]
  }

  /** A round fires a barrier whose cut lies below what is committed. */
  ghost predicate FiresLate(env: Env, w: Flow, f: Fetch, tp: TopicPartition)
    requires Legal(env, w, f)
  {
    var a := IntakeBy(env, w, f).aligner;
    Fired(a) && tp in a.aligned && tp in w.committed && a.aligned[tp] < w.committed[tp]
  }

  /** A round without a barrier takes in a record below what is committed, as one
      after a restore does. */
  ghost predicate ReplaysBelow(env: Env, w: Flow, f: Fetch, tp: TopicPartition)
    requires Legal(env, w, f)
  {
    var i := IntakeBy(env, w, f);
    var taken := RecordsOf(i.taken, tp);
    !Fired(i.aligner) && tp in w.committed && taken != [] && taken[|taken| - 1].offset + 1 < w.committed[tp]
  }

  /** What the offsets of an intake are committed from. */
  ghost predicate CommitsWell(env: Env, i: Intake) {
    AllPresent(i.taken) && (Fired(i.aligner) ==> TakesBelow(i.aligner.aligned, i.taken) && i.aligner.aligned.Keys == env.log.Keys)
  }

  lemma {:induction false} IntakeCommits(env: Env, a: Aligner, i: Intake, next: Counts, delivered: Polled)
    requires Sane(env) && Aligns(env, a) && TookIn(env.log, a, i, next, delivered) && AllPresent(i.taken)
    ensures CommitsWell(env, i)
  {
    if Fired(i.aligner) {
      TookInKeeps(env, a, i, next, delivered);
      TookInBelow(env, a, i, next, delivered);
    }
  }

  lemma {:induction false} RoundCommits(env: Env, w: Flow, f: Fetch)
    requires Sane(env) && Legal(env, w, f) && Aligns(env, w.aligner) && Tracked(env.log, w.aligner, w.next, w.delivered)
    ensures CommitsWell(env, IntakeBy(env, w, f))
    ensures Round(env, w, f).committed == w.committed + CommittedBy(IntakeBy(env, w, f))
  {
    RoundTookIn(env, w, f);
    IntakeCommits(env, AlignedBy(env, w, f), IntakeBy(env, w, f), NextAfter(w.next, f.counts), w.delivered);
  }

  lemma {:induction false} CommitMoves(env: Env, i: Intake, committed: Offsets, tp: TopicPartition)
    requires CommitsWell(env, i) && tp in env.log && tp in committed
    ensures tp in committed + CommittedBy(i)
    ensures (committed + CommittedBy(i))[tp] < committed[tp] <==>
              if Fired(i.aligner) then tp in i.aligner.aligned && i.aligner.aligned[tp] < committed[tp]
              else RecordsOf(i.taken, tp) != []
                   && RecordsOf(i.taken, tp)[|RecordsOf(i.taken, tp)| - 1].offset + 1 < committed[tp]
  {
    CommitIs(i, committed, tp);
  }

  /** Exactly when a round moves a committed offset back: at a barrier when its cut
      lies below it, and otherwise when the last record taken in does. */
  lemma {:induction false} CommitRewindsExactly(env: Env, w: Flow, f: Fetch, tp: TopicPartition)
    requires Sane(env) && Legal(env, w, f) && Aligns(env, w.aligner) && Tracked(env.log, w.aligner, w.next, w.delivered)
    requires tp in env.log
    ensures Rewinds(env, w, f, tp) <==> FiresLate(env, w, f, tp) || ReplaysBelow(env, w, f, tp)
  {
    RoundCommits(env, w, f);
    if tp in w.committed { CommitMoves(env, IntakeBy(env, w, f), w.committed, tp); }
  }

  /** The remaining records of a partition: those held, then those not yet fetched. */
  lemma {:induction false} RestIsHeld(log: seq<Record>, next: nat, delivered: seq<Record>, held: seq<Record>, position: int)
    requires Tracks(log, next, delivered, held, position)
    ensures |delivered| <= |log| && log[|delivered|..] == held + log[next..]
  {
    DeliveredIsPrefix(log, next, delivered, held, position);
    assert log[..next] == delivered + held;
    assert log == log[..next] + log[next..];
    assert log == delivered + (held + log[next..]);
  }

  /** Once a record is delivered, every later one lies past its offset. */
  lemma {:induction false} RestIsAbove(log: seq<Record>, n: nat)
    requires Ascending(log) && 0 < n <= |log|
    ensures NoneBelow(log[n..], log[n - 1].offset + 1)
  {
  }

  /** One partition after a round: no record to come lies below its commit. */
  lemma {:induction false} CommitAt(a: Aligner, i: Intake, tp: TopicPartition, log: seq<Record>, next: nat, before: seq<Record>, committed: int)
    requires Ascending(log) && TakesIn(a, i, tp, log, next, before) && i.aligner.aligned == a.aligned
    requires Fired(i.aligner) && tp in a.aligned ==> PositionOf(i.aligner.positions, tp) >= a.aligned[tp]
    requires |before| <= |log| && (committed >= 0 ==> NoneBelow(log[|before|..], committed)) && NoneBelow(log, 0)
    ensures var after := before + RecordsOf(i.taken, tp);
            |after| <= |log| && NoneBelow(log[|after|..], CommitAfter(i, committed, tp))
  {
    var after, held := before + RecordsOf(i.taken, tp), RecordsOf(i.aligner.held, tp);
    RestIsHeld(log, next, after, held, PositionOf(i.aligner.positions, tp));
    DeliveredIsPrefix(log, next, after, held, PositionOf(i.aligner.positions, tp));
    if Fired(i.aligner) && tp in a.aligned {
    } else if RecordsOf(i.taken, tp) != [] {
      RestIsAbove(log, |after|);
      assert after[|after| - 1] == log[|after| - 1] == i.taken[tp][|i.taken[tp]| - 1];
    } else {
      assert after == before;
    }
  }

  /** The records a round takes in of one partition lie at or above its commit. */
  lemma {:induction false} NextIsAbove(a: Aligner, i: Intake, tp: TopicPartition, log: seq<Record>, next: nat, before: seq<Record>, committed: int)
    requires TakesIn(a, i, tp, log, next, before) && RecordsOf(i.taken, tp) != []
    requires |before| <= |log| && NoneBelow(log[|before|..], committed)
    ensures RecordsOf(i.taken, tp)[|RecordsOf(i.taken, tp)| - 1].offset >= committed
  {
    var taken := RecordsOf(i.taken, tp);
    DeliveredIsPrefix(log, next, before + taken, RecordsOf(i.aligner.held, tp), PositionOf(i.aligner.positions, tp));
    var n := |before + taken| - 1;
    assert taken[|taken| - 1] == (before + taken)[n] == log[n];
    assert log[|before|..][n - |before|] == log[n];
  }

  /** What `RoundTookIn` gives for one partition. */
  lemma {:induction false} TookInAt(env: Env, w: Flow, f: Fetch, tp: TopicPartition)
    requires Sane(env) && Legal(env, w, f) && Aligns(env, w.aligner) && Tracked(env.log, w.aligner, w.next, w.delivered)
    requires tp in env.log
    ensures var a, i := AlignedBy(env, w, f), IntakeBy(env, w, f);
            && TakesIn(a, i, tp, env.log[tp], NextAfter(w.next, f.counts)[tp], w.delivered[tp])
            && i.aligner.aligned == a.aligned
            && (Fired(i.aligner) && tp in a.aligned ==> PositionOf(i.aligner.positions, tp) >= a.aligned[tp])
            && |w.delivered[tp]| <= |env.log[tp]|
  {
    RoundTookIn(env, w, f);
    TookInKeeps(env, AlignedBy(env, w, f), IntakeBy(env, w, f), NextAfter(w.next, f.counts), w.delivered);
    DeliveredIsPrefix(env.log[tp], w.next[tp], w.delivered[tp], RecordsOf(w.aligner.held, tp), PositionOf(w.aligner.positions, tp));
  }

  lemma {:induction false} RoundCommitsBelowRest(env: Env, w: Flow, f: Fetch)
    requires Sane(env) && Legal(env, w, f) && Aligns(env, w.aligner) && Tracked(env.log, w.aligner, w.next, w.delivered)
    requires CommitsBelowRest(env.log, w)
    ensures CommitsBelowRest(env.log, Round(env, w, f))
  {
    var i, w' := IntakeBy(env, w, f), Round(env, w, f);
    RoundCommits(env, w, f);
    forall tp | tp in env.log && tp in w'.committed && tp in w'.delivered && |w'.delivered[tp]| <= |env.log[tp]|
      ensures NoneBelow(env.log[tp][|w'.delivered[tp]|..], w'.committed[tp])
    {
      var before := if tp in w.committed then w.committed[tp] else 0;
      TookInAt(env, w, f, tp);
      assert tp !in w.committed ==> NoneBelow(env.log[tp][|w.delivered[tp]|..], 0);
      CommitAt(AlignedBy(env, w, f), i, tp, env.log[tp], NextAfter(w.next, f.counts)[tp], w.delivered[tp], before);
      CommitIs(i, w.committed, tp);
    }
  }

  /** Every run of rounds without a restore keeps the commits below the rest. */
  lemma {:induction false} RoundsCommitBelowRest(env: Env, rounds: seq<Fetch>)
    requires Sane(env) && RunRounds(env, rounds).Some?
    ensures var w := RunRounds(env, rounds).value;
            Aligns(env, w.aligner) && Tracked(env.log, w.aligner, w.next, w.delivered) && CommitsBelowRest(env.log, w)
  {
    if rounds == [] {
      StartFlows(env);
    } else {
      var earlier, f := rounds[..|rounds| - 1], rounds[|rounds| - 1];
      RoundsCommitBelowRest(env, earlier);
      var w := RunRounds(env, earlier).value;
      RoundKeeps(env, w, f);
      RoundCommitsBelowRest(env, w, f);
    }
  }

  /** In any run of rounds, cuts on time or late, a round moves a committed offset
      back if and only if it fires a barrier whose cut lies below that offset. */
  lemma {:induction false} OnlyLateBarriersRewind(env: Env, rounds: seq<Fetch>, f: Fetch, tp: TopicPartition)
    requires Sane(env) && RunRounds(env, rounds).Some? && Legal(env, RunRounds(env, rounds).value, f) && tp in env.log
    ensures Rewinds(env, RunRounds(env, rounds).value, f, tp) <==> FiresLate(env, RunRounds(env, rounds).value, f, tp)
  {
    var w := RunRounds(env, rounds).value;
    RoundsCommitBelowRest(env, rounds);
    RewindsWhenLate(env, w, f, tp);
  }

  lemma {:induction false} RewindsWhenLate(env: Env, w: Flow, f: Fetch, tp: TopicPartition)
    requires Sane(env) && Legal(env, w, f) && Aligns(env, w.aligner) && Tracked(env.log, w.aligner, w.next, w.delivered)
    requires CommitsBelowRest(env.log, w) && tp in env.log
    ensures Rewinds(env, w, f, tp) <==> FiresLate(env, w, f, tp)
  {
    if tp in w.committed {
      CommitRewindsExactly(env, w, f, tp);
      TookInAt(env, w, f, tp);
      if RecordsOf(IntakeBy(env, w, f).taken, tp) != [] {
        NextIsAbove(AlignedBy(env, w, f), IntakeBy(env, w, f), tp, env.log[tp], NextAfter(w.next, f.counts)[tp],
                    w.delivered[tp], w.committed[tp]);
      }
    }
  }

  // A run that shows it: records at 0 and 9 are delivered and committed, and then a
  // cut at 5 becomes known.

  function LateEnv(tp: TopicPartition, first: Record, last: Record): Env {
    Env(map[tp := [first, last]], {}, map[1 := Cut(1, true, map[tp := 5])])
  }

  function TakesBoth(tp: TopicPartition): Fetch { Fetch([], None, map[tp := 2]) }

  function LearnsLate(tp: TopicPartition): Fetch { Fetch([Cut(1, true, map[tp := 5])], None, map[]) }

  lemma {:induction false} LateEnvIsSane(tp: TopicPartition, first: Record, last: Record)
    requires first.offset == 0 && last.offset == 9
    ensures Sane(LateEnv(tp, first, last))
  {
    assert Targets({}, Cut(1, true, map[tp := 5])) == {tp};
  }

  lemma {:induction false} NewAlignerTakesAll(tp: TopicPartition, both: seq<Record>)
    requires |both| == 2 && both[1].offset == 9
    ensures TakeIn(NEW_ALIGNER, map[tp := both]) == Intake(NEW_ALIGNER.(positions := map[tp := 10]), map[tp := both])
  {
    var merged := map[tp := both];
    assert Present(Merge(map[], merged)) == merged;
    assert Accepted(NEW_ALIGNER, merged) == merged;
    assert PositionsAfter(NEW_ALIGNER, merged) == map[tp := 10];
    assert HeldAfter(NEW_ALIGNER, merged) == map[];
    assert ReachedAfter(NEW_ALIGNER, merged) == {};
  }

  function LateFlow(tp: TopicPartition, both: seq<Record>): Flow {
    Flow(NEW_ALIGNER.(positions := map[tp := 10]), map[tp := 2], map[tp := both], map[tp := 10])
  }

  lemma {:induction false} CloseBoth(tp: TopicPartition, both: seq<Record>)
    requires |both| == 2 && both[1].offset == 9
    ensures Close(Flow(NEW_ALIGNER, map[tp := 0], map[tp := []], map[]),
                  Intake(NEW_ALIGNER.(positions := map[tp := 10]), map[tp := both]), map[tp := 2]) == LateFlow(tp, both)
  {
    assert OffsetsOf(map[tp := both]) == map[tp := 10];
    assert Extend(map[tp := []], map[tp := both]) == map[tp := both] by { assert [] + both == both; }
  }

  lemma {:induction false} BothAreTaken(tp: TopicPartition, first: Record, last: Record)
    requires first.offset == 0 && last.offset == 9
    ensures var env := LateEnv(tp, first, last);
            Legal(env, Start(env), TakesBoth(tp)) && Round(env, Start(env), TakesBoth(tp)) == LateFlow(tp, [first, last])
  {
    var env, f, both := LateEnv(tp, first, last), TakesBoth(tp), [first, last];
    var w := Start(env);
    assert w.next == map[tp := 0] && w.delivered == map[tp := []];
    assert env.log[tp] == both && both[0..2] == both;
    assert PolledBy(env, w, f) == map[tp := both];
    assert AlignedBy(env, w, f) == NEW_ALIGNER;
    assert NextAfter(w.next, f.counts) == map[tp := 2];
    NewAlignerTakesAll(tp, both);
    CloseBoth(tp, both);
  }

  lemma {:induction false} LateCutAligns(tp: TopicPartition)
    ensures var a := Begin(NEW_ALIGNER.(positions := map[tp := 10]), Cut(1, true, map[tp := 5]));
            a.pending == Some(Cut(1, true, map[tp := 5])) && a.aligned == map[tp := 5] && a.reached == {tp} && a.held == map[]
  {
    var now := NEW_ALIGNER.(positions := map[tp := 10], pending := Some(Cut(1, true, map[tp := 5])));
    assert AlignedOf(now, Cut(1, true, map[tp := 5])) == map[tp := 5];
  }

  lemma {:induction false} NothingTakenIn(a: Aligner)
    requires a.held == map[]
    ensures TakeIn(a, map[]) == Intake(a, map[])
  {
    assert Present(Merge(a.held, map[])) == map[];
    assert PositionsAfter(a, map[]) == a.positions && HeldAfter(a, map[]) == map[] && ReachedAfter(a, map[]) == a.reached;
    assert Accepted(a, map[]) == map[];
  }

  lemma {:induction false} LateCutFires(env: Env, w: Flow, tp: TopicPartition, both: seq<Record>)
    requires w == LateFlow(tp, both) && env.log.Keys == {tp}
    requires env.assignment == {} && env.cuts == map[1 := Cut(1, true, map[tp := 5])]
    ensures Legal(env, w, LearnsLate(tp))
    ensures Fired(IntakeBy(env, w, LearnsLate(tp)).aligner) && Round(env, w, LearnsLate(tp)).committed == map[tp := 5]
  {
    var f := LearnsLate(tp);
    assert w.aligner.(assignment := env.assignment) == w.aligner;
    var a := Begin(w.aligner, f.cuts[0]);
    LateCutAligns(tp);
    assert AlignedBy(env, w, f) == a;
    assert PolledBy(env, w, f) == map[];
    NothingTakenIn(a);
    assert IntakeBy(env, w, f) == Intake(a, map[]);
    assert Raised(a, OffsetsOf(map[])) == map[tp := 5];
  }

  lemma {:induction false} OneRound(env: Env, f: Fetch, w: Flow)
    requires Legal(env, Start(env), f) && Round(env, Start(env), f) == w
    ensures RunRounds(env, [f]) == Some(w)
  {
    assert [f][..0] == [] && RunRounds(env, [f][..0]) == Some(Start(env));
  }

  /** A run of rounds after which a legal round takes the commit of a partition from
      one offset to another. */
  ghost predicate CommitGoes(env: Env, rounds: seq<Fetch>, f: Fetch, before: Offsets, after: Offsets) {
    && Sane(env) && RunRounds(env, rounds).Some?
    && RunRounds(env, rounds).value.committed == before
    && Legal(env, RunRounds(env, rounds).value, f)
    && Round(env, RunRounds(env, rounds).value, f).committed == after
  }

  lemma {:induction false} RunGoes(env: Env, rounds: seq<Fetch>, f: Fetch, w: Flow, after: Offsets)
    requires Sane(env) && RunRounds(env, rounds) == Some(w) && Legal(env, w, f) && Round(env, w, f).committed == after
    ensures CommitGoes(env, rounds, f, w.committed, after)
  {
  }

  /** The commit of 10 goes back to 5, which the documentation says it never does. */
  lemma {:induction false} LateCutRewinds(tp: TopicPartition, first: Record, last: Record)
    requires first.offset == 0 && last.offset == 9
    ensures CommitGoes(LateEnv(tp, first, last), [TakesBoth(tp)], LearnsLate(tp), map[tp := 10], map[tp := 5])
  {
    var env, w := LateEnv(tp, first, last), LateFlow(tp, [first, last]);
    LateEnvIsSane(tp, first, last);
    BothAreTaken(tp, first, last);
    OneRound(env, TakesBoth(tp), w);
    LateCutFires(env, w, tp, [first, last]);
    RunGoes(env, [TakesBoth(tp)], LearnsLate(tp), w, map[tp := 5]);
  }
}
