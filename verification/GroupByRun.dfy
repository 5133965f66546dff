/** A windowed group-by under barrier alignment: its refinement makes its state depend
    on the records alone, and its bisimulation makes reloading invisible. */
module GroupByRuns {
  import opened Wrappers
  import opened Machine
  import opened ByteCodec
  import opened ValueCodec
  import opened Records
  import opened Aggregates
  import opened Grouping
  import opened GroupBy
  import opened GroupSnapshots
  import opened Barriers
  import opened BarrierRuns
  import opened BarrierWorlds

  /** The state of one pass over some rows. */
  ghost function MeaningOf(c: Config, rows: seq<Row>): Option<State> {
    if AllShaped(c, rows) && AllPlaced(PlaceAll(c, rows)) && OneShot(c, rows).Ok? then
      Some(State(OneShot(c, rows).value, Advance(c, MIN_INT64, rows)))
    else None
  }

  /** One step from the state of some rows gives the state of all rows. */
  lemma {:induction false} StepContinues(c: Config, past: seq<Row>, batch: Batch)
    requires c.Legal() && AllShaped(c, batch.rows)
    requires MeaningOf(c, past).Some? && Consistent(MeaningOf(c, past).value.table)
    requires Step(c, MeaningOf(c, past).value, batch).Ok?
    ensures MeaningOf(c, past + batch.rows) == Some(Step(c, MeaningOf(c, past).value, batch).value)
  {
    StepRefines(c, past, MeaningOf(c, past).value, batch);
  }

  lemma {:induction false} NoRows(c: Config)
    ensures MeaningOf(c, []) == Some(INITIAL)
  {
    assert Values(PlaceAll(c, [])) == [];
  }

  /** A decoder that reads the rows of records one after the other, with values of
      their types. */
  ghost predicate Reads(c: Config, decode: seq<Record> -> Batch) {
    && decode([]).rows == []
    && (forall a, b :: decode(a + b).rows == decode(a).rows + decode(b).rows)
    && forall a :: Typed(c, decode(a).rows)
  }

  ghost function RunOf(c: Config, s: State, decode: seq<Record> -> Batch, records: seq<Record>): Option<State> {
    if records == [] then Some(s)
    else if Consistent(s.table) && Step(c, s, decode(records)).Ok? then Some(Step(c, s, decode(records)).value)
    else None
  }

  /** A snapshot has fewer than 2^32 bytes. */
  ghost function SaveOf(s: State): Option<Bytes> {
    if Consistent(s.table) && |SnapshotBytes(s)| < TWO_32 then Some(SnapshotBytes(s)) else None
  }

  function LoadOf(d: Bytes): Option<State> {
    match RestoreState(d)
    case Ok(s) => Some(s)
    case Err(_) => None
  }

  /** The operator behind one topic, as a barrier-aligned runner drives it: its
      snapshots are bytes, which lose the widths of integers. */
  ghost function ProcessorsOf(c: Config, tp: TopicPartition, decode: seq<Record> -> Batch): Processors<State, Bytes> {
    Processors(INITIAL,
               (q, s: State, x: Polled) => RunOf(c, s, decode, RecordsOf(x, tp)),
               s => SaveOf(s),
               d => LoadOf(d))
  }

  /** Sound states that differ in the widths of integers at most. */
  ghost predicate SimilarStates(c: Config, s: State, t: State) {
    Sound(c, s.table) && Sound(c, t.table) && s.streamTime == t.streamTime && Similar(c, s.table, t.table)
  }

  ghost function Alike(c: Config): (State, State) -> bool { (s, t) => SimilarStates(c, s, t) }

  lemma {:induction false} NormalisedIsSound(c: Config, s: State)
    requires Sound(c, s.table)
    ensures Sound(c, NormaliseState(s).table)
  {
    forall k | k in s.table.groups ensures SoundGroup(c, k, NormaliseGroup(s.table.groups[k])) {
      NormaliseKeepsForms(s.table.groups[k].keyParts);
      NormaliseKeepsForms(s.table.groups[k].aggregates);
      NormalisedGroupIsSimilar(c, k, s.table.groups[k]);
      if c.Windowed() {
        assert NormaliseAll(s.table.groups[k].keyParts)[c.keyCount + 1] == s.table.groups[k].keyParts[c.keyCount + 1];
      }
    }
  }

  lemma {:induction false} SimilarJoins(c: Config, t: Table, u: Table, v: Table)
    requires Similar(c, t, u) && Similar(c, t, v)
    ensures Similar(c, u, v)
  {
    forall k | k in u.groups && k in v.groups ensures SimilarGroup(c, u.groups[k], v.groups[k]) {
      assert k in t.order;
      assert k in t.groups;
    }
  }

  /** What is loaded from a snapshot cannot be told from any state like the saved one. */
  lemma {:induction false} LoadedIsAlike(c: Config, s: State, t: State)
    requires SimilarStates(c, s, t) && SaveOf(s).Some?
    ensures LoadOf(SaveOf(s).value) == Some(NormaliseState(s)) && SimilarStates(c, NormaliseState(s), t)
  {
    RestoreSnapshot(c, s);
    NormalisedIsSound(c, s);
    NormalisedIsSimilar(c, s);
    SimilarJoins(c, s.table, NormaliseState(s).table, t.table);
  }

  lemma {:induction false} RunIsAlike(c: Config, s: State, t: State, decode: seq<Record> -> Batch, records: seq<Record>)
    requires SimilarStates(c, s, t) && Reads(c, decode) && RunOf(c, s, decode, records).Some?
    ensures RunOf(c, t, decode, records).Some?
    ensures SimilarStates(c, RunOf(c, s, decode, records).value, RunOf(c, t, decode, records).value)
  {
    if records != [] {
      StepSimilar(c, s, t, decode(records));
      StepSound(c, s, decode(records));
      StepSound(c, t, decode(records));
    }
  }

  lemma {:induction false} GroupByIsBisimilar(c: Config, tp: TopicPartition, decode: seq<Record> -> Batch)
    requires Reads(c, decode)
    ensures Bisimilar(ProcessorsOf(c, tp, decode), Alike(c))
  {
    var p := ProcessorsOf(c, tp, decode);
    forall s, t | SimilarStates(c, s, t) ensures p.save(s) == p.save(t) {
      SimilarStatesLookTheSame(c, s, t);
    }
    forall s, t | SimilarStates(c, s, t) && p.save(s).Some? && p.load(p.save(s).value).Some?
      ensures SimilarStates(c, p.load(p.save(s).value).value, t)
    {
      LoadedIsAlike(c, s, t);
    }
    forall q: int, s, t, x: Polled | SimilarStates(c, s, t) && p.run(q, s, x).Some?
      ensures p.run(q, t, x).Some? && SimilarStates(c, p.run(q, s, x).value, p.run(q, t, x).value)
    {
      RunIsAlike(c, s, t, decode, RecordsOf(x, tp));
    }
  }

  lemma {:induction false} MeaningContinues(c: Config, decode: seq<Record> -> Batch, s: State, a: seq<Record>, b: seq<Record>)
    requires c.Legal() && Reads(c, decode) && MeaningOf(c, decode(a).rows).Some?
    requires SimilarStates(c, s, MeaningOf(c, decode(a).rows).value) && RunOf(c, s, decode, b).Some?
    ensures MeaningOf(c, decode(a + b).rows).Some?
    ensures SimilarStates(c, RunOf(c, s, decode, b).value, MeaningOf(c, decode(a + b).rows).value)
  {
    if b == [] {
      assert a + b == a;
    } else {
      RunIsAlike(c, s, MeaningOf(c, decode(a).rows).value, decode, b);
      StepContinues(c, decode(a).rows, decode(b));
    }
  }

  ghost function MeaningFor(c: Config, tp: TopicPartition, decode: seq<Record> -> Batch): Polled -> Option<State> {
    (h: Polled) => MeaningOf(c, decode(RecordsOf(h, tp)).rows)
  }

  /** The state of a group-by does not depend on how its records are cut into rounds. */
  lemma {:induction false} GroupByIsInsensitive(c: Config, tp: TopicPartition, decode: seq<Record> -> Batch, q: int)
    requires c.Legal() && Reads(c, decode)
    ensures Means(ProcessorsOf(c, tp, decode), Alike(c), q, MeaningFor(c, tp, decode))
  {
    var p, meaning := ProcessorsOf(c, tp, decode), MeaningFor(c, tp, decode);
    NoRows(c);
    forall h: Polled | forall k :: k in h ==> h[k] == [] ensures meaning(h).Some? && SimilarStates(c, p.initial, meaning(h).value) {
      assert RecordsOf(h, tp) == [];
    }
    forall h: Polled, x: Polled, s |
      x.Keys <= h.Keys && meaning(h).Some? && SimilarStates(c, s, meaning(h).value) && p.run(q, s, x).Some?
      ensures meaning(Extend(h, x)).Some? && SimilarStates(c, p.run(q, s, x).value, meaning(Extend(h, x)).value)
    {
      assert RecordsOf(Extend(h, x), tp) == RecordsOf(h, tp) + RecordsOf(x, tp);
      MeaningContinues(c, decode, s, RecordsOf(h, tp), RecordsOf(x, tp));
    }
  }

  /** Two states like a third one forward alike rows and write the same snapshot. */
  lemma {:induction false} LookTheSame(c: Config, s: State, t: State, u: State)
    requires SimilarStates(c, s, u) && SimilarStates(c, t, u)
    ensures SnapshotBytes(s) == SnapshotBytes(t) && |Output(s.table)| == |Output(t.table)|
    ensures forall i :: 0 <= i < |Output(s.table)| ==> AllAlike(Output(s.table)[i], Output(t.table)[i])
  {
    SimilarStatesLookTheSame(c, s, u);
    SimilarStatesLookTheSame(c, t, u);
    forall i | 0 <= i < |Output(s.table)| ensures AllAlike(Output(s.table)[i], Output(t.table)[i]) {
      assert AllAlike(Output(s.table)[i], Output(u.table)[i]) && AllAlike(Output(t.table)[i], Output(u.table)[i]);
    }
  }

  /** Restore then replay is invisible for a group-by behind a barrier: in any two runs
      with whatever failures and restores, at equal positions it holds states that
      forward alike rows and write the same snapshot. */
  lemma {:induction false} GroupByReplayIsInvisible(env: Env, c: Config, tp: TopicPartition, decode: seq<Record> -> Batch,
                                                    xs: seq<Event>, ys: seq<Event>, q: int)
    requires c.Legal() && Reads(c, decode) && Sane(env) && q in LogicalOf(env.log)
    requires var p := ProcessorsOf(c, tp, decode); RunEvents(env, p, xs).Some? && RunEvents(env, p, ys).Some?
    requires var p := ProcessorsOf(c, tp, decode);
             forall k :: k in env.log && k.partition == q ==>
               |RecordsOf(RunEvents(env, p, xs).value.flow.delivered, k)| == |RecordsOf(RunEvents(env, p, ys).value.flow.delivered, k)|
    ensures var p := ProcessorsOf(c, tp, decode);
            var x, y := RunEvents(env, p, xs).value.states, RunEvents(env, p, ys).value.states;
            && q in x && q in y
            && Consistent(x[q].table) && Consistent(y[q].table) && SnapshotBytes(x[q]) == SnapshotBytes(y[q])
            && |Output(x[q].table)| == |Output(y[q].table)|
            && forall i :: 0 <= i < |Output(x[q].table)| ==> AllAlike(Output(x[q].table)[i], Output(y[q].table)[i])
  {
    var p := ProcessorsOf(c, tp, decode);
    GroupByIsBisimilar(c, tp, decode);
    GroupByIsInsensitive(c, tp, decode, q);
    ReplayIsInvisible(env, p, Alike(c), MeaningFor(c, tp, decode), xs, ys, q);
    var s, t := RunEvents(env, p, xs).value.states[q], RunEvents(env, p, ys).value.states[q];
    var u :| Alike(c)(s, u) && Alike(c)(t, u);
    LookTheSame(c, s, t, u);
  }
}
