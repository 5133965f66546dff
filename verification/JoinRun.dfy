/** The stateful join under barrier alignment: what a reload and a replay do to it. It
    sees how its records are cut into rounds, so a replay is invisible exactly as far as
    the rows of a pair meet in both runs. */
module JoinRuns {
  import opened Wrappers
  import opened Machine
  import opened ByteCodec
  import opened ValueCodec
  import opened Records
  import opened Joins
  import JoinOutputs
  import opened JoinProcessors
  import opened Barriers
  import opened BarrierRuns
  import BarrierWorlds

  type World = BarrierWorlds.World<State, Bytes>
  type History = BarrierWorlds.History

  /** The batches of the two inputs of a join. */
  datatype Inputs = Inputs(left: TopicPartition, right: TopicPartition, decode: seq<Record> -> seq<JoinBatch>)

  function RoundOf(inputs: Inputs, part: Polled): Round {
    Round(inputs.decode(RecordsOf(part, inputs.left)), inputs.decode(RecordsOf(part, inputs.right)))
  }

  function RunOf(c: Config, s: State, round: Round): Option<State> {
    match Step(c, s, round)
    case Ok((s', _)) => Some(s')
    case Err(_) => None
  }

  /** A snapshot has fewer than 2^32 bytes. */
  function SaveOf(s: State): Option<Bytes> {
    if |SnapshotBytes(s)| < TWO_32 then Some(SnapshotBytes(s)) else None
  }

  function LoadOf(d: Bytes): Option<State> {
    match RestoreState(d)
    case Ok(s) => Some(s)
    case Err(_) => None
  }

  /** The join as a barrier-aligned runner drives it. */
  function ProcessorsOf(c: Config, inputs: Inputs): BarrierWorlds.Processors<State, Bytes> {
    BarrierWorlds.Processors(INITIAL,
                             (q: int, s: State, x: Polled) => RunOf(c, s, RoundOf(inputs, x)),
                             (s: State) => SaveOf(s),
                             (d: Bytes) => LoadOf(d))
  }

  function Same(): (State, State) -> bool { (s, t) => s == t }

  /** Reloading a join gives the very state back. */
  lemma {:induction false} JoinIsBisimilar(c: Config, inputs: Inputs)
    ensures BarrierWorlds.Bisimilar(ProcessorsOf(c, inputs), Same())
  {
    forall s: State | SaveOf(s).Some? ensures LoadOf(SaveOf(s).value) == Some(s) {
      RestoreSnapshot(s);
    }
  }

  /** The rounds of a history, as the join takes them in. */
  function RoundsOf(inputs: Inputs, h: History): seq<Round> {
    if h == [] then []
    else RoundsOf(inputs, h[..|h| - 1]) + if h[|h| - 1].Took? then [RoundOf(inputs, h[|h| - 1].part)] else []
  }

  /** The state of a join after any history, reloads and all, is that of one run over
      its rounds. */
  lemma {:induction false} StateIsRun(c: Config, inputs: Inputs, q: int, h: History)
    requires BarrierWorlds.StateAfter(ProcessorsOf(c, inputs), q, h).Some?
    ensures Run(c, RoundsOf(inputs, h)).Ok?
    ensures Run(c, RoundsOf(inputs, h)).value.0 == BarrierWorlds.StateAfter(ProcessorsOf(c, inputs), q, h).value
  {
    if h != [] {
      var earlier, last := h[..|h| - 1], h[|h| - 1];
      StateIsRun(c, inputs, q, earlier);
      var s := Run(c, RoundsOf(inputs, earlier)).value.0;
      if last.Took? {
        RunNext(c, RoundsOf(inputs, earlier), RoundOf(inputs, last.part));
      } else {
        RestoreSnapshot(s);
        assert RoundsOf(inputs, earlier) + [] == RoundsOf(inputs, earlier);
      }
    }
  }

  lemma {:induction false} RunNext(c: Config, rounds: seq<Round>, round: Round)
    requires Run(c, rounds).Ok? && Step(c, Run(c, rounds).value.0, round).Ok?
    ensures var (before, last) := (Run(c, rounds).value, Step(c, Run(c, rounds).value.0, round).value);
            Run(c, rounds + [round]) == Ok((last.0, before.1 + last.1))
  {
    assert (rounds + [round])[..|rounds|] == rounds;
  }

  // ------------------------------------------------------- what the rounds change

  /** Keys and window allow a pair. */
  predicate Joinable(c: Config, l: JoinRow, r: JoinRow) {
    && l.key != Null && r.key != Null && EncodeValue(l.key) == EncodeValue(r.key)
    && Abs(l.timestamp - r.timestamp) <= c.window
  }

  /** Where a pair of rows stands in a run: each row once, in a batch of a round. */
  datatype Spot = Spot(i: nat, a: nat, j: nat, b: nat)

  ghost predicate StandsAt(rounds: seq<Round>, l: JoinRow, r: JoinRow, at: Spot) {
    OnlyAt(Side(rounds, true), l, at.i, at.a) && OnlyAt(Side(rounds, false), r, at.j, at.b)
  }

  predicate MeetsAt(c: Config, rounds: seq<Round>, at: Spot) {
    && at.i < |rounds| && at.a < |rounds[at.i].left| && at.j < |rounds| && at.b < |rounds[at.j].right|
    && Meet(c, rounds, at.i, at.a, at.j, at.b)
  }

  lemma {:induction false} EmittedWhenMeeting(c: Config, rounds: seq<Round>, l: JoinRow, r: JoinRow, at: Spot)
    requires c == ConfigOf(c.window, c.serde) && c.serde.Lossless() && Run(c, rounds).Ok? && StandsAt(rounds, l, r, at)
    ensures Emitted(Run(c, rounds).value.1, (l, r)) == if Joinable(c, l, r) && MeetsAt(c, rounds, at) then 1 else 0
  {
    ExactlyOnce(c, rounds, l, r, at.i, at.a, at.j, at.b);
  }

  /** Two runs over the same rows, cut into rounds in any two ways, emit a pair alike if
      and only if, when keys and window allow it, its rows meet in both or in neither. */
  lemma {:induction false} OutputsAgreeExactly(c: Config, xs: seq<Round>, ys: seq<Round>, l: JoinRow, r: JoinRow, x: Spot, y: Spot)
    requires c == ConfigOf(c.window, c.serde) && c.serde.Lossless() && Run(c, xs).Ok? && Run(c, ys).Ok?
    requires StandsAt(xs, l, r, x) && StandsAt(ys, l, r, y)
    ensures Emitted(Run(c, xs).value.1, (l, r)) == Emitted(Run(c, ys).value.1, (l, r))
            <==> (Joinable(c, l, r) ==> (MeetsAt(c, xs, x) <==> MeetsAt(c, ys, y)))
  {
    EmittedWhenMeeting(c, xs, l, r, x);
    EmittedWhenMeeting(c, ys, l, r, y);
  }

  /** The later row of a pair is as late as anything seen up to its round. */
  ghost predicate IsTimely(rounds: seq<Round>, l: JoinRow, r: JoinRow, at: Spot) {
    && at.i < |rounds| && at.j < |rounds|
    && (at.i < at.j ==> r.timestamp == StreamTime(rounds[..at.j + 1]))
    && (at.j < at.i ==> l.timestamp == StreamTime(rounds[..at.i + 1]))
  }

  lemma {:induction false} TimelyMeets(c: Config, rounds: seq<Round>, l: JoinRow, r: JoinRow, at: Spot)
    requires StandsAt(rounds, l, r, at) && IsTimely(rounds, l, r, at) && Joinable(c, l, r)
    ensures MeetsAt(c, rounds, at)
  {
    TimelyPairIsNotLost(c, rounds, l, r, at.i, at.a, at.j, at.b);
  }

  /** So a pair that is timely in both runs is emitted alike, whatever the rounds. */
  lemma {:induction false} TimelyPairsAgree(c: Config, xs: seq<Round>, ys: seq<Round>, l: JoinRow, r: JoinRow, x: Spot, y: Spot)
    requires c == ConfigOf(c.window, c.serde) && c.serde.Lossless() && Run(c, xs).Ok? && Run(c, ys).Ok?
    requires StandsAt(xs, l, r, x) && StandsAt(ys, l, r, y) && IsTimely(xs, l, r, x) && IsTimely(ys, l, r, y)
    ensures Emitted(Run(c, xs).value.1, (l, r)) == Emitted(Run(c, ys).value.1, (l, r))
  {
    if Joinable(c, l, r) {
      TimelyMeets(c, xs, l, r, x);
      TimelyMeets(c, ys, l, r, y);
    }
    OutputsAgreeExactly(c, xs, ys, l, r, x, y);
  }

  /** In any two runs of the runner, with whatever failures and restores, what a join
      has emitted of a pair over the rounds behind its states agrees exactly so. */
  lemma {:induction false} JoinReplayAgreesExactly(env: Env, c: Config, inputs: Inputs, xs: seq<BarrierWorlds.Event>, ys: seq<BarrierWorlds.Event>, q: int,
                                                   l: JoinRow, r: JoinRow, x: Spot, y: Spot)
    requires c == ConfigOf(c.window, c.serde) && c.serde.Lossless() && Sane(env) && q in LogicalOf(env.log)
    requires BarrierWorlds.RunEvents(env, ProcessorsOf(c, inputs), xs).Some?
    requires BarrierWorlds.RunEvents(env, ProcessorsOf(c, inputs), ys).Some?
    requires q in BarrierWorlds.RunEvents(env, ProcessorsOf(c, inputs), xs).value.histories
    requires q in BarrierWorlds.RunEvents(env, ProcessorsOf(c, inputs), ys).value.histories
    requires StandsAt(RoundsOf(inputs, BarrierWorlds.RunEvents(env, ProcessorsOf(c, inputs), xs).value.histories[q]), l, r, x)
    requires StandsAt(RoundsOf(inputs, BarrierWorlds.RunEvents(env, ProcessorsOf(c, inputs), ys).value.histories[q]), l, r, y)
    ensures var p := ProcessorsOf(c, inputs);
            var a := RoundsOf(inputs, BarrierWorlds.RunEvents(env, p, xs).value.histories[q]);
            var b := RoundsOf(inputs, BarrierWorlds.RunEvents(env, p, ys).value.histories[q]);
            && Run(c, a).Ok? && Run(c, b).Ok?
            && (Emitted(Run(c, a).value.1, (l, r)) == Emitted(Run(c, b).value.1, (l, r))
                <==> (Joinable(c, l, r) ==> (MeetsAt(c, a, x) <==> MeetsAt(c, b, y))))
  {
    var p := ProcessorsOf(c, inputs);
    WorldIsRun(env, c, inputs, xs, q);
    WorldIsRun(env, c, inputs, ys, q);
    OutputsAgreeExactly(c, RoundsOf(inputs, BarrierWorlds.RunEvents(env, p, xs).value.histories[q]),
                        RoundsOf(inputs, BarrierWorlds.RunEvents(env, p, ys).value.histories[q]), l, r, x, y);
  }

  lemma {:induction false} WorldIsRun(env: Env, c: Config, inputs: Inputs, xs: seq<BarrierWorlds.Event>, q: int)
    requires Sane(env) && q in LogicalOf(env.log) && BarrierWorlds.RunEvents(env, ProcessorsOf(c, inputs), xs).Some?
    ensures var w := BarrierWorlds.RunEvents(env, ProcessorsOf(c, inputs), xs).value;
            && q in w.states && q in w.histories && Run(c, RoundsOf(inputs, w.histories[q])).Ok?
            && Run(c, RoundsOf(inputs, w.histories[q])).value.0 == w.states[q]
  {
    var p := ProcessorsOf(c, inputs);
    var w := BarrierWorlds.RunEvents(env, p, xs).value;
    BarrierWorlds.RunInvariant(env, p, xs);
    assert BarrierWorlds.Leads(p, q, w.histories[q], Part(w.flow.delivered, q), w.states[q]);
    StateIsRun(c, inputs, q, w.histories[q]);
  }

  // -------------------------------------------------- a history that shows it

  predicate IsReadable(c: Config, b: JoinBatch) {
    b.hasKey && b.hasTimestamp && c.serde.serialize(b).Some?
  }

  predicate AllReadable(c: Config, batches: seq<JoinBatch>) {
    forall k :: 0 <= k < |batches| ==> IsReadable(c, batches[k])
  }

  /** Stored batches that read back as batches with both columns. */
  predicate StoreReads(c: Config, stored: seq<TimedBatch>) {
    forall k :: 0 <= k < |stored| ==>
                  var b := c.serde.deserialize(stored[k].data); b.Some? && b.value.hasKey && b.value.hasTimestamp
  }

  lemma {:induction false} PruneReads(c: Config, stored: seq<TimedBatch>, cutoff: Int64)
    requires StoreReads(c, stored)
    ensures StoreReads(c, Prune(stored, cutoff))
  {
    if stored != [] { PruneReads(c, stored[..|stored| - 1], cutoff); }
  }

  lemma {:induction false} StoreSucceeds(c: Config, stored: seq<TimedBatch>, batches: seq<JoinBatch>)
    requires c.serde.Lossless() && StoreReads(c, stored) && AllReadable(c, batches)
    ensures StoreAll(c, stored, batches).Ok? && StoreReads(c, StoreAll(c, stored, batches).value)
  {
    if batches != [] {
      StoreSucceeds(c, stored, batches[..|batches| - 1]);
      var last := batches[|batches| - 1];
      assert IsReadable(c, last) && c.serde.deserialize(c.serde.serialize(last).value) == Some(last);
    }
  }

  lemma {:induction false} StepSucceeds(c: Config, s: State, round: Round)
    requires c.serde.Lossless() && AllReadable(c, round.left) && AllReadable(c, round.right)
    requires StoreReads(c, s.left) && StoreReads(c, s.right)
    ensures Step(c, s, round).Ok? && StoreReads(c, Step(c, s, round).value.0.left) && StoreReads(c, Step(c, s, round).value.0.right)
  {
    var cutoff := Clamp(MaxOver(MaxOver(s.streamTime, round.left), round.right) - c.window);
    PruneReads(c, s.left, cutoff);
    PruneReads(c, s.right, cutoff);
    ReadableStepSucceeds(c, s, round, cutoff);
    PrunedAt(c, s, round, cutoff);
    StoreSucceeds(c, Prune(s.left, cutoff), round.left);
    StoreSucceeds(c, Prune(s.right, cutoff), round.right);
  }

  lemma {:induction false} PrunedAt(c: Config, s: State, round: Round, cutoff: Int64)
    requires StreamTimeAfter(s, round).Ok? && cutoff == Clamp(MaxOver(MaxOver(s.streamTime, round.left), round.right) - c.window)
    ensures cutoff == Cutoff(c, StreamTimeAfter(s, round).value)
  {
    AdvanceIsMax(s.streamTime, round.left);
    AdvanceIsMax(MaxOver(s.streamTime, round.left), round.right);
    CutoffIsClamped(c, StreamTimeAfter(s, round).value);
  }

  lemma {:induction false} ReadableStepSucceeds(c: Config, s: State, round: Round, cutoff: Int64)
    requires cutoff == Clamp(MaxOver(MaxOver(s.streamTime, round.left), round.right) - c.window)
    requires AllReadable(c, round.left) && AllReadable(c, round.right)
    requires StoreReads(c, Prune(s.left, cutoff)) && StoreReads(c, Prune(s.right, cutoff))
    ensures Step(c, s, round).Ok?
  {
    forall i | 0 <= i < |round.left| ensures JoinOutputs.CanMeet(c, round.left[i], Prune(s.right, cutoff), round.right) {
      assert IsReadable(c, round.left[i]);
    }
    forall j | 0 <= j < |round.right| ensures JoinOutputs.CanMeetStored(c, round.right[j], Prune(s.left, cutoff)) {
      assert IsReadable(c, round.right[j]);
    }
    JoinOutputs.StepSucceeds(c, s, round);
  }

  /** Batches with both columns that serialise never make a join fail. */
  lemma {:induction false} RunSucceeds(c: Config, rounds: seq<Round>)
    requires c.serde.Lossless() && forall k :: 0 <= k < |rounds| ==> AllReadable(c, rounds[k].left) && AllReadable(c, rounds[k].right)
    ensures Run(c, rounds).Ok? && StoreReads(c, Run(c, rounds).value.0.left) && StoreReads(c, Run(c, rounds).value.0.right)
  {
    if rounds != [] {
      RunSucceeds(c, rounds[..|rounds| - 1]);
      StepSucceeds(c, Run(c, rounds[..|rounds| - 1]).value.0, rounds[|rounds| - 1]);
    }
  }

  // With a window of 10, a left row at 0, a left row at 100 and a right row at 5.

  function RowAt(key: Value, timestamp: Int64): JoinRow { JoinRow(key, timestamp, []) }

  function BatchAt(key: Value, timestamp: Int64): JoinBatch { JoinBatch([RowAt(key, timestamp)], true, true) }

  function Together(key: Value): seq<Round> { [Round([BatchAt(key, 0), BatchAt(key, 100)], [BatchAt(key, 5)])] }

  function Apart(key: Value): seq<Round> {
    [Round([BatchAt(key, 0)], []), Round([BatchAt(key, 100)], []), Round([], [BatchAt(key, 5)])]
  }

  lemma {:induction false} OneRow(row: JoinRow, x: JoinRow)
    ensures Occ([row], x) == if row == x then 1 else 0
    ensures MaxTimestamp(MIN_INT64, [row]) == row.timestamp
  {
    assert [row][..0] == [];
  }

  lemma {:induction false} StandsTogether(key: Value)
    ensures StandsAt(Together(key), RowAt(key, 0), RowAt(key, 5), Spot(0, 0, 0, 0))
  {
    OneRow(RowAt(key, 0), RowAt(key, 0));
    OneRow(RowAt(key, 100), RowAt(key, 0));
    OneRow(RowAt(key, 5), RowAt(key, 5));
  }

  lemma {:induction false} StandsApart(key: Value)
    ensures StandsAt(Apart(key), RowAt(key, 0), RowAt(key, 5), Spot(0, 0, 2, 0))
  {
    OneRow(RowAt(key, 0), RowAt(key, 0));
    OneRow(RowAt(key, 100), RowAt(key, 0));
    OneRow(RowAt(key, 5), RowAt(key, 5));
  }

  lemma {:induction false} LateBy100(key: Value)
    ensures StreamTime(Apart(key)) >= 100
  {
    var rounds := Apart(key);
    OneRow(RowAt(key, 100), RowAt(key, 100));
    assert rounds[..2][1] == rounds[1];
    var before := MaxOver(StreamTime(rounds[..2][..1]), rounds[1].left);
    assert MaxTimestamp(MIN_INT64, rounds[1].left[0].rows) <= before;
    assert StreamTime(rounds[..2]) == MaxOver(before, rounds[1].right);
    assert rounds[..|rounds| - 1] == rounds[..2];
  }

  lemma {:induction false} DoNotMeetApart(c: Config, key: Value)
    requires c.window == 10
    ensures !MeetsAt(c, Apart(key), Spot(0, 0, 2, 0))
  {
    LateBy100(key);
    OneRow(RowAt(key, 0), RowAt(key, 0));
    assert Apart(key)[..3] == Apart(key);
    SaturatingSubtractClamps(StreamTime(Apart(key)), 10);
  }

  /** The join sees the rounds: the same rows, in the same order on each side, give a
      pair in one round and none in three, because the second round prunes the first
      row. So a replay in other rounds can lose an output of the uninterrupted run. */
  lemma {:induction false} JoinSeesRounds(c: Config, key: Value)
    requires c == ConfigOf(10, c.serde) && c.serde.Lossless() && key != Null
    requires forall t: Int64 :: t == 0 || t == 5 || t == 100 ==> c.serde.serialize(BatchAt(key, t)).Some?
    ensures Concat(Side(Together(key), true)) == Concat(Side(Apart(key), true))
    ensures Concat(Side(Together(key), false)) == Concat(Side(Apart(key), false))
    ensures Run(c, Together(key)).Ok? && Run(c, Apart(key)).Ok?
    ensures Emitted(Run(c, Together(key)).value.1, (RowAt(key, 0), RowAt(key, 5))) == 1
    ensures Emitted(Run(c, Apart(key)).value.1, (RowAt(key, 0), RowAt(key, 5))) == 0
  {
    SameSides(key);
    BothRun(c, key);
    StandsTogether(key);
    EmittedWhenMeeting(c, Together(key), RowAt(key, 0), RowAt(key, 5), Spot(0, 0, 0, 0));
    NotEmittedApart(c, key);
  }

  lemma {:induction false} BothRun(c: Config, key: Value)
    requires c.serde.Lossless() && forall t: Int64 :: t == 0 || t == 5 || t == 100 ==> c.serde.serialize(BatchAt(key, t)).Some?
    ensures Run(c, Together(key)).Ok? && Run(c, Apart(key)).Ok?
  {
    RunSucceeds(c, Together(key));
    RunSucceeds(c, Apart(key));
  }

  lemma {:induction false} NotEmittedApart(c: Config, key: Value)
    requires c == ConfigOf(10, c.serde) && c.serde.Lossless() && Run(c, Apart(key)).Ok?
    ensures Emitted(Run(c, Apart(key)).value.1, (RowAt(key, 0), RowAt(key, 5))) == 0
  {
    StandsApart(key);
    DoNotMeetApart(c, key);
    EmittedWhenMeeting(c, Apart(key), RowAt(key, 0), RowAt(key, 5), Spot(0, 0, 2, 0));
  }

  lemma {:induction false} SameSides(key: Value)
    ensures Concat(Side(Together(key), true)) == Concat(Side(Apart(key), true))
    ensures Concat(Side(Together(key), false)) == Concat(Side(Apart(key), false))
  {
    SameSide(key, true);
    SameSide(key, false);
  }

  lemma {:induction false} SameSide(key: Value, isLeft: bool)
    ensures Concat(Side(Together(key), isLeft)) == Concat(Side(Apart(key), isLeft))
  {
    var one, three := Side(Together(key), isLeft), Side(Apart(key), isLeft);
    assert one == [one[0]] && three == [three[0], three[1], three[2]];
    OneConcat(one[0]);
    ThreeConcat(three[0], three[1], three[2]);
    assert one[0] == three[0] + three[1] + three[2];
  }

  lemma {:induction false} OneConcat(a: seq<JoinBatch>)
    ensures Concat([a]) == a
  {
    assert [a][..0] == [] && [] + a == a;
  }

  lemma {:induction false} ThreeConcat(a: seq<JoinBatch>, b: seq<JoinBatch>, c: seq<JoinBatch>)
    ensures Concat([a, b, c]) == a + b + c
  {
    assert [a, b, c][..2] == [a, b] && [a, b][..1] == [a];
    OneConcat(a);
  }
}
