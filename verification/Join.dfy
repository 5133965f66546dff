/** The stateful stream join: what one round emits and stores, and the proof that
    over a whole run every matching pair is emitted once or not at all. */
module Joins {
  import opened Wrappers
  import opened Machine
  import opened ByteCodec
  import opened ValueCodec
  import opened Sequences

  datatype JoinRow = JoinRow(key: Value, timestamp: Int64, fields: seq<Value>)

  datatype JoinBatch = JoinBatch(rows: seq<JoinRow>, hasKey: bool, hasTimestamp: bool)

  datatype JoinError = MissingKey | MissingTimestamp | SerdeFailed

  type Pair = (JoinRow, JoinRow)

  /** The serialisation of batches, which the join takes as it finds it. */
  datatype Serde = Serde(serialize: JoinBatch -> Option<Bytes>, deserialize: Bytes -> Option<JoinBatch>) {
    ghost predicate Lossless() {
      forall b: JoinBatch :: serialize(b).Some? ==> deserialize(serialize(b).value) == Some(b)
    }
  }

  /** Which rows belong together. */
  type Matcher = (JoinRow, JoinRow) -> bool

  datatype Config = Config(window: Int64, matches: Matcher, serde: Serde)

  datatype TimedBatch = TimedBatch(maxTimestamp: Int64, data: Bytes)

  datatype State = State(left: seq<TimedBatch>, right: seq<TimedBatch>, streamTime: Int64)

  const INITIAL := State([], [], MIN_INT64)

  // ----------------------------------------------------------------- matching

  predicate WithinWindow(window: Int64, left: Int64, right: Int64) {
    var difference := Wrap(left - right);
    if (right > 0 && difference > left) || (right < 0 && difference < left) || difference == MIN_INT64 then false
    else Abs(difference) <= window
  }

  /** The guards make the wrapping comparison exact. */
  lemma {:induction false} WithinWindowIsExact(window: Int64, left: Int64, right: Int64)
    ensures WithinWindow(window, left, right) <==> Abs(left - right) <= window
  {
  }

  predicate Matches(window: Int64, l: JoinRow, r: JoinRow) {
    l.key != Null && r.key != Null && EncodeValue(l.key) == EncodeValue(r.key)
    && WithinWindow(window, l.timestamp, r.timestamp)
  }

  function ConfigOf(window: Int64, serde: Serde): Config {
    Config(window, (l, r) => Matches(window, l, r), serde)
  }

  function RowPairs(matches: Matcher, l: JoinRow, rights: seq<JoinRow>): seq<Pair> {
    if rights == [] then []
    else
      var last := rights[|rights| - 1];
      RowPairs(matches, l, rights[..|rights| - 1]) + if matches(l, last) then [(l, last)] else []
  }

  /** The matching pairs of two batches: left rows outside, right rows inside. */
  function BatchPairs(matches: Matcher, lefts: seq<JoinRow>, rights: seq<JoinRow>): seq<Pair> {
    if lefts == [] then []
    else BatchPairs(matches, lefts[..|lefts| - 1], rights) + RowPairs(matches, lefts[|lefts| - 1], rights)
  }

  type Outputs = seq<seq<Pair>>

  function AddMatches(matches: Matcher, outputs: Outputs, a: JoinBatch, b: JoinBatch): Result<Outputs, JoinError> {
    if !a.hasKey || !b.hasKey then Err(MissingKey)
    else if !a.hasTimestamp || !b.hasTimestamp then Err(MissingTimestamp)
    else
      var pairs := BatchPairs(matches, a.rows, b.rows);
      Ok(if pairs == [] then outputs else outputs + [pairs])
  }

  function AddSide(matches: Matcher, outputs: Outputs, batch: JoinBatch, other: JoinBatch, batchIsLeft: bool): Result<Outputs, JoinError> {
    if batchIsLeft then AddMatches(matches, outputs, batch, other) else AddMatches(matches, outputs, other, batch)
  }

  function JoinStored(c: Config, outputs: Outputs, batch: JoinBatch, stored: seq<TimedBatch>, batchIsLeft: bool): Result<Outputs, JoinError> {
    if stored == [] then Ok(outputs)
    else
      var before :- JoinStored(c, outputs, batch, stored[..|stored| - 1], batchIsLeft);
      match c.serde.deserialize(stored[|stored| - 1].data)
      case None => Err(SerdeFailed)
      case Some(other) => AddSide(c.matches, before, batch, other, batchIsLeft)
  }

  function JoinNew(c: Config, outputs: Outputs, batch: JoinBatch, others: seq<JoinBatch>): Result<Outputs, JoinError> {
    if others == [] then Ok(outputs)
    else
      var before :- JoinNew(c, outputs, batch, others[..|others| - 1]);
      AddMatches(c.matches, before, batch, others[|others| - 1])
  }

  function JoinLefts(c: Config, newLeft: seq<JoinBatch>, right: seq<TimedBatch>, newRight: seq<JoinBatch>): Result<Outputs, JoinError> {
    if newLeft == [] then Ok([])
    else
      var before :- JoinLefts(c, newLeft[..|newLeft| - 1], right, newRight);
      var stored :- JoinStored(c, before, newLeft[|newLeft| - 1], right, true);
      JoinNew(c, stored, newLeft[|newLeft| - 1], newRight)
  }

  function JoinRights(c: Config, outputs: Outputs, newRight: seq<JoinBatch>, left: seq<TimedBatch>): Result<Outputs, JoinError> {
    if newRight == [] then Ok(outputs)
    else
      var before :- JoinRights(c, outputs, newRight[..|newRight| - 1], left);
      JoinStored(c, before, newRight[|newRight| - 1], left, false)
  }

  // -------------------------------------------------------------- one round

  function MaxTimestamp(from: Int64, rows: seq<JoinRow>): (latest: Int64)
    ensures latest >= from && forall i :: 0 <= i < |rows| ==> rows[i].timestamp <= latest
  {
    if rows == [] then from else Later(MaxTimestamp(from, rows[..|rows| - 1]), rows[|rows| - 1].timestamp)
  }

  function AdvanceAll(from: Int64, batches: seq<JoinBatch>): (r: Result<Int64, JoinError>)
    ensures r.Ok? ==> r.value >= from
  {
    if batches == [] then Ok(from)
    else
      var before :- AdvanceAll(from, batches[..|batches| - 1]);
      if !batches[|batches| - 1].hasTimestamp then Err(MissingTimestamp)
      else Ok(MaxTimestamp(before, batches[|batches| - 1].rows))
  }

  function Cutoff(c: Config, streamTime: Int64): Int64 { SaturatingSubtract(streamTime, c.window) }

  function Prune(batches: seq<TimedBatch>, cutoff: Int64): (kept: seq<TimedBatch>)
  {
    if batches == [] then []
    else
      var last := batches[|batches| - 1];
      Prune(batches[..|batches| - 1], cutoff) + if last.maxTimestamp >= cutoff then [last] else []
  }

  function Store(c: Config, batch: JoinBatch): Result<TimedBatch, JoinError> {
    if !batch.hasTimestamp then Err(MissingTimestamp)
    else
      match c.serde.serialize(batch)
      case None => Err(SerdeFailed)
      case Some(data) => Ok(TimedBatch(MaxTimestamp(MIN_INT64, batch.rows), data))
  }

  function StoreAll(c: Config, stored: seq<TimedBatch>, batches: seq<JoinBatch>): Result<seq<TimedBatch>, JoinError> {
    if batches == [] then Ok(stored)
    else
      var before :- StoreAll(c, stored, batches[..|batches| - 1]);
      var last :- Store(c, batches[|batches| - 1]);
      Ok(before + [last])
  }

  datatype Round = Round(left: seq<JoinBatch>, right: seq<JoinBatch>)

  function StreamTimeAfter(s: State, round: Round): Result<Int64, JoinError> {
    var afterLeft :- AdvanceAll(s.streamTime, round.left);
    AdvanceAll(afterLeft, round.right)
  }

  function Step(c: Config, s: State, round: Round): Result<(State, Outputs), JoinError> {
    var streamTime :- StreamTimeAfter(s, round);
    var left, right := Prune(s.left, Cutoff(c, streamTime)), Prune(s.right, Cutoff(c, streamTime));
    var joinedLeft :- JoinLefts(c, round.left, right, round.right);
    var outputs :- JoinRights(c, joinedLeft, round.right, left);
    var left' :- StoreAll(c, left, round.left);
    var right' :- StoreAll(c, right, round.right);
    Ok((State(left', right', streamTime), outputs))
  }

  // ------------------------------------------------------ counting occurrences

  function Occ(rows: seq<JoinRow>, x: JoinRow): nat {
    if rows == [] then 0 else Occ(rows[..|rows| - 1], x) + if rows[|rows| - 1] == x then 1 else 0
  }

  function OccAll(batches: seq<JoinBatch>, x: JoinRow): nat {
    if batches == [] then 0 else OccAll(batches[..|batches| - 1], x) + Occ(batches[|batches| - 1].rows, x)
  }

  function CountIn(pairs: seq<Pair>, p: Pair): nat {
    if pairs == [] then 0 else CountIn(pairs[..|pairs| - 1], p) + if pairs[|pairs| - 1] == p then 1 else 0
  }

  /** How often a pair of rows was emitted. */
  function Emitted(outputs: Outputs, p: Pair): nat {
    if outputs == [] then 0 else Emitted(outputs[..|outputs| - 1], p) + CountIn(outputs[|outputs| - 1], p)
  }

  /** `a` copies of the left row met `b` copies of the right row. */
  function Meetings(matches: Matcher, p: Pair, a: nat, b: nat): nat {
    if matches(p.0, p.1) then Times(a, b) else 0
  }

  /** Multiplication, in a form that keeps its arithmetic out of other proofs. */
  function Times(a: nat, b: nat): nat { if a == 0 then 0 else Times(a - 1, b) + b }

  lemma {:induction false} TimesIsProduct(a: nat, b: nat)
    ensures Times(a, b) == a * b
  {
    if a > 0 {
      TimesIsProduct(a - 1, b);
      assert a * b == (a - 1) * b + b;
    }
  }

  lemma {:induction false} MeetingsAreProducts(matches: Matcher, p: Pair, a: nat, b: nat)
    ensures Meetings(matches, p, a, b) == if matches(p.0, p.1) then a * b else 0
  {
    TimesIsProduct(a, b);
  }

  lemma {:induction false} MeetingsAddLeft(matches: Matcher, p: Pair, a: nat, a': nat, b: nat)
    ensures Meetings(matches, p, a + a', b) == Meetings(matches, p, a, b) + Meetings(matches, p, a', b)
  {
    TimesIsProduct(a, b);
    TimesIsProduct(a', b);
    TimesIsProduct(a + a', b);
    assert (a + a') * b == a * b + a' * b;
  }

  lemma {:induction false} MeetingsAddRight(matches: Matcher, p: Pair, a: nat, b: nat, b': nat)
    ensures Meetings(matches, p, a, b + b') == Meetings(matches, p, a, b) + Meetings(matches, p, a, b')
  {
    TimesIsProduct(a, b);
    TimesIsProduct(a, b');
    TimesIsProduct(a, b + b');
    assert a * (b + b') == a * b + a * b';
  }

  lemma {:induction false} NoMeetings(matches: Matcher, p: Pair, a: nat)
    ensures Meetings(matches, p, a, 0) == 0 && Meetings(matches, p, 0, a) == 0
  {
    TimesIsProduct(a, 0);
  }

  lemma {:induction false} CountConcatenation(a: seq<Pair>, b: seq<Pair>, p: Pair)
    ensures CountIn(a + b, p) == CountIn(a, p) + CountIn(b, p)
  {
    if b == [] {
      assert a + b == a;
    } else {
      assert (a + b)[..|a + b| - 1] == a + b[..|b| - 1];
      CountConcatenation(a, b[..|b| - 1], p);
    }
  }

  lemma {:induction false} RowPairsCount(matches: Matcher, l: JoinRow, rights: seq<JoinRow>, p: Pair)
    ensures CountIn(RowPairs(matches, l, rights), p) == Meetings(matches, p, if l == p.0 then 1 else 0, Occ(rights, p.1))
  {
    if rights != [] {
      var before, last := rights[..|rights| - 1], rights[|rights| - 1];
      RowPairsCount(matches, l, before, p);
      CountConcatenation(RowPairs(matches, l, before), if matches(l, last) then [(l, last)] else [], p);
      assert CountIn([(l, last)], p) == if (l, last) == p then 1 else 0;
      MeetingsAreProducts(matches, p, if l == p.0 then 1 else 0, Occ(before, p.1));
    }
    MeetingsAreProducts(matches, p, if l == p.0 then 1 else 0, Occ(rights, p.1));
  }

  lemma {:induction false} BatchPairsCount(matches: Matcher, lefts: seq<JoinRow>, rights: seq<JoinRow>, p: Pair)
    ensures CountIn(BatchPairs(matches, lefts, rights), p) == Meetings(matches, p, Occ(lefts, p.0), Occ(rights, p.1))
  {
    var b := Occ(rights, p.1);
    if lefts == [] {
      NoMeetings(matches, p, b);
    } else {
      var before, last := lefts[..|lefts| - 1], lefts[|lefts| - 1];
      BatchPairsCount(matches, before, rights, p);
      RowPairsCount(matches, last, rights, p);
      CountConcatenation(BatchPairs(matches, before, rights), RowPairs(matches, last, rights), p);
      MeetingsAddLeft(matches, p, Occ(before, p.0), if last == p.0 then 1 else 0, b);
    }
  }

  lemma {:induction false} AddMatchesCount(matches: Matcher, outputs: Outputs, a: JoinBatch, b: JoinBatch, p: Pair)
    requires AddMatches(matches, outputs, a, b).Ok?
    ensures Emitted(AddMatches(matches, outputs, a, b).value, p)
            == Emitted(outputs, p) + Meetings(matches, p, Occ(a.rows, p.0), Occ(b.rows, p.1))
  {
    var pairs := BatchPairs(matches, a.rows, b.rows);
    BatchPairsCount(matches, a.rows, b.rows, p);
    assert (outputs + [pairs])[..|outputs|] == outputs;
  }

  /** What the store holds: each batch under the latest of its timestamps. */
  ghost predicate Holds(c: Config, stored: seq<TimedBatch>, batches: seq<JoinBatch>) {
    && |stored| == |batches|
    && forall i :: 0 <= i < |stored| ==> HoldsBatch(c, stored[i], batches[i])
  }

  predicate HoldsBatch(c: Config, stored: TimedBatch, batch: JoinBatch) {
    c.serde.deserialize(stored.data) == Some(batch) && stored.maxTimestamp == MaxTimestamp(MIN_INT64, batch.rows)
  }

  /** Copies of the pair that one batch meets in a list of batches on the other side. */
  function MeetingsWith(c: Config, p: Pair, batch: JoinBatch, others: seq<JoinBatch>, batchIsLeft: bool): nat {
    if batchIsLeft then Meetings(c.matches, p, Occ(batch.rows, p.0), OccAll(others, p.1))
    else Meetings(c.matches, p, OccAll(others, p.0), Occ(batch.rows, p.1))
  }

  lemma {:induction false} MeetingsWithOneMore(c: Config, p: Pair, batch: JoinBatch, others: seq<JoinBatch>, batchIsLeft: bool)
    requires others != []
    ensures var before, last := others[..|others| - 1], others[|others| - 1];
            MeetingsWith(c, p, batch, others, batchIsLeft)
            == MeetingsWith(c, p, batch, before, batchIsLeft)
               + if batchIsLeft then Meetings(c.matches, p, Occ(batch.rows, p.0), Occ(last.rows, p.1))
                 else Meetings(c.matches, p, Occ(last.rows, p.0), Occ(batch.rows, p.1))
  {
    var before, last := others[..|others| - 1], others[|others| - 1];
    if batchIsLeft {
      MeetingsAddRight(c.matches, p, Occ(batch.rows, p.0), OccAll(before, p.1), Occ(last.rows, p.1));
    } else {
      MeetingsAddLeft(c.matches, p, OccAll(before, p.0), Occ(last.rows, p.0), Occ(batch.rows, p.1));
    }
  }

  lemma {:induction false} JoinStoredCount(c: Config, outputs: Outputs, batch: JoinBatch, stored: seq<TimedBatch>, batches: seq<JoinBatch>, batchIsLeft: bool, p: Pair)
    requires Holds(c, stored, batches) && JoinStored(c, outputs, batch, stored, batchIsLeft).Ok?
    ensures Emitted(JoinStored(c, outputs, batch, stored, batchIsLeft).value, p)
            == Emitted(outputs, p) + MeetingsWith(c, p, batch, batches, batchIsLeft)
  {
    if stored == [] {
      NoMeetings(c.matches, p, if batchIsLeft then Occ(batch.rows, p.0) else Occ(batch.rows, p.1));
    } else {
      var n := |stored| - 1;
      JoinStoredCount(c, outputs, batch, stored[..n], batches[..n], batchIsLeft, p);
      assert HoldsBatch(c, stored[n], batches[n]);
      var before := JoinStored(c, outputs, batch, stored[..n], batchIsLeft).value;
      if batchIsLeft {
        AddMatchesCount(c.matches, before, batch, batches[n], p);
      } else {
        AddMatchesCount(c.matches, before, batches[n], batch, p);
      }
      MeetingsWithOneMore(c, p, batch, batches, batchIsLeft);
    }
  }

  lemma {:induction false} JoinNewCount(c: Config, outputs: Outputs, batch: JoinBatch, others: seq<JoinBatch>, p: Pair)
    requires JoinNew(c, outputs, batch, others).Ok?
    ensures Emitted(JoinNew(c, outputs, batch, others).value, p)
            == Emitted(outputs, p) + MeetingsWith(c, p, batch, others, true)
  {
    if others == [] {
      NoMeetings(c.matches, p, Occ(batch.rows, p.0));
    } else {
      var n := |others| - 1;
      JoinNewCount(c, outputs, batch, others[..n], p);
      AddMatchesCount(c.matches, JoinNew(c, outputs, batch, others[..n]).value, batch, others[n], p);
      MeetingsWithOneMore(c, p, batch, others, true);
    }
  }

  lemma {:induction false} JoinLeftsStep(c: Config, newLeft: seq<JoinBatch>, right: seq<TimedBatch>, newRight: seq<JoinBatch>)
    requires newLeft != [] && JoinLefts(c, newLeft, right, newRight).Ok?
    ensures var before := JoinLefts(c, newLeft[..|newLeft| - 1], right, newRight);
            && before.Ok?
            && JoinStored(c, before.value, newLeft[|newLeft| - 1], right, true).Ok?
            && JoinLefts(c, newLeft, right, newRight)
               == JoinNew(c, JoinStored(c, before.value, newLeft[|newLeft| - 1], right, true).value, newLeft[|newLeft| - 1], newRight)
  {
  }

  lemma {:induction false} OneLeftCount(c: Config, outputs: Outputs, batch: JoinBatch, right: seq<TimedBatch>, rights: seq<JoinBatch>, newRight: seq<JoinBatch>, p: Pair)
    requires Holds(c, right, rights) && JoinStored(c, outputs, batch, right, true).Ok?
    requires JoinNew(c, JoinStored(c, outputs, batch, right, true).value, batch, newRight).Ok?
    ensures Emitted(JoinNew(c, JoinStored(c, outputs, batch, right, true).value, batch, newRight).value, p)
            == Emitted(outputs, p) + Meetings(c.matches, p, Occ(batch.rows, p.0), OccAll(rights, p.1))
               + Meetings(c.matches, p, Occ(batch.rows, p.0), OccAll(newRight, p.1))
  {
    JoinStoredCount(c, outputs, batch, right, rights, true, p);
    JoinNewCount(c, JoinStored(c, outputs, batch, right, true).value, batch, newRight, p);
  }

  lemma {:induction false} JoinRightsStep(c: Config, outputs: Outputs, newRight: seq<JoinBatch>, left: seq<TimedBatch>)
    requires newRight != [] && JoinRights(c, outputs, newRight, left).Ok?
    ensures var before := JoinRights(c, outputs, newRight[..|newRight| - 1], left);
            && before.Ok?
            && JoinRights(c, outputs, newRight, left) == JoinStored(c, before.value, newRight[|newRight| - 1], left, false)
  {
  }

  lemma {:induction false} JoinLeftsCount(c: Config, newLeft: seq<JoinBatch>, right: seq<TimedBatch>, rights: seq<JoinBatch>, newRight: seq<JoinBatch>, p: Pair)
    requires Holds(c, right, rights) && JoinLefts(c, newLeft, right, newRight).Ok?
    ensures Emitted(JoinLefts(c, newLeft, right, newRight).value, p)
            == Meetings(c.matches, p, OccAll(newLeft, p.0), OccAll(rights, p.1))
               + Meetings(c.matches, p, OccAll(newLeft, p.0), OccAll(newRight, p.1))
  {
    if newLeft == [] {
      NoMeetings(c.matches, p, OccAll(rights, p.1));
      NoMeetings(c.matches, p, OccAll(newRight, p.1));
    } else {
      JoinLeftsStep(c, newLeft, right, newRight);
      JoinLeftsCount(c, newLeft[..|newLeft| - 1], right, rights, newRight, p);
      JoinLeftsCountMore(c, newLeft, right, rights, newRight, p);
    }
  }

  lemma {:induction false} JoinLeftsCountMore(c: Config, newLeft: seq<JoinBatch>, right: seq<TimedBatch>, rights: seq<JoinBatch>, newRight: seq<JoinBatch>, p: Pair)
    requires newLeft != [] && Holds(c, right, rights) && JoinLefts(c, newLeft, right, newRight).Ok?
    requires JoinLefts(c, newLeft[..|newLeft| - 1], right, newRight).Ok?
    requires var before := newLeft[..|newLeft| - 1];
             Emitted(JoinLefts(c, before, right, newRight).value, p)
             == Meetings(c.matches, p, OccAll(before, p.0), OccAll(rights, p.1))
                + Meetings(c.matches, p, OccAll(before, p.0), OccAll(newRight, p.1))
    ensures Emitted(JoinLefts(c, newLeft, right, newRight).value, p)
            == Meetings(c.matches, p, OccAll(newLeft, p.0), OccAll(rights, p.1))
               + Meetings(c.matches, p, OccAll(newLeft, p.0), OccAll(newRight, p.1))
  {
    var before, batch := newLeft[..|newLeft| - 1], newLeft[|newLeft| - 1];
    JoinLeftsStep(c, newLeft, right, newRight);
    OneLeftCount(c, JoinLefts(c, before, right, newRight).value, batch, right, rights, newRight, p);
    MeetingsOneMoreLeft(c.matches, p, newLeft, OccAll(rights, p.1));
    MeetingsOneMoreLeft(c.matches, p, newLeft, OccAll(newRight, p.1));
  }

  lemma {:induction false} MeetingsOneMoreLeft(matches: Matcher, p: Pair, lefts: seq<JoinBatch>, b: nat)
    requires lefts != []
    ensures var before, last := lefts[..|lefts| - 1], lefts[|lefts| - 1];
            Meetings(matches, p, OccAll(lefts, p.0), b)
            == Meetings(matches, p, OccAll(before, p.0), b) + Meetings(matches, p, Occ(last.rows, p.0), b)
  {
    var before, last := lefts[..|lefts| - 1], lefts[|lefts| - 1];
    MeetingsAddLeft(matches, p, OccAll(before, p.0), Occ(last.rows, p.0), b);
  }

  lemma {:induction false} MeetingsOneMoreRight(matches: Matcher, p: Pair, a: nat, rights: seq<JoinBatch>)
    requires rights != []
    ensures var before, last := rights[..|rights| - 1], rights[|rights| - 1];
            Meetings(matches, p, a, OccAll(rights, p.1))
            == Meetings(matches, p, a, OccAll(before, p.1)) + Meetings(matches, p, a, Occ(last.rows, p.1))
  {
    var before, last := rights[..|rights| - 1], rights[|rights| - 1];
    MeetingsAddRight(matches, p, a, OccAll(before, p.1), Occ(last.rows, p.1));
  }

  lemma {:induction false} JoinRightsCount(c: Config, outputs: Outputs, newRight: seq<JoinBatch>, left: seq<TimedBatch>, lefts: seq<JoinBatch>, p: Pair)
    requires Holds(c, left, lefts) && JoinRights(c, outputs, newRight, left).Ok?
    ensures Emitted(JoinRights(c, outputs, newRight, left).value, p)
            == Emitted(outputs, p) + Meetings(c.matches, p, OccAll(lefts, p.0), OccAll(newRight, p.1))
  {
    if newRight == [] {
      NoMeetings(c.matches, p, OccAll(lefts, p.0));
    } else {
      var before, batch := newRight[..|newRight| - 1], newRight[|newRight| - 1];
      JoinRightsStep(c, outputs, newRight, left);
      JoinRightsCount(c, outputs, before, left, lefts, p);
      JoinStoredCount(c, JoinRights(c, outputs, before, left).value, batch, left, lefts, false, p);
      MeetingsOneMoreRight(c.matches, p, OccAll(lefts, p.0), newRight);
    }
  }

  // --------------------------------------------------------------- whole runs

  function Run(c: Config, rounds: seq<Round>): Result<(State, Outputs), JoinError> {
    if rounds == [] then Ok((INITIAL, []))
    else
      var before :- Run(c, rounds[..|rounds| - 1]);
      var last :- Step(c, before.0, rounds[|rounds| - 1]);
      Ok((last.0, before.1 + last.1))
  }

  function Side(rounds: seq<Round>, isLeft: bool): (side: seq<seq<JoinBatch>>)
    ensures |side| == |rounds|
  {
    seq(|rounds|, k requires 0 <= k < |rounds| => if isLeft then rounds[k].left else rounds[k].right)
  }

  function Concat(side: seq<seq<JoinBatch>>): seq<JoinBatch> {
    if side == [] then [] else Concat(side[..|side| - 1]) + side[|side| - 1]
  }

  function MaxOver(from: Int64, batches: seq<JoinBatch>): (latest: Int64)
    ensures latest >= from
    ensures forall i :: 0 <= i < |batches| ==> MaxTimestamp(MIN_INT64, batches[i].rows) <= latest
  {
    if batches == [] then from
    else
      MaxTimestampFrom(MaxOver(from, batches[..|batches| - 1]), batches[|batches| - 1].rows);
      MaxTimestamp(MaxOver(from, batches[..|batches| - 1]), batches[|batches| - 1].rows)
  }

  lemma {:induction false} MaxTimestampFrom(from: Int64, rows: seq<JoinRow>)
    ensures MaxTimestamp(from, rows) == Later(from, MaxTimestamp(MIN_INT64, rows))
  {
    if rows != [] {
      MaxTimestampFrom(from, rows[..|rows| - 1]);
    }
  }

  /** The largest timestamp of every row that ever arrived on either side. */
  function StreamTime(rounds: seq<Round>): Int64 {
    if rounds == [] then MIN_INT64
    else MaxOver(MaxOver(StreamTime(rounds[..|rounds| - 1]), rounds[|rounds| - 1].left), rounds[|rounds| - 1].right)
  }

  lemma {:induction false} AdvanceIsMax(from: Int64, batches: seq<JoinBatch>)
    ensures AdvanceAll(from, batches).Ok? ==> AdvanceAll(from, batches).value == MaxOver(from, batches)
  {
    if batches != [] {
      AdvanceIsMax(from, batches[..|batches| - 1]);
    }
  }

  /** The batches that pruning at a cutoff leaves. */
  function Surviving(batches: seq<JoinBatch>, cutoff: Int64): seq<JoinBatch> {
    if batches == [] then []
    else
      var last := batches[|batches| - 1];
      Surviving(batches[..|batches| - 1], cutoff) + if MaxTimestamp(MIN_INT64, last.rows) >= cutoff then [last] else []
  }

  /** Pruned to any later cutoff, the store holds what survives of the history. */
  ghost predicate Remembers(c: Config, stored: seq<TimedBatch>, history: seq<JoinBatch>, from: Int64) {
    forall cutoff: Int64 :: cutoff >= from ==> Holds(c, Prune(stored, cutoff), Surviving(history, cutoff))
  }

  lemma {:induction false} PruneConcatenation(a: seq<TimedBatch>, b: seq<TimedBatch>, cutoff: Int64)
    ensures Prune(a + b, cutoff) == Prune(a, cutoff) + Prune(b, cutoff)
  {
    if b == [] {
      assert a + b == a;
    } else {
      assert (a + b)[..|a + b| - 1] == a + b[..|b| - 1];
      PruneConcatenation(a, b[..|b| - 1], cutoff);
    }
  }

  lemma {:induction false} SurvivingConcatenation(a: seq<JoinBatch>, b: seq<JoinBatch>, cutoff: Int64)
    ensures Surviving(a + b, cutoff) == Surviving(a, cutoff) + Surviving(b, cutoff)
  {
    if b == [] {
      assert a + b == a;
    } else {
      assert (a + b)[..|a + b| - 1] == a + b[..|b| - 1];
      SurvivingConcatenation(a, b[..|b| - 1], cutoff);
    }
  }

  lemma {:induction false} PruneOneMore(a: seq<TimedBatch>, x: TimedBatch, cutoff: Int64)
    ensures Prune(a + [x], cutoff) == Prune(a, cutoff) + if x.maxTimestamp >= cutoff then [x] else []
  {
    assert (a + [x])[..|a|] == a;
  }

  lemma {:induction false} PruneTwice(stored: seq<TimedBatch>, low: Int64, high: Int64)
    requires low <= high
    ensures Prune(Prune(stored, low), high) == Prune(stored, high)
  {
    if stored != [] {
      var before, last := stored[..|stored| - 1], stored[|stored| - 1];
      PruneTwice(before, low, high);
      PruneOneMore(Prune(before, low), last, high);
      assert Prune(before, low) + [] == Prune(before, low);
    }
  }

  lemma {:induction false} StoreAllAppends(c: Config, stored: seq<TimedBatch>, batches: seq<JoinBatch>)
    requires c.serde.Lossless() && StoreAll(c, stored, batches).Ok?
    ensures |StoreAll(c, stored, batches).value| == |stored| + |batches|
    ensures StoreAll(c, stored, batches).value[..|stored|] == stored
    ensures Holds(c, StoreAll(c, stored, batches).value[|stored|..], batches)
  {
    if batches != [] {
      var n := |batches| - 1;
      StoreAllAppends(c, stored, batches[..n]);
      var before, last := StoreAll(c, stored, batches[..n]).value, Store(c, batches[n]).value;
      assert HoldsBatch(c, last, batches[n]);
      assert (before + [last])[|stored|..] == before[|stored|..] + [last];
      assert batches == batches[..n] + [batches[n]];
    }
  }

  lemma {:induction false} HoldsOneMore(c: Config, stored: seq<TimedBatch>, batches: seq<JoinBatch>, x: TimedBatch, y: JoinBatch)
    requires Holds(c, stored, batches) && HoldsBatch(c, x, y)
    ensures Holds(c, stored + [x], batches + [y])
  {
  }

  lemma {:induction false} HoldsAfterPruning(c: Config, stored: seq<TimedBatch>, batches: seq<JoinBatch>, cutoff: Int64)
    requires Holds(c, stored, batches)
    ensures Holds(c, Prune(stored, cutoff), Surviving(batches, cutoff))
  {
    if stored != [] {
      var n := |stored| - 1;
      HoldsAfterPruning(c, stored[..n], batches[..n], cutoff);
      assert HoldsBatch(c, stored[n], batches[n]);
      assert stored == stored[..n] + [stored[n]] && batches == batches[..n] + [batches[n]];
      PruneOneMore(stored[..n], stored[n], cutoff);
      SurvivingOneMore(batches[..n], batches[n], cutoff);
      HoldsOneMore(c, Prune(stored[..n], cutoff), Surviving(batches[..n], cutoff), stored[n], batches[n]);
      assert Prune(stored[..n], cutoff) + [] == Prune(stored[..n], cutoff);
    }
  }

  lemma {:induction false} RememberMore(c: Config, stored: seq<TimedBatch>, history: seq<JoinBatch>, from: Int64, cutoff: Int64, batches: seq<JoinBatch>)
    requires c.serde.Lossless() && Remembers(c, stored, history, from) && from <= cutoff
    requires StoreAll(c, Prune(stored, cutoff), batches).Ok?
    ensures Remembers(c, StoreAll(c, Prune(stored, cutoff), batches).value, history + batches, cutoff)
  {
    var kept := Prune(stored, cutoff);
    var after := StoreAll(c, kept, batches).value;
    StoreAllAppends(c, kept, batches);
    var added := after[|kept|..];
    assert after == kept + added;
    forall later: Int64 | later >= cutoff ensures Holds(c, Prune(after, later), Surviving(history + batches, later)) {
      PruneConcatenation(kept, added, later);
      PruneTwice(stored, cutoff, later);
      HoldsAfterPruning(c, added, batches, later);
      SurvivingConcatenation(history, batches, later);
      assert Holds(c, Prune(stored, later), Surviving(history, later));
    }
  }

  /** The join has the stream time of its history and remembers both sides. */
  ghost predicate Recalls(c: Config, s: State, rounds: seq<Round>) {
    && s.streamTime == StreamTime(rounds)
    && Remembers(c, s.left, Concat(Side(rounds, true)), Cutoff(c, s.streamTime))
    && Remembers(c, s.right, Concat(Side(rounds, false)), Cutoff(c, s.streamTime))
  }

  /** The cutoff is the exact stream time minus the window, clamped to 64 bits. */
  lemma {:induction false} CutoffIsClamped(c: Config, streamTime: Int64)
    ensures Cutoff(c, streamTime) == Clamp(streamTime - c.window)
  {
    SaturatingSubtractClamps(streamTime, c.window);
  }

  /** A timestamp of one of the rows, or where there is none the lower bound given. */
  lemma {:induction false} MaxIsReached(from: Int64, rows: seq<JoinRow>)
    ensures MaxTimestamp(from, rows) == from || exists k :: 0 <= k < |rows| && rows[k].timestamp == MaxTimestamp(from, rows)
    ensures forall k :: 0 <= k < |rows| ==> rows[k].timestamp <= MaxTimestamp(from, rows)
  {
    if rows != [] {
      MaxIsReached(from, rows[..|rows| - 1]);
    }
  }

  ghost predicate IsIn(batches: seq<JoinBatch>, row: JoinRow) {
    exists m :: 0 <= m < |batches| && row in batches[m].rows
  }

  /** A row arrived on one of the sides in one of the rounds. */
  ghost predicate Arrived(rounds: seq<Round>, row: JoinRow) {
    exists k :: 0 <= k < |rounds| && (IsIn(rounds[k].left, row) || IsIn(rounds[k].right, row))
  }

  lemma {:induction false} IsInOneMore(batches: seq<JoinBatch>, row: JoinRow)
    requires batches != []
    ensures IsIn(batches, row) <==> IsIn(batches[..|batches| - 1], row) || row in batches[|batches| - 1].rows
  {
    var before, last := batches[..|batches| - 1], batches[|batches| - 1];
    if IsIn(before, row) {
      var m :| 0 <= m < |before| && row in before[m].rows;
      assert batches[m] == before[m];
    }
  }

  lemma {:induction false} ArrivedOneMore(rounds: seq<Round>, row: JoinRow)
    requires rounds != []
    ensures var before, last := rounds[..|rounds| - 1], rounds[|rounds| - 1];
            Arrived(rounds, row) <==> Arrived(before, row) || IsIn(last.left, row) || IsIn(last.right, row)
  {
    var before := rounds[..|rounds| - 1];
    if Arrived(before, row) {
      var k :| 0 <= k < |before| && (IsIn(before[k].left, row) || IsIn(before[k].right, row));
      assert rounds[k] == before[k];
    }
  }

  lemma {:induction false} MaxOverIsReached(from: Int64, batches: seq<JoinBatch>)
    ensures forall row :: IsIn(batches, row) ==> row.timestamp <= MaxOver(from, batches)
    ensures MaxOver(from, batches) == from || exists row :: IsIn(batches, row) && row.timestamp == MaxOver(from, batches)
  {
    if batches != [] {
      var before, last := batches[..|batches| - 1], batches[|batches| - 1];
      MaxOverIsReached(from, before);
      MaxIsReached(MaxOver(from, before), last.rows);
      forall row ensures IsIn(batches, row) <==> IsIn(before, row) || row in last.rows {
        IsInOneMore(batches, row);
      }
    }
  }

  /** Stream time is the latest timestamp of all rows that arrived on either side, and
      the least 64-bit number while none did. */
  lemma {:induction false} StreamTimeIsLatest(rounds: seq<Round>)
    ensures forall row :: Arrived(rounds, row) ==> row.timestamp <= StreamTime(rounds)
    ensures StreamTime(rounds) == MIN_INT64 || exists row :: Arrived(rounds, row) && row.timestamp == StreamTime(rounds)
  {
    if rounds != [] {
      var before, last := rounds[..|rounds| - 1], rounds[|rounds| - 1];
      StreamTimeIsLatest(before);
      MaxOverIsReached(StreamTime(before), last.left);
      MaxOverIsReached(MaxOver(StreamTime(before), last.left), last.right);
      forall row ensures Arrived(rounds, row) <==> Arrived(before, row) || IsIn(last.left, row) || IsIn(last.right, row) {
        ArrivedOneMore(rounds, row);
      }
    }
  }

  lemma {:induction false} CutoffIsMonotone(c: Config, a: Int64, b: Int64)
    requires a <= b
    ensures Cutoff(c, a) <= Cutoff(c, b)
  {
    SaturatingSubtractClamps(a, c.window);
    SaturatingSubtractClamps(b, c.window);
  }

  lemma {:induction false} ConcatOneMore(rounds: seq<Round>, isLeft: bool)
    requires rounds != []
    ensures var before, last := rounds[..|rounds| - 1], rounds[|rounds| - 1];
            Concat(Side(rounds, isLeft)) == Concat(Side(before, isLeft)) + if isLeft then last.left else last.right
  {
    assert Side(rounds, isLeft)[..|rounds| - 1] == Side(rounds[..|rounds| - 1], isLeft);
  }

  lemma {:induction false} StreamTimeStep(s: State, rounds: seq<Round>)
    requires rounds != [] && s.streamTime == StreamTime(rounds[..|rounds| - 1])
    requires StreamTimeAfter(s, rounds[|rounds| - 1]).Ok?
    ensures s.streamTime <= StreamTimeAfter(s, rounds[|rounds| - 1]).value == StreamTime(rounds)
  {
    var round := rounds[|rounds| - 1];
    AdvanceIsMax(s.streamTime, round.left);
    AdvanceIsMax(MaxOver(s.streamTime, round.left), round.right);
  }

  lemma {:induction false} StepRecalls(c: Config, s: State, rounds: seq<Round>)
    requires c.serde.Lossless() && rounds != [] && Recalls(c, s, rounds[..|rounds| - 1])
    requires Step(c, s, rounds[|rounds| - 1]).Ok?
    ensures Recalls(c, Step(c, s, rounds[|rounds| - 1]).value.0, rounds)
  {
    var before, round := rounds[..|rounds| - 1], rounds[|rounds| - 1];
    StreamTimeStep(s, rounds);
    CutoffIsMonotone(c, s.streamTime, StreamTime(rounds));
    RememberMore(c, s.left, Concat(Side(before, true)), Cutoff(c, s.streamTime), Cutoff(c, StreamTime(rounds)), round.left);
    RememberMore(c, s.right, Concat(Side(before, false)), Cutoff(c, s.streamTime), Cutoff(c, StreamTime(rounds)), round.right);
    ConcatOneMore(rounds, true);
    ConcatOneMore(rounds, false);
  }

  lemma {:induction false} RunRecalls(c: Config, rounds: seq<Round>)
    requires c.serde.Lossless() && Run(c, rounds).Ok?
    ensures Recalls(c, Run(c, rounds).value.0, rounds)
  {
    if rounds != [] {
      var before := rounds[..|rounds| - 1];
      RunRecalls(c, before);
      StepRecalls(c, Run(c, before).value.0, rounds);
    } else {
      assert forall cutoff: Int64 :: Prune([], cutoff) == [] && Surviving([], cutoff) == [];
    }
  }

  lemma {:induction false} HoldsTogether(c: Config, stored: seq<TimedBatch>, batches: seq<JoinBatch>, more: seq<TimedBatch>, others: seq<JoinBatch>)
    requires Holds(c, stored, batches) && Holds(c, more, others)
    ensures Holds(c, stored + more, batches + others)
  {
    forall i | 0 <= i < |stored + more| ensures HoldsBatch(c, (stored + more)[i], (batches + others)[i]) {
      if i < |stored| {
        assert HoldsBatch(c, stored[i], batches[i]);
      } else {
        assert HoldsBatch(c, more[i - |stored|], others[i - |stored|]);
      }
    }
  }

  lemma {:induction false} StoresMore(c: Config, stored: seq<TimedBatch>, history: seq<JoinBatch>, cutoff: Int64, batches: seq<JoinBatch>)
    requires c.serde.Lossless() && Remembers(c, stored, history, cutoff) && StoreAll(c, Prune(stored, cutoff), batches).Ok?
    ensures Holds(c, StoreAll(c, Prune(stored, cutoff), batches).value, Surviving(history, cutoff) + batches)
  {
    var kept := Prune(stored, cutoff);
    var after := StoreAll(c, kept, batches).value;
    StoreAllAppends(c, kept, batches);
    HoldsTogether(c, kept, Surviving(history, cutoff), after[|kept|..], batches);
    assert after == kept + after[|kept|..];
  }

  /** What a join stores after a run, side by side and in order: of the earlier rounds the
      batches with a timestamp at or above the exact stream time minus the window, and
      all of the last round; each under its latest timestamp. */
  lemma {:induction false} RunStores(c: Config, before: seq<Round>, round: Round)
    requires c.serde.Lossless() && Run(c, before + [round]).Ok?
    ensures var s, cutoff := Run(c, before + [round]).value.0, Clamp(StreamTime(before + [round]) - c.window);
            && s.streamTime == StreamTime(before + [round])
            && Holds(c, s.left, Surviving(Concat(Side(before, true)), cutoff) + round.left)
            && Holds(c, s.right, Surviving(Concat(Side(before, false)), cutoff) + round.right)
  {
    RunNext(c, before, round);
    RunRecalls(c, before + [round]);
    RunRecalls(c, before);
    StepStores(c, Run(c, before).value.0, before, round, Clamp(StreamTime(before + [round]) - c.window));
  }

  lemma {:induction false} RunNext(c: Config, before: seq<Round>, round: Round)
    requires Run(c, before + [round]).Ok?
    ensures Run(c, before).Ok? && Step(c, Run(c, before).value.0, round).Ok?
    ensures Run(c, before + [round]).value.0 == Step(c, Run(c, before).value.0, round).value.0
    ensures Run(c, before + [round]).value.1 == Run(c, before).value.1 + Step(c, Run(c, before).value.0, round).value.1
  {
    assert (before + [round])[..|before|] == before;
  }

  lemma {:induction false} StepStores(c: Config, s: State, before: seq<Round>, round: Round, cutoff: Int64)
    requires c.serde.Lossless() && Recalls(c, s, before) && Step(c, s, round).Ok?
    requires cutoff == Clamp(StreamTime(before + [round]) - c.window)
    ensures Holds(c, Step(c, s, round).value.0.left, Surviving(Concat(Side(before, true)), cutoff) + round.left)
    ensures Holds(c, Step(c, s, round).value.0.right, Surviving(Concat(Side(before, false)), cutoff) + round.right)
  {
    RemembersNext(c, s, before, round, cutoff);
    StoresMore(c, s.left, Concat(Side(before, true)), cutoff, round.left);
    StoresMore(c, s.right, Concat(Side(before, false)), cutoff, round.right);
  }

  /** Each batch with a timestamp at or above the cutoff, as a block of its own. */
  function SurvivorBlocks(batches: seq<JoinBatch>, cutoff: Int64): (blocks: seq<seq<JoinBatch>>)
    ensures |blocks| == |batches|
  {
    seq(|batches|, k requires 0 <= k < |batches| => if MaxTimestamp(MIN_INT64, batches[k].rows) >= cutoff then [batches[k]] else [])
  }

  /** Those are the batches that survive, in order. */
  lemma {:induction false} SurvivingIsSelection(batches: seq<JoinBatch>, cutoff: Int64)
    ensures IsConcatenation(SurvivorBlocks(batches, cutoff), Surviving(batches, cutoff))
  {
    if batches == [] {
      NoBlocks<JoinBatch>();
      assert SurvivorBlocks(batches, cutoff) == [];
    } else {
      var before, last := batches[..|batches| - 1], batches[|batches| - 1];
      SurvivingIsSelection(before, cutoff);
      var block := if MaxTimestamp(MIN_INT64, last.rows) >= cutoff then [last] else [];
      OneMoreBlock(SurvivorBlocks(before, cutoff), Surviving(before, cutoff), block);
      assert SurvivorBlocks(batches, cutoff) == SurvivorBlocks(before, cutoff) + [block];
    }
  }

  /** What a history has left is still remembered at the cutoff of the next round. */
  lemma {:induction false} RemembersNext(c: Config, s: State, before: seq<Round>, round: Round, cutoff: Int64)
    requires Recalls(c, s, before) && StreamTimeAfter(s, round).Ok? && cutoff == Clamp(StreamTime(before + [round]) - c.window)
    ensures cutoff == Cutoff(c, StreamTimeAfter(s, round).value)
    ensures Remembers(c, s.left, Concat(Side(before, true)), cutoff) && Remembers(c, s.right, Concat(Side(before, false)), cutoff)
  {
    var now := before + [round];
    assert now[..|now| - 1] == before;
    StreamTimeStep(s, now);
    CutoffIsClamped(c, StreamTime(now));
    CutoffIsMonotone(c, s.streamTime, StreamTime(now));
  }

  /** One round after any history emits each pair as often as its copies meet: new
      left rows with the surviving right rows and with the new right rows, and
      surviving left rows with the new right rows. */
  lemma {:induction false} RoundEmits(c: Config, s: State, before: seq<Round>, round: Round, cutoff: Int64, p: Pair)
    requires Recalls(c, s, before) && Step(c, s, round).Ok? && cutoff == Clamp(StreamTime(before + [round]) - c.window)
    ensures var oldLeft, oldRight := Surviving(Concat(Side(before, true)), cutoff), Surviving(Concat(Side(before, false)), cutoff);
            Emitted(Step(c, s, round).value.1, p)
            == Meetings(c.matches, p, OccAll(round.left, p.0), OccAll(oldRight, p.1))
               + Meetings(c.matches, p, OccAll(round.left, p.0), OccAll(round.right, p.1))
               + Meetings(c.matches, p, OccAll(oldLeft, p.0), OccAll(round.right, p.1))
  {
    RemembersNext(c, s, before, round, cutoff);
    StepEmits(c, s, round, Concat(Side(before, true)), Concat(Side(before, false)), cutoff, p);
  }

  lemma {:induction false} StepEmits(c: Config, s: State, round: Round, lefts: seq<JoinBatch>, rights: seq<JoinBatch>, cutoff: Int64, p: Pair)
    requires Step(c, s, round).Ok? && cutoff == Cutoff(c, StreamTimeAfter(s, round).value)
    requires Remembers(c, s.left, lefts, cutoff) && Remembers(c, s.right, rights, cutoff)
    ensures Emitted(Step(c, s, round).value.1, p)
            == Meetings(c.matches, p, OccAll(round.left, p.0), OccAll(Surviving(rights, cutoff), p.1))
               + Meetings(c.matches, p, OccAll(round.left, p.0), OccAll(round.right, p.1))
               + Meetings(c.matches, p, OccAll(Surviving(lefts, cutoff), p.0), OccAll(round.right, p.1))
  {
    var left, right := Prune(s.left, cutoff), Prune(s.right, cutoff);
    JoinLeftsCount(c, round.left, right, Surviving(rights, cutoff), round.right, p);
    JoinRightsCount(c, JoinLefts(c, round.left, right, round.right).value, round.right, left, Surviving(lefts, cutoff), p);
  }

  // ------------------------------------------------------------- exactly once

  /** A row that occurs once on its side, in one batch of one round. */
  ghost predicate OnlyAt(side: seq<seq<JoinBatch>>, x: JoinRow, round: nat, at: nat) {
    && round < |side|
    && at < |side[round]|
    && forall k, m :: 0 <= k < |side| && 0 <= m < |side[k]| ==>
                        Occ(side[k][m].rows, x) == if k == round && m == at then 1 else 0
  }

  lemma {:induction false} OccAllConcatenation(a: seq<JoinBatch>, b: seq<JoinBatch>, x: JoinRow)
    ensures OccAll(a + b, x) == OccAll(a, x) + OccAll(b, x)
  {
    if b == [] {
      assert a + b == a;
    } else {
      assert (a + b)[..|a + b| - 1] == a + b[..|b| - 1];
      OccAllConcatenation(a, b[..|b| - 1], x);
    }
  }

  lemma {:induction false} OccAllOneMore(batches: seq<JoinBatch>, last: JoinBatch, x: JoinRow)
    ensures OccAll(batches + [last], x) == OccAll(batches, x) + Occ(last.rows, x)
  {
    assert (batches + [last])[..|batches|] == batches;
  }

  lemma {:induction false} SurvivingOneMore(batches: seq<JoinBatch>, last: JoinBatch, cutoff: Int64)
    ensures Surviving(batches + [last], cutoff)
            == if MaxTimestamp(MIN_INT64, last.rows) >= cutoff then Surviving(batches, cutoff) + [last]
               else Surviving(batches, cutoff)
  {
    assert (batches + [last])[..|batches|] == batches;
    assert Surviving(batches, cutoff) + [] == Surviving(batches, cutoff);
  }

  /** A row that is in one batch of a list at most survives with that batch. */
  lemma {:induction false} SurvivingOnce(batches: seq<JoinBatch>, x: JoinRow, at: nat, cutoff: Int64)
    requires forall m :: 0 <= m < |batches| ==> Occ(batches[m].rows, x) == if m == at then 1 else 0
    ensures OccAll(batches, x) == if at < |batches| then 1 else 0
    ensures OccAll(Surviving(batches, cutoff), x)
            == if at < |batches| && MaxTimestamp(MIN_INT64, batches[at].rows) >= cutoff then 1 else 0
  {
    if batches != [] {
      var before, last := batches[..|batches| - 1], batches[|batches| - 1];
      SurvivingOnce(before, x, at, cutoff);
      assert batches == before + [last];
      OccAllOneMore(before, last, x);
      SurvivingOneMore(before, last, cutoff);
      OccAllOneMore(Surviving(before, cutoff), last, x);
    }
  }

  lemma {:induction false} ConcatPrefix(side: seq<seq<JoinBatch>>, n: nat)
    requires 0 < n <= |side|
    ensures Concat(side[..n]) == Concat(side[..n - 1]) + side[n - 1]
  {
    assert side[..n][..n - 1] == side[..n - 1];
  }

  lemma {:induction false} OldOccurrence(side: seq<seq<JoinBatch>>, x: JoinRow, round: nat, at: nat, n: nat, cutoff: Int64)
    requires OnlyAt(side, x, round, at) && n <= |side|
    ensures OccAll(Surviving(Concat(side[..n]), cutoff), x)
            == if round < n && MaxTimestamp(MIN_INT64, side[round][at].rows) >= cutoff then 1 else 0
  {
    if n > 0 {
      ConcatPrefix(side, n);
      OldOccurrence(side, x, round, at, n - 1, cutoff);
      SurvivingConcatenation(Concat(side[..n - 1]), side[n - 1], cutoff);
      OccAllConcatenation(Surviving(Concat(side[..n - 1]), cutoff), Surviving(side[n - 1], cutoff), x);
      SurvivingOnce(side[n - 1], x, if n - 1 == round then at else |side[n - 1]|, cutoff);
    }
  }

  lemma {:induction false} NewOccurrence(side: seq<seq<JoinBatch>>, x: JoinRow, round: nat, at: nat, n: nat)
    requires OnlyAt(side, x, round, at) && n < |side|
    ensures OccAll(side[n], x) == if n == round then 1 else 0
  {
    SurvivingOnce(side[n], x, if n == round then at else |side[n]|, MIN_INT64);
  }

  /** Two rows meet when they arrive in one round, or when the batch of the
      earlier one is still stored in the round of the later one. */
  predicate Meet(c: Config, rounds: seq<Round>, i: nat, a: nat, j: nat, b: nat)
    requires i < |rounds| && a < |rounds[i].left| && j < |rounds| && b < |rounds[j].right|
  {
    || i == j
    || (i < j && MaxTimestamp(MIN_INT64, rounds[i].left[a].rows) >= Clamp(StreamTime(rounds[..j + 1]) - c.window))
    || (j < i && MaxTimestamp(MIN_INT64, rounds[j].right[b].rows) >= Clamp(StreamTime(rounds[..i + 1]) - c.window))
  }

  lemma {:induction false} EmittedConcatenation(a: Outputs, b: Outputs, p: Pair)
    ensures Emitted(a + b, p) == Emitted(a, p) + Emitted(b, p)
  {
    if b == [] {
      assert a + b == a;
    } else {
      assert (a + b)[..|a + b| - 1] == a + b[..|b| - 1];
      EmittedConcatenation(a, b[..|b| - 1], p);
    }
  }

  lemma {:induction false} RunPrefix(c: Config, rounds: seq<Round>, n: nat)
    requires n <= |rounds| && Run(c, rounds).Ok?
    ensures Run(c, rounds[..n]).Ok?
  {
    if n < |rounds| {
      assert rounds[..|rounds| - 1][..n] == rounds[..n];
      RunPrefix(c, rounds[..|rounds| - 1], n);
    } else {
      assert rounds[..n] == rounds;
    }
  }

  lemma {:induction false} MeetOnce(matches: Matcher, p: Pair, a: nat, b: nat)
    requires a <= 1 && b <= 1
    ensures Meetings(matches, p, a, b) == if matches(p.0, p.1) && a == 1 && b == 1 then 1 else 0
  {
    MeetingsAreProducts(matches, p, a, b);
  }

  lemma {:induction false} SidePrefix(rounds: seq<Round>, n: nat, isLeft: bool)
    requires n <= |rounds|
    ensures Side(rounds[..n], isLeft) == Side(rounds, isLeft)[..n]
    ensures n < |rounds| ==> Side(rounds, isLeft)[n] == if isLeft then rounds[n].left else rounds[n].right
  {
  }

  /** Meetings of a round: new rows with what survives and with new rows. */
  function RoundMeetings(matches: Matcher, p: Pair, oldLeft: seq<JoinBatch>, newLeft: seq<JoinBatch>, oldRight: seq<JoinBatch>, newRight: seq<JoinBatch>): nat {
    Meetings(matches, p, OccAll(newLeft, p.0), OccAll(oldRight, p.1))
    + Meetings(matches, p, OccAll(newLeft, p.0), OccAll(newRight, p.1))
    + Meetings(matches, p, OccAll(oldLeft, p.0), OccAll(newRight, p.1))
  }

  lemma {:induction false} RunRoundEmits(c: Config, s: State, before: seq<Round>, round: Round, now: seq<Round>, cutoff: Int64, p: Pair)
    requires c.serde.Lossless() && Run(c, before).Ok? && s == Run(c, before).value.0 && Step(c, s, round).Ok?
    requires now == before + [round] && cutoff == Clamp(StreamTime(now) - c.window)
    ensures Emitted(Step(c, s, round).value.1, p)
            == RoundMeetings(c.matches, p, Surviving(Concat(Side(before, true)), cutoff), round.left,
                             Surviving(Concat(Side(before, false)), cutoff), round.right)
  {
    RunRecalls(c, before);
    RoundEmits(c, s, before, round, cutoff, p);
  }

  /** What the last round of a run adds to what was emitted of a pair. */
  lemma {:induction false} LastRoundEmits(c: Config, before: seq<Round>, round: Round, now: seq<Round>, cutoff: Int64, p: Pair)
    requires c.serde.Lossless() && now == before + [round] && Run(c, now).Ok? && cutoff == Clamp(StreamTime(now) - c.window)
    ensures Run(c, before).Ok?
    ensures Emitted(Run(c, now).value.1, p)
            == Emitted(Run(c, before).value.1, p) + RoundMeetings(c.matches, p, Surviving(Concat(Side(before, true)), cutoff), round.left,
                                                                  Surviving(Concat(Side(before, false)), cutoff), round.right)
  {
    RunNext(c, before, round);
    var s := Run(c, before).value.0;
    RunRoundEmits(c, s, before, round, now, cutoff, p);
    EmittedConcatenation(Run(c, before).value.1, Step(c, s, round).value.1, p);
  }

  ghost predicate IsCutoff(c: Config, rounds: seq<Round>, k: nat, cutoff: Int64)
    requires k < |rounds|
  {
    cutoff == Clamp(StreamTime(rounds[..k + 1]) - c.window)
  }

  ghost predicate AreCutoffs(c: Config, rounds: seq<Round>, cutoffs: seq<Int64>) {
    && |cutoffs| <= |rounds|
    && forall k: nat {:trigger IsCutoff(c, rounds, k, cutoffs[k])} :: k < |cutoffs| ==> IsCutoff(c, rounds, k, cutoffs[k])
  }

  /** The cutoffs of the rounds of a run, as `Meet` has them. */
  lemma {:induction false} CutoffsOf(c: Config, rounds: seq<Round>, n: nat) returns (cutoffs: seq<Int64>)
    requires n <= |rounds|
    ensures |cutoffs| == n && AreCutoffs(c, rounds, cutoffs)
  {
    cutoffs := [];
    if n > 0 {
      var before := CutoffsOf(c, rounds, n - 1);
      cutoffs := before + [Clamp(StreamTime(rounds[..n]) - c.window)];
      forall k: nat | k < n ensures IsCutoff(c, rounds, k, cutoffs[k]) {
        if k < n - 1 { assert IsCutoff(c, rounds, k, before[k]); }
      }
    }
  }

  predicate MeetUnder(cutoffs: seq<Int64>, rounds: seq<Round>, i: nat, a: nat, j: nat, b: nat)
    requires |cutoffs| == |rounds|
    requires i < |rounds| && a < |rounds[i].left| && j < |rounds| && b < |rounds[j].right|
  {
    || i == j
    || (i < j && MaxTimestamp(MIN_INT64, rounds[i].left[a].rows) >= cutoffs[j])
    || (j < i && MaxTimestamp(MIN_INT64, rounds[j].right[b].rows) >= cutoffs[i])
  }

  lemma {:induction false} MeetUnderCutoffs(c: Config, cutoffs: seq<Int64>, rounds: seq<Round>, i: nat, a: nat, j: nat, b: nat)
    requires |cutoffs| == |rounds| && AreCutoffs(c, rounds, cutoffs)
    requires i < |rounds| && a < |rounds[i].left| && j < |rounds| && b < |rounds[j].right|
    ensures MeetUnder(cutoffs, rounds, i, a, j, b) <==> Meet(c, rounds, i, a, j, b)
  {
    assert IsCutoff(c, rounds, i, cutoffs[i]) && IsCutoff(c, rounds, j, cutoffs[j]);
  }

  lemma {:induction false} OccurrencesMeetOnce(matches: Matcher, cutoffs: seq<Int64>, rounds: seq<Round>, n: nat, l: JoinRow, r: JoinRow, i: nat, a: nat, j: nat, b: nat)
    requires n < |rounds| == |cutoffs|
    requires OnlyAt(Side(rounds, true), l, i, a) && OnlyAt(Side(rounds, false), r, j, b)
    ensures var lefts, rights := Side(rounds[..n], true), Side(rounds[..n], false);
            RoundMeetings(matches, (l, r), Surviving(Concat(lefts), cutoffs[n]), rounds[n].left, Surviving(Concat(rights), cutoffs[n]), rounds[n].right)
            == if n == Max(i, j) && matches(l, r) && MeetUnder(cutoffs, rounds, i, a, j, b) then 1 else 0
  {
    var lefts, rights := Side(rounds, true), Side(rounds, false);
    SidePrefix(rounds, n, true);
    SidePrefix(rounds, n, false);
    OldOccurrence(lefts, l, i, a, n, cutoffs[n]);
    OldOccurrence(rights, r, j, b, n, cutoffs[n]);
    NewOccurrence(lefts, l, i, a, n);
    NewOccurrence(rights, r, j, b, n);
    ThreeMeetings(matches, (l, r), OccAll(lefts[n], l), OccAll(Surviving(Concat(lefts[..n]), cutoffs[n]), l),
                  OccAll(rights[n], r), OccAll(Surviving(Concat(rights[..n]), cutoffs[n]), r));
  }

  /** New copies meet old and new ones, old copies meet new ones. */
  lemma {:induction false} ThreeMeetings(matches: Matcher, p: Pair, newLeft: nat, oldLeft: nat, newRight: nat, oldRight: nat)
    requires newLeft + oldLeft <= 1 && newRight + oldRight <= 1
    ensures Meetings(matches, p, newLeft, oldRight) + Meetings(matches, p, newLeft, newRight) + Meetings(matches, p, oldLeft, newRight)
            == if matches(p.0, p.1) && newLeft + oldLeft == 1 && newRight + oldRight == 1 && (newLeft == 1 || newRight == 1) then 1 else 0
  {
    MeetOnce(matches, p, newLeft, oldRight);
    MeetOnce(matches, p, newLeft, newRight);
    MeetOnce(matches, p, oldLeft, newRight);
  }

  function Max(i: nat, j: nat): nat { if i < j then j else i }

  /** How often the first `k` rounds of a run emit a pair. */
  ghost function EmittedBy(c: Config, rounds: seq<Round>, k: nat, p: Pair): nat
    requires k <= |rounds|
  {
    match Run(c, rounds[..k])
    case Ok((_, outputs)) => Emitted(outputs, p)
    case Err(_) => 0
  }

  lemma {:induction false} RoundCounts(c: Config, rounds: seq<Round>, k: nat, cutoff: Int64, p: Pair)
    requires c.serde.Lossless() && k < |rounds| && Run(c, rounds).Ok? && IsCutoff(c, rounds, k, cutoff)
    ensures EmittedBy(c, rounds, k + 1, p)
            == EmittedBy(c, rounds, k, p) + RoundMeetings(c.matches, p, Surviving(Concat(Side(rounds[..k], true)), cutoff), rounds[k].left,
                                                          Surviving(Concat(Side(rounds[..k], false)), cutoff), rounds[k].right)
  {
    RunPrefix(c, rounds, k + 1);
    PrefixRoundEmits(c, rounds, k, rounds[..k], rounds[..k + 1], cutoff, p);
  }

  lemma {:induction false} PrefixRoundEmits(c: Config, rounds: seq<Round>, k: nat, before: seq<Round>, now: seq<Round>, cutoff: Int64, p: Pair)
    requires c.serde.Lossless() && k < |rounds| && before == rounds[..k] && now == rounds[..k + 1] && Run(c, now).Ok?
    requires cutoff == Clamp(StreamTime(now) - c.window)
    ensures Run(c, before).Ok?
    ensures Emitted(Run(c, now).value.1, p)
            == Emitted(Run(c, before).value.1, p) + RoundMeetings(c.matches, p, Surviving(Concat(Side(before, true)), cutoff), rounds[k].left,
                                                                  Surviving(Concat(Side(before, false)), cutoff), rounds[k].right)
  {
    assert now == before + [rounds[k]];
    LastRoundEmits(c, before, rounds[k], now, cutoff, p);
  }

  lemma {:induction false} RoundEmitsOnce(c: Config, rounds: seq<Round>, cutoffs: seq<Int64>, k: nat, l: JoinRow, r: JoinRow, i: nat, a: nat, j: nat, b: nat)
    requires c.serde.Lossless() && k < |rounds| == |cutoffs| && Run(c, rounds).Ok? && IsCutoff(c, rounds, k, cutoffs[k])
    requires OnlyAt(Side(rounds, true), l, i, a) && OnlyAt(Side(rounds, false), r, j, b)
    ensures EmittedBy(c, rounds, k + 1, (l, r))
            == EmittedBy(c, rounds, k, (l, r)) + if k == Max(i, j) && c.matches(l, r) && MeetUnder(cutoffs, rounds, i, a, j, b) then 1 else 0
  {
    RoundCounts(c, rounds, k, cutoffs[k], (l, r));
    OccurrencesMeetOnce(c.matches, cutoffs, rounds, k, l, r, i, a, j, b);
  }

  lemma {:induction false} NothingYet(c: Config, rounds: seq<Round>, p: Pair)
    ensures EmittedBy(c, rounds, 0, p) == 0
  {
    assert rounds[..0] == [];
  }

  lemma {:induction false} EmittedUpTo(c: Config, rounds: seq<Round>, cutoffs: seq<Int64>, n: nat, l: JoinRow, r: JoinRow, i: nat, a: nat, j: nat, b: nat)
    requires c.serde.Lossless() && n <= |rounds| == |cutoffs| && Run(c, rounds).Ok? && AreCutoffs(c, rounds, cutoffs)
    requires OnlyAt(Side(rounds, true), l, i, a) && OnlyAt(Side(rounds, false), r, j, b)
    ensures EmittedBy(c, rounds, n, (l, r)) == if Max(i, j) < n && c.matches(l, r) && MeetUnder(cutoffs, rounds, i, a, j, b) then 1 else 0
  {
    if n == 0 {
      NothingYet(c, rounds, (l, r));
    } else {
      EmittedUpTo(c, rounds, cutoffs, n - 1, l, r, i, a, j, b);
      assert IsCutoff(c, rounds, n - 1, cutoffs[n - 1]);
      RoundEmitsOnce(c, rounds, cutoffs, n - 1, l, r, i, a, j, b);
    }
  }

  /** Over a whole run a pair of rows is emitted exactly once when the keys match,
      the timestamps differ by the window at most and the two rows meet; in every
      other case it is never emitted. */
  lemma {:induction false} ExactlyOnce(c: Config, rounds: seq<Round>, l: JoinRow, r: JoinRow, i: nat, a: nat, j: nat, b: nat)
    requires c == ConfigOf(c.window, c.serde) && c.serde.Lossless() && Run(c, rounds).Ok?
    requires OnlyAt(Side(rounds, true), l, i, a) && OnlyAt(Side(rounds, false), r, j, b)
    ensures Emitted(Run(c, rounds).value.1, (l, r))
            == if && l.key != Null && r.key != Null && EncodeValue(l.key) == EncodeValue(r.key)
                  && Abs(l.timestamp - r.timestamp) <= c.window
                  && Meet(c, rounds, i, a, j, b)
               then 1 else 0
  {
    var cutoffs := CutoffsOf(c, rounds, |rounds|);
    EmittedUpTo(c, rounds, cutoffs, |rounds|, l, r, i, a, j, b);
    MeetUnderCutoffs(c, cutoffs, rounds, i, a, j, b);
    assert rounds[..|rounds|] == rounds;
    WithinWindowIsExact(c.window, l.timestamp, r.timestamp);
  }

  /** Pruning never costs a pair whose later row is as late as anything seen:
      the earlier row is then still stored. */
  lemma {:induction false} TimelyPairIsNotLost(c: Config, rounds: seq<Round>, l: JoinRow, r: JoinRow, i: nat, a: nat, j: nat, b: nat)
    requires OnlyAt(Side(rounds, true), l, i, a) && OnlyAt(Side(rounds, false), r, j, b)
    requires Abs(l.timestamp - r.timestamp) <= c.window
    requires i < j ==> r.timestamp == StreamTime(rounds[..j + 1])
    requires j < i ==> l.timestamp == StreamTime(rounds[..i + 1])
    ensures Meet(c, rounds, i, a, j, b)
  {
    OccursMeansMember(Side(rounds, true)[i][a].rows, l);
    OccursMeansMember(Side(rounds, false)[j][b].rows, r);
    if i < j {
      SaturatingSubtractClamps(StreamTime(rounds[..j + 1]), c.window);
    } else if j < i {
      SaturatingSubtractClamps(StreamTime(rounds[..i + 1]), c.window);
    }
  }

  lemma {:induction false} OccursMeansMember(rows: seq<JoinRow>, x: JoinRow)
    requires Occ(rows, x) > 0
    ensures MaxTimestamp(MIN_INT64, rows) >= x.timestamp
  {
    if rows[|rows| - 1] != x {
      OccursMeansMember(rows[..|rows| - 1], x);
    }
  }
}
