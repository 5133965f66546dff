/** The windowed group-by operator: its step over one batch, and the proof that
    any run of batches equals one grouping of the whole history. */
module GroupBy {
  import opened Wrappers
  import opened Machine
  import opened ByteCodec
  import opened ValueCodec
  import opened Aggregates
  import opened Grouping
  import opened Sequences

  /** `windowMillis` is zero for a grouping without windows. */
  datatype Config = Config(keyCount: nat, functions: seq<AggregateFunction>, windowMillis: Int64, retentionMillis: Int64) {
    predicate Windowed() { windowMillis > 0 }

    /** What the constructors of the operator accept. */
    predicate Legal() { windowMillis == 0 || 1 <= windowMillis <= retentionMillis }
  }

  datatype Row = Row(keys: seq<Value>, inputs: seq<Value>, timestamp: Option<Int64>)

  /** The rows of an Arrow batch, and which of the columns it has. */
  datatype Batch = Batch(rows: seq<Row>, hasTimestamp: bool, hasWindowColumns: bool, hasKeys: bool, hasInputs: bool)

  datatype State = State(table: Table, streamTime: Int64)

  const INITIAL := State(EMPTY, MIN_INT64)

  // ---------------------------------------------------------------- windows

  function WindowStart(c: Config, timestamp: Int64): Int64
    requires c.Windowed()
  {
    Wrap(FloorDiv(timestamp, c.windowMillis) * c.windowMillis)
  }

  function WindowEnd(c: Config, timestamp: Int64): Int64
    requires c.Windowed()
  {
    Wrap(WindowStart(c, timestamp) + c.windowMillis)
  }

  /** The computed bounds are those of the aligned window that holds the
      timestamp exactly when that window fits in the integer range. */
  lemma {:induction false} WindowHoldsTimestamp(c: Config, timestamp: Int64)
    requires c.Windowed()
    ensures var start := timestamp - timestamp % c.windowMillis;
            (WindowStart(c, timestamp) <= timestamp < WindowEnd(c, timestamp)
             && WindowEnd(c, timestamp) - WindowStart(c, timestamp) == c.windowMillis
             && WindowStart(c, timestamp) % c.windowMillis == 0)
            <==> MIN_INT64 <= start && start + c.windowMillis <= MAX_INT64
  {
    var w := c.windowMillis;
    var q := FloorDiv(timestamp, w);
    FloorDivIsFloor(timestamp, w);
    assert w * q == q * w;
    QuotientIsUnique(timestamp, w, q);
    assert q * w == timestamp - timestamp % w;
    MultipleHasNoRemainder(q, w);
  }

  lemma {:induction false} QuotientIsUnique(a: int, b: int, q: int)
    requires b > 0 && 0 <= a - b * q < b
    ensures a / b == q && a % b == a - b * q
  {
    var d := a / b - q;
    assert b * d == b * (a / b) - b * q;
    MultiplesAreSpread(b, d);
  }

  lemma {:induction false} MultiplesAreSpread(b: int, d: int)
    requires b > 0
    ensures (d >= 1 ==> b * d >= b) && (d <= -1 ==> b * d <= -b)
  {
  }

  lemma {:induction false} MultipleHasNoRemainder(q: int, w: int)
    requires w > 0
    ensures (q * w) % w == 0
  {
    assert w * q == q * w;
    QuotientIsUnique(q * w, w, q);
  }

  /** The oldest window end that is still retained. */
  function Cutoff(c: Config, streamTime: Int64): Int64 {
    if c.windowMillis == 0 || streamTime == MIN_INT64 then MIN_INT64
    else SaturatingSubtract(streamTime, c.retentionMillis)
  }

  lemma {:induction false} CutoffIsClamped(c: Config, streamTime: Int64)
    requires c.Legal() && c.Windowed()
    ensures Cutoff(c, streamTime) == Clamp(streamTime - c.retentionMillis)
  {
    SaturatingSubtractClamps(streamTime, c.retentionMillis);
  }

  lemma {:induction false} CutoffIsMonotone(c: Config, a: Int64, b: Int64)
    requires c.Legal() && a <= b
    ensures Cutoff(c, a) <= Cutoff(c, b)
  {
    if c.Windowed() {
      CutoffIsClamped(c, a);
      CutoffIsClamped(c, b);
    }
  }

  // ------------------------------------------------------------------- steps

  /** The window end among the parts of a key; a part of another type reads as
      zero, and a grouping without windows never closes a group. */
  function PartEnd(c: Config, parts: seq<Value>): Int64 {
    if !c.Windowed() then MAX_INT64
    else if c.keyCount + 1 < |parts| && parts[c.keyCount + 1].Sized? && parts[c.keyCount + 1].kind == Int64Kind
            && InInt64(parts[c.keyCount + 1].n) then parts[c.keyCount + 1].n
    else 0
  }

  function Nulls(n: nat): (r: seq<Value>)
    ensures |r| == n && forall i :: 0 <= i < n ==> r[i] == Null
  {
    seq(n, _ => Null)
  }

  function ShapeOf(c: Config): Shape {
    Shape(Nulls(|c.functions|),
          (aggregates, inputs) => AccumulateAll(aggregates, c.functions, inputs),
          parts => PartEnd(c, parts))
  }

  /** The parts of the key of a row: its key columns, then its window. */
  function KeyParts(c: Config, row: Row): Option<seq<Value>> {
    if !c.Windowed() then Some(row.keys)
    else
      match row.timestamp
      case None => None
      case Some(timestamp) =>
        Some(row.keys + [Long(WindowStart(c, timestamp)), Long(WindowEnd(c, timestamp))])
  }

  /** A row as an item of the grouping, unless windows need its missing timestamp. */
  function Place(c: Config, row: Row): Option<Item> {
    match KeyParts(c, row)
    case None => None
    case Some(parts) => Some(Item(EncodeKeyParts(parts), parts, row.inputs))
  }

  function PlaceAll(c: Config, rows: seq<Row>): (placed: seq<Option<Item>>)
    ensures |placed| == |rows|
  {
    seq(|rows|, i requires 0 <= i < |rows| => Place(c, rows[i]))
  }

  function LatestTimestamp(from: Int64, rows: seq<Row>): (latest: Int64)
    ensures latest >= from
    ensures forall i :: 0 <= i < |rows| && rows[i].timestamp.Some? ==> rows[i].timestamp.value <= latest
    ensures latest == from || exists i :: 0 <= i < |rows| && rows[i].timestamp == Some(latest)
  {
    if rows == [] then from
    else
      var before := LatestTimestamp(from, rows[..|rows| - 1]);
      match rows[|rows| - 1].timestamp
      case Some(timestamp) => Later(before, timestamp)
      case None => before
  }

  /** The stream time after some rows; only a windowed grouping advances it. */
  function Advance(c: Config, from: Int64, rows: seq<Row>): (time: Int64)
    ensures time >= from
  {
    if c.Windowed() then LatestTimestamp(from, rows) else from
  }

  /** Why a batch is refused whatever its rows hold. */
  function Refusal(c: Config, batch: Batch): Option<GroupError> {
    if c.keyCount == 0 then Some(NoKeyColumn)
    else if c.Windowed() && !batch.hasTimestamp then Some(MissingColumn)
    else if c.Windowed() && batch.hasWindowColumns then Some(WindowColumnExists)
    else if !batch.hasKeys || !batch.hasInputs then Some(MissingColumn)
    else None
  }

  function Step(c: Config, s: State, batch: Batch): (r: Result<State, GroupError>)
    requires Consistent(s.table)
    ensures r.Ok? ==> Consistent(r.value.table)
  {
    if Refusal(c, batch).Some? then Err(Refusal(c, batch).value)
    else
      var streamTime := Advance(c, s.streamTime, batch.rows);
      var cutoff := Cutoff(c, streamTime);
      var table :- AddPlaced(ShapeOf(c), Prune(ShapeOf(c), s.table, cutoff), PlaceAll(c, batch.rows), cutoff);
      Ok(State(table, streamTime))
  }

  function Run(c: Config, s: State, batches: seq<Batch>): (r: Result<State, GroupError>)
    requires Consistent(s.table)
    ensures r.Ok? ==> Consistent(r.value.table)
  {
    if batches == [] then Ok(s)
    else
      var before :- Run(c, s, batches[..|batches| - 1]);
      Step(c, before, batches[|batches| - 1])
  }

  /** The batch an operator forwards: one row for each group, in table order. */
  function Output(t: Table): seq<seq<Value>>
    requires Consistent(t)
  {
    seq(|t.order|, i requires 0 <= i < |t.order| => t.groups[t.order[i]].keyParts + t.groups[t.order[i]].aggregates)
  }

  /** Every row the batches carried, in order. */
  function History(batches: seq<Batch>): seq<Row> {
    if batches == [] then [] else History(batches[..|batches| - 1]) + batches[|batches| - 1].rows
  }

  // -------------------------------------------------------------- refinement

  /** What typed columns guarantee: each row has a value for each key, of a size
      the 32-bit lengths of the encoding can carry. */
  predicate Shaped(c: Config, row: Row) {
    |row.keys| == c.keyCount && AllWellFormed(row.keys) && |EncodeKeyParts(row.keys)| < TWO_32 - 18
  }

  predicate AllShaped(c: Config, rows: seq<Row>) { forall i :: 0 <= i < |rows| ==> Shaped(c, rows[i]) }

  lemma {:induction false} EncodeConcatenation(ps: seq<Value>, qs: seq<Value>)
    ensures EncodeKeyParts(ps + qs) == EncodeKeyParts(ps) + EncodeKeyParts(qs)
  {
    if ps == [] {
      assert ps + qs == qs;
    } else {
      assert (ps + qs)[1..] == ps[1..] + qs;
      EncodeConcatenation(ps[1..], qs);
    }
  }

  lemma {:induction false} LongTakes9(n: Int64)
    ensures |EncodeKeyParts([Long(n)])| == 9
  {
    assert EncodeKeyParts([Long(n)]) == EncodeValue(Long(n)) + EncodeKeyParts([]);
  }

  lemma {:induction false} TwoBoundsTake18(start: Int64, end: Int64)
    ensures |EncodeKeyParts([Long(start), Long(end)])| == 18
  {
    LongTakes9(start);
    LongTakes9(end);
    EncodeConcatenation([Long(start)], [Long(end)]);
    assert [Long(start)] + [Long(end)] == [Long(start), Long(end)];
  }

  /** Two rows share a group exactly when their keys normalise alike and they
      fall into the same window. */
  lemma {:induction false} SameGroup(c: Config, a: Row, b: Row)
    requires Shaped(c, a) && Shaped(c, b) && Place(c, a).Some? && Place(c, b).Some?
    ensures Place(c, a).value.key == Place(c, b).value.key <==>
              && NormaliseAll(a.keys) == NormaliseAll(b.keys)
              && (c.Windowed() ==>
                    && WindowStart(c, a.timestamp.value) == WindowStart(c, b.timestamp.value)
                    && WindowEnd(c, a.timestamp.value) == WindowEnd(c, b.timestamp.value))
  {
    if c.Windowed() {
      var (s, e) := (WindowStart(c, a.timestamp.value), WindowEnd(c, a.timestamp.value));
      var (s', e') := (WindowStart(c, b.timestamp.value), WindowEnd(c, b.timestamp.value));
      EncodeConcatenation(a.keys, [Long(s), Long(e)]);
      TwoBoundsTake18(s, e);
      KeyInjective(a.keys + [Long(s), Long(e)], b.keys + [Long(s'), Long(e')]);
      NormaliseBounds(a.keys, s, e, b.keys, s', e');
    } else {
      KeyInjective(a.keys, b.keys);
    }
  }

  lemma {:induction false} NormaliseBounds(a: seq<Value>, s: Int64, e: Int64, b: seq<Value>, s': Int64, e': Int64)
    requires |a| == |b|
    ensures NormaliseAll(a + [Long(s), Long(e)]) == NormaliseAll(b + [Long(s'), Long(e')])
            <==> NormaliseAll(a) == NormaliseAll(b) && s == s' && e == e'
  {
    var w, w' := [Long(s), Long(e)], [Long(s'), Long(e')];
    NormaliseConcatenation(a, w);
    NormaliseConcatenation(b, w');
    assert NormaliseAll(w) == w && NormaliseAll(w') == w';
    AppendInjective(NormaliseAll(a), w, NormaliseAll(b), w');
  }

  lemma {:induction false} PlacedAt(c: Config, rows: seq<Row>, i: nat)
    requires AllShaped(c, rows) && AllPlaced(PlaceAll(c, rows)) && i < |rows|
    ensures Shaped(c, rows[i]) && Place(c, rows[i]) == Some(Values(PlaceAll(c, rows))[i])
  {
    assert PlaceAll(c, rows)[i] == Place(c, rows[i]);
  }

  lemma {:induction false} SameWindow(c: Config, a: Row, b: Row)
    requires Shaped(c, a) && Shaped(c, b) && Place(c, a).Some? && Place(c, b).Some?
    requires Place(c, a).value.key == Place(c, b).value.key
    ensures PartEnd(c, Place(c, a).value.keyParts) == PartEnd(c, Place(c, b).value.keyParts)
  {
    SameGroup(c, a, b);
  }

  /** Because the key encoding is injective, rows of one key are in one window. */
  lemma {:induction false} PlacedRowsAreCoherent(c: Config, rows: seq<Row>)
    requires AllShaped(c, rows) && AllPlaced(PlaceAll(c, rows))
    ensures Coherent(ShapeOf(c), Values(PlaceAll(c, rows)))
  {
    var items := Values(PlaceAll(c, rows));
    forall a, b | a in items && b in items && a.key == b.key ensures PartEnd(c, a.keyParts) == PartEnd(c, b.keyParts) {
      var i :| 0 <= i < |items| && items[i] == a;
      var j :| 0 <= j < |items| && items[j] == b;
      PlacedAt(c, rows, i);
      PlacedAt(c, rows, j);
      SameWindow(c, rows[i], rows[j]);
    }
  }

  /** One pass over a whole history: group the rows of the windows that end at or
      after the clamped cutoff of its largest timestamp. */
  function OneShot(c: Config, rows: seq<Row>): (r: Result<Table, GroupError>)
    requires AllPlaced(PlaceAll(c, rows))
  {
    GroupItems(ShapeOf(c), EMPTY,
               Retained(ShapeOf(c), Values(PlaceAll(c, rows)), Cutoff(c, Advance(c, MIN_INT64, rows))))
  }

  /** A state that equals one pass over `rows`. */
  ghost predicate Refines(c: Config, rows: seq<Row>, s: State) {
    && AllPlaced(PlaceAll(c, rows))
    && s.streamTime == Advance(c, MIN_INT64, rows)
    && OneShot(c, rows) == Ok(s.table)
  }

  lemma {:induction false} LatestConcatenation(from: Int64, a: seq<Row>, b: seq<Row>)
    ensures LatestTimestamp(from, a + b) == LatestTimestamp(LatestTimestamp(from, a), b)
  {
    if b == [] {
      assert a + b == a;
    } else {
      assert (a + b)[..|a + b| - 1] == a + b[..|b| - 1];
      LatestConcatenation(from, a, b[..|b| - 1]);
    }
  }

  lemma {:induction false} PlaceConcatenation(c: Config, a: seq<Row>, b: seq<Row>)
    requires AllPlaced(PlaceAll(c, a)) && AllPlaced(PlaceAll(c, b))
    ensures AllPlaced(PlaceAll(c, a + b))
    ensures Values(PlaceAll(c, a + b)) == Values(PlaceAll(c, a)) + Values(PlaceAll(c, b))
  {
    var placed := PlaceAll(c, a + b);
    assert forall i :: 0 <= i < |placed| ==>
             placed[i] == if i < |a| then PlaceAll(c, a)[i] else PlaceAll(c, b)[i - |a|];
  }

  lemma {:induction false} StepRefines(c: Config, past: seq<Row>, s: State, batch: Batch)
    requires c.Legal() && AllShaped(c, past) && Refines(c, past, s)
    requires Consistent(s.table) && Step(c, s, batch).Ok?
    ensures Refines(c, past + batch.rows, Step(c, s, batch).value)
  {
    var s' := Step(c, s, batch).value;
    LatestConcatenation(MIN_INT64, past, batch.rows);
    assert s'.streamTime == Advance(c, MIN_INT64, past + batch.rows);
    CutoffIsMonotone(c, s.streamTime, s'.streamTime);
    PlacedRowsAreCoherent(c, past);
    StepIsFilter(ShapeOf(c), Values(PlaceAll(c, past)), s.table, PlaceAll(c, batch.rows),
                 Cutoff(c, s.streamTime), Cutoff(c, s'.streamTime));
    PlaceConcatenation(c, past, batch.rows);
  }

  /** The refinement: after any run of batches without an error, the groups, the
      aggregates, their order and the stream time are those of one pass over all
      rows ever seen. */
  lemma {:induction false} RunRefines(c: Config, batches: seq<Batch>)
    requires c.Legal() && AllShaped(c, History(batches)) && Run(c, INITIAL, batches).Ok?
    ensures Refines(c, History(batches), Run(c, INITIAL, batches).value)
  {
    if batches != [] {
      var earlier, batch := batches[..|batches| - 1], batches[|batches| - 1];
      assert forall i :: 0 <= i < |History(earlier)| ==> History(earlier)[i] == History(batches)[i];
      RunRefines(c, earlier);
      StepRefines(c, History(earlier), Run(c, INITIAL, earlier).value, batch);
    } else {
      assert Values(PlaceAll(c, [])) == [];
    }
  }

  /** How the rows were cut into batches does not matter. */
  lemma {:induction false} BatchingIsInvisible(c: Config, xs: seq<Batch>, ys: seq<Batch>)
    requires c.Legal() && AllShaped(c, History(xs)) && History(xs) == History(ys)
    requires Run(c, INITIAL, xs).Ok? && Run(c, INITIAL, ys).Ok?
    ensures Run(c, INITIAL, xs) == Run(c, INITIAL, ys)
  {
    RunRefines(c, xs);
    RunRefines(c, ys);
  }

  /** The column of values that one aggregate saw. */
  function Column(rows: seq<seq<Value>>, n: nat): seq<Value>
    requires forall i :: 0 <= i < |rows| ==> n < |rows[i]|
  {
    seq(|rows|, i requires 0 <= i < |rows| => rows[i][n])
  }

  lemma {:induction false} FoldInputsPointwise(c: Config, rows: seq<seq<Value>>, n: nat)
    requires FoldInputs(ShapeOf(c), rows).Ok? && n < |c.functions|
    ensures |FoldInputs(ShapeOf(c), rows).value| == |c.functions|
    ensures forall i :: 0 <= i < |rows| ==> n < |rows[i]|
    ensures Fold(c.functions[n], Column(rows, n)) == Ok(FoldInputs(ShapeOf(c), rows).value[n])
  {
    if rows != [] {
      var before, last := rows[..|rows| - 1], rows[|rows| - 1];
      FoldInputsPointwise(c, before, n);
      AccumulateFirstPointwise(FoldInputs(ShapeOf(c), before).value, c.functions, last, |c.functions|);
      assert Column(rows, n)[..|rows| - 1] == Column(before, n);
      assert rows == before + [last];
    }
  }

  /** A pruned window never comes back with part of its rows: the keys present are
      those of the retained windows, and each aggregate is the fold over every row
      of the history that has the key. */
  lemma {:induction false} NoPartialAggregates(c: Config, batches: seq<Batch>, k: Bytes, n: nat)
    requires c.Legal() && AllShaped(c, History(batches)) && Run(c, INITIAL, batches).Ok?
    requires n < |c.functions|
    ensures AllPlaced(PlaceAll(c, History(batches)))
    ensures var items, s := Values(PlaceAll(c, History(batches))), Run(c, INITIAL, batches).value;
            var inputs := InputsOf(items, k);
            && (k in s.table.groups <==>
                  First(items, k) < |items| && PartEnd(c, items[First(items, k)].keyParts) >= Cutoff(c, s.streamTime))
            && (k in s.table.groups ==>
                  && |s.table.groups[k].aggregates| == |c.functions|
                  && (forall i :: 0 <= i < |inputs| ==> n < |inputs[i]|)
                  && Fold(c.functions[n], Column(inputs, n)) == Ok(s.table.groups[k].aggregates[n]))
  {
    RunRefines(c, batches);
    var items, s := Values(PlaceAll(c, History(batches))), Run(c, INITIAL, batches).value;
    PlacedRowsAreCoherent(c, History(batches));
    NoPartialGroups(ShapeOf(c), items, Cutoff(c, s.streamTime), k);
    if k in s.table.groups {
      FoldInputsPointwise(c, InputsOf(items, k), n);
    }
  }
}
