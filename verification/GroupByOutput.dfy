/** What a group-by forwards, told by its history alone, and when it fails. */
module GroupByOutputs {
  import opened Wrappers
  import opened Machine
  import opened ByteCodec
  import opened ValueCodec
  import opened Aggregates
  import opened Grouping
  import opened GroupBy

  // ------------------------------------------------- first items and retention

  /** The first item of a retained key is still the first one of its key. */
  lemma {:induction false} RetainedFirst(h: Shape, items: seq<Item>, cutoff: Int64, k: Bytes)
    requires First(items, k) < |items| && h.endOf(items[First(items, k)].keyParts) >= cutoff
    ensures var kept := Retained(h, items, cutoff);
            First(kept, k) < |kept| && kept[First(kept, k)] == items[First(items, k)]
  {
    var before, last := items[..|items| - 1], items[|items| - 1];
    assert before + [last] == items;
    FirstAfterOneMore(before, last, k);
    RetainedOneMore(h, before, last, cutoff);
    FirstAfterOneMore(Retained(h, before, cutoff), last, k);
    if First(before, k) < |before| {
      RetainedFirst(h, before, cutoff, k);
    } else {
      RetainedMembers(h, before, cutoff);
      NotYet(before, k);
    }
  }

  lemma {:induction false} NotYet(items: seq<Item>, k: Bytes)
    requires First(items, k) == |items|
    ensures forall item :: item in items ==> item.key != k
  {
  }

  /** Retention keeps the order of first items. */
  lemma {:induction false} RetainedKeepsOrder(h: Shape, items: seq<Item>, cutoff: Int64, k: Bytes, k': Bytes)
    requires First(items, k) < |items| && h.endOf(items[First(items, k)].keyParts) >= cutoff
    requires First(items, k') < |items| && h.endOf(items[First(items, k')].keyParts) >= cutoff
    requires First(Retained(h, items, cutoff), k) < First(Retained(h, items, cutoff), k')
    ensures First(items, k) < First(items, k')
  {
    var before, last := items[..|items| - 1], items[|items| - 1];
    assert before + [last] == items;
    FirstAfterOneMore(before, last, k);
    FirstAfterOneMore(before, last, k');
    RetainedOneMore(h, before, last, cutoff);
    FirstAfterOneMore(Retained(h, before, cutoff), last, k);
    FirstAfterOneMore(Retained(h, before, cutoff), last, k');
    if First(before, k') < |before| {
      RetainedFirst(h, before, cutoff, k');
      if First(before, k) < |before| {
        RetainedFirst(h, before, cutoff, k);
        RetainedKeepsOrder(h, before, cutoff, k, k');
      } else {
        RetainedMembers(h, before, cutoff);
        NotYet(before, k);
      }
    }
  }

  // ----------------------------------------------------------- what is forwarded

  /** The window of a row is still retained at the latest timestamp of the history. */
  predicate InRetainedWindow(c: Config, rows: seq<Row>, row: Row) {
    c.Windowed() ==>
      && row.timestamp.Some?
      && WindowEnd(c, row.timestamp.value) >= Clamp(LatestTimestamp(MIN_INT64, rows) - c.retentionMillis)
  }

  /** A forwarded row: the key columns of the first row of its group, the bounds of its
      window, then each aggregate, folded over the inputs of every row of the group. */
  ghost predicate Tells(c: Config, first: Row, inputs: seq<seq<Value>>, out: seq<Value>) {
    var parts := if c.Windowed() then c.keyCount + 2 else c.keyCount;
    && |first.keys| == c.keyCount
    && |out| == parts + |c.functions|
    && (forall k :: 0 <= k < c.keyCount ==> out[k] == first.keys[k])
    && (c.Windowed() ==>
          && first.timestamp.Some?
          && out[c.keyCount] == Long(WindowStart(c, first.timestamp.value))
          && out[c.keyCount + 1] == Long(WindowEnd(c, first.timestamp.value)))
    && forall n :: 0 <= n < |c.functions| ==>
                     && (forall i :: 0 <= i < |inputs| ==> n < |inputs[i]|)
                     && Fold(c.functions[n], Column(inputs, n)) == Ok(out[parts + n])
  }

  lemma {:induction false} RetainedWindows(c: Config, rows: seq<Row>, at: nat)
    requires c.Legal() && AllShaped(c, rows) && AllPlaced(PlaceAll(c, rows)) && at < |rows|
    ensures PartEnd(c, Values(PlaceAll(c, rows))[at].keyParts) >= Cutoff(c, Advance(c, MIN_INT64, rows))
            <==> InRetainedWindow(c, rows, rows[at])
  {
    PlacedAt(c, rows, at);
    if c.Windowed() {
      CutoffIsClamped(c, LatestTimestamp(MIN_INT64, rows));
    }
  }

  /** What is forwarded after any batches, told by their rows alone: one row for each
      group whose window is retained, in the order in which the groups first appeared. */
  lemma {:induction false} OutputIsHistory(c: Config, batches: seq<Batch>)
    requires c.Legal() && AllShaped(c, History(batches)) && Run(c, INITIAL, batches).Ok?
    ensures AllPlaced(PlaceAll(c, History(batches)))
    ensures var rows, table := History(batches), Run(c, INITIAL, batches).value.table;
            var items, out := Values(PlaceAll(c, rows)), Output(table);
            && |out| == |table.order|
            && (forall k :: k in table.order <==> First(items, k) < |items| && InRetainedWindow(c, rows, rows[First(items, k)]))
            && (forall i, j :: 0 <= i < j < |out| ==> First(items, table.order[i]) < First(items, table.order[j]))
            && forall i :: 0 <= i < |out| ==> Tells(c, rows[First(items, table.order[i])], InputsOf(items, table.order[i]), out[i])
  {
    RunRefines(c, batches);
    var rows, table := History(batches), Run(c, INITIAL, batches).value.table;
    var items, cutoff := Values(PlaceAll(c, rows)), Cutoff(c, Advance(c, MIN_INT64, rows));
    GroupItemsGroups(ShapeOf(c), Retained(ShapeOf(c), items, cutoff));
    forall k ensures k in table.order <==> First(items, k) < |items| && InRetainedWindow(c, rows, rows[First(items, k)]) {
      PresentKeys(c, rows, table, k);
    }
    forall i, j | 0 <= i < j < |table.order| ensures First(items, table.order[i]) < First(items, table.order[j]) {
      RetainedWindows(c, rows, First(items, table.order[i]));
      RetainedWindows(c, rows, First(items, table.order[j]));
      RetainedKeepsOrder(ShapeOf(c), items, cutoff, table.order[i], table.order[j]);
    }
    forall i | 0 <= i < |table.order| ensures Tells(c, rows[First(items, table.order[i])], InputsOf(items, table.order[i]), Output(table)[i]) {
      RowTells(c, rows, table, table.order[i]);
    }
  }

  /** The table is the one-shot grouping of the rows. */
  ghost predicate IsTableOf(c: Config, rows: seq<Row>, table: Table) {
    c.Legal() && AllShaped(c, rows) && AllPlaced(PlaceAll(c, rows)) && OneShot(c, rows) == Ok(table)
  }

  lemma {:induction false} PresentKeys(c: Config, rows: seq<Row>, table: Table, k: Bytes)
    requires IsTableOf(c, rows, table)
    ensures Consistent(table)
    ensures var items := Values(PlaceAll(c, rows));
            k in table.order <==> First(items, k) < |items| && InRetainedWindow(c, rows, rows[First(items, k)])
  {
    var items, cutoff := Values(PlaceAll(c, rows)), Cutoff(c, Advance(c, MIN_INT64, rows));
    GroupItemsGroups(ShapeOf(c), Retained(ShapeOf(c), items, cutoff));
    PlacedRowsAreCoherent(c, rows);
    NoPartialGroups(ShapeOf(c), items, cutoff, k);
    if First(items, k) < |items| {
      RetainedWindows(c, rows, First(items, k));
    }
  }

  lemma {:induction false} RowTells(c: Config, rows: seq<Row>, table: Table, k: Bytes)
    requires IsTableOf(c, rows, table) && Consistent(table) && k in table.order
    ensures var items := Values(PlaceAll(c, rows));
            First(items, k) < |items|
            && Tells(c, rows[First(items, k)], InputsOf(items, k), table.groups[k].keyParts + table.groups[k].aggregates)
  {
    PartsTell(c, rows, table, k);
    AggregatesTell(c, rows, table, k);
  }

  lemma {:induction false} PartsTell(c: Config, rows: seq<Row>, table: Table, k: Bytes)
    requires IsTableOf(c, rows, table) && Consistent(table) && k in table.order
    ensures var first := First(Values(PlaceAll(c, rows)), k);
            first < |rows| && Shaped(c, rows[first]) && KeyParts(c, rows[first]) == Some(table.groups[k].keyParts)
  {
    var items, cutoff := Values(PlaceAll(c, rows)), Cutoff(c, Advance(c, MIN_INT64, rows));
    PresentKeys(c, rows, table, k);
    RetainedWindows(c, rows, First(items, k));
    RetainedFirst(ShapeOf(c), items, cutoff, k);
    GroupItemsGroups(ShapeOf(c), Retained(ShapeOf(c), items, cutoff));
    assert IsGroup(ShapeOf(c), Retained(ShapeOf(c), items, cutoff), k, table.groups[k]);
    PlacedAt(c, rows, First(items, k));
  }

  lemma {:induction false} AggregatesTell(c: Config, rows: seq<Row>, table: Table, k: Bytes)
    requires IsTableOf(c, rows, table) && Consistent(table) && k in table.order
    ensures var inputs := InputsOf(Values(PlaceAll(c, rows)), k);
            && |table.groups[k].aggregates| == |c.functions|
            && forall n :: 0 <= n < |c.functions| ==>
                             && (forall i :: 0 <= i < |inputs| ==> n < |inputs[i]|)
                             && Fold(c.functions[n], Column(inputs, n)) == Ok(table.groups[k].aggregates[n])
  {
    var items, cutoff := Values(PlaceAll(c, rows)), Cutoff(c, Advance(c, MIN_INT64, rows));
    PlacedRowsAreCoherent(c, rows);
    NoPartialGroups(ShapeOf(c), items, cutoff, k);
    FoldTells(c, InputsOf(items, k), table.groups[k].aggregates);
  }

  lemma {:induction false} FoldTells(c: Config, inputs: seq<seq<Value>>, aggregates: seq<Value>)
    requires FoldInputs(ShapeOf(c), inputs) == Ok(aggregates)
    ensures |aggregates| == |c.functions|
    ensures forall n :: 0 <= n < |c.functions| ==>
                          && (forall i :: 0 <= i < |inputs| ==> n < |inputs[i]|)
                          && Fold(c.functions[n], Column(inputs, n)) == Ok(aggregates[n])
  {
    FoldedLength(c, inputs);
    forall n | 0 <= n < |c.functions|
      ensures forall i :: 0 <= i < |inputs| ==> n < |inputs[i]|
      ensures Fold(c.functions[n], Column(inputs, n)) == Ok(aggregates[n])
    {
      FoldInputsPointwise(c, inputs, n);
    }
  }

  lemma {:induction false} FoldedLength(c: Config, inputs: seq<seq<Value>>)
    requires FoldInputs(ShapeOf(c), inputs).Ok?
    ensures |FoldInputs(ShapeOf(c), inputs).value| == |c.functions|
  {
    if inputs != [] {
      FoldedLength(c, inputs[..|inputs| - 1]);
    }
  }

  // ------------------------------------------------------------ when it succeeds

  /** Inputs of one group can be aggregated: each row has a value for every function
      and each column folds. */
  ghost predicate Foldable(c: Config, inputs: seq<seq<Value>>) {
    && (forall i :: 0 <= i < |inputs| ==> |inputs[i]| == |c.functions|)
    && forall n :: 0 <= n < |c.functions| ==> Fold(c.functions[n], Column(inputs, n)).Ok?
  }

  lemma {:induction false} ColumnOneMore(inputs: seq<seq<Value>>, n: nat)
    requires inputs != [] && forall i :: 0 <= i < |inputs| ==> n < |inputs[i]|
    ensures Column(inputs, n)[..|inputs| - 1] == Column(inputs[..|inputs| - 1], n)
  {
  }

  lemma {:induction false} AccumulateFirstSucceeds(us: seq<Value>, fns: seq<AggregateFunction>, xs: seq<Value>, n: nat)
    requires n <= |us| == |fns| == |xs|
    ensures AccumulateFirst(us, fns, xs, n).Ok? <==> forall i :: 0 <= i < n ==> Accumulate(us[i], fns[i], xs[i]).Ok?
  {
    if n > 0 {
      AccumulateFirstSucceeds(us, fns, xs, n - 1);
    }
  }

  lemma {:induction false} FoldInputsSucceeds(c: Config, inputs: seq<seq<Value>>)
    ensures FoldInputs(ShapeOf(c), inputs).Ok? <==> Foldable(c, inputs)
  {
    if inputs != [] {
      FoldInputsSucceeds(c, inputs[..|inputs| - 1]);
      if Foldable(c, inputs) { FoldablePrefix(c, inputs); }
      if Foldable(c, inputs[..|inputs| - 1]) && |inputs[|inputs| - 1]| == |c.functions| { FoldableMore(c, inputs); }
    }
  }

  lemma {:induction false} FoldableMore(c: Config, inputs: seq<seq<Value>>)
    requires inputs != [] && |inputs[|inputs| - 1]| == |c.functions|
    requires Foldable(c, inputs[..|inputs| - 1]) && FoldInputs(ShapeOf(c), inputs[..|inputs| - 1]).Ok?
    ensures Foldable(c, inputs) <==> FoldInputs(ShapeOf(c), inputs).Ok?
  {
    var before, last := inputs[..|inputs| - 1], inputs[|inputs| - 1];
    FoldedLength(c, before);
    var us := FoldInputs(ShapeOf(c), before).value;
    AccumulateFirstSucceeds(us, c.functions, last, |c.functions|);
    forall i | 0 <= i < |inputs| ensures |inputs[i]| == |c.functions| {
      assert i < |before| ==> inputs[i] == before[i];
    }
    forall n | 0 <= n < |c.functions| ensures Fold(c.functions[n], Column(inputs, n)) == Accumulate(us[n], c.functions[n], last[n]) {
      FoldInputsPointwise(c, before, n);
      ColumnOneMore(inputs, n);
    }
  }

  lemma {:induction false} FoldablePrefix(c: Config, inputs: seq<seq<Value>>)
    requires inputs != [] && Foldable(c, inputs)
    ensures Foldable(c, inputs[..|inputs| - 1]) && |inputs[|inputs| - 1]| == |c.functions|
  {
    forall n | 0 <= n < |c.functions| ensures Fold(c.functions[n], Column(inputs[..|inputs| - 1], n)).Ok? {
      ColumnOneMore(inputs, n);
      assert Fold(c.functions[n], Column(inputs, n)).Ok?;
    }
  }

  lemma {:induction false} LastItemSucceeds(h: Shape, before: seq<Item>, last: Item)
    requires GroupItems(h, EMPTY, before).Ok?
    ensures GroupItems(h, EMPTY, before + [last]).Ok? <==> FoldInputs(h, InputsOf(before + [last], last.key)).Ok?
  {
    GroupItemsGroups(h, before);
    GroupOneMore(h, EMPTY, before, last);
    InputsAfterOneMore(before, last, last.key);
    var t := GroupItems(h, EMPTY, before).value;
    if last.key in t.groups {
      assert IsGroup(h, before, last.key, t.groups[last.key]);
    } else {
      InputsOfAbsentKey(before, last.key);
    }
    FoldOneMore(h, InputsOf(before, last.key), last.inputs);
  }

  ghost predicate KeyFolds(h: Shape, items: seq<Item>, k: Bytes) { FoldInputs(h, InputsOf(items, k)).Ok? }

  lemma {:induction false} KeyFoldsMore(h: Shape, before: seq<Item>, last: Item, k: Bytes)
    ensures k != last.key ==> (KeyFolds(h, before + [last], k) <==> KeyFolds(h, before, k))
    ensures KeyFolds(h, before + [last], k) ==> KeyFolds(h, before, k)
  {
    InputsAfterOneMore(before, last, k);
    assert InputsOf(before, k) + [] == InputsOf(before, k);
    if last.key == k {
      assert (InputsOf(before, k) + [last.inputs])[..|InputsOf(before, k)|] == InputsOf(before, k);
    }
  }

  /** A grouping succeeds if and only if the inputs of each key can be folded. */
  lemma {:induction false} GroupItemsSucceeds(h: Shape, items: seq<Item>)
    ensures GroupItems(h, EMPTY, items).Ok? <==> forall k :: KeyFolds(h, items, k)
  {
    if items != [] {
      var before, last := items[..|items| - 1], items[|items| - 1];
      assert before + [last] == items;
      GroupItemsSucceeds(h, before);
      forall k ensures (k != last.key ==> (KeyFolds(h, items, k) <==> KeyFolds(h, before, k))) && (KeyFolds(h, items, k) ==> KeyFolds(h, before, k)) {
        KeyFoldsMore(h, before, last, k);
      }
      if GroupItems(h, EMPTY, before).Ok? {
        LastItemSucceeds(h, before, last);
        assert KeyFolds(h, items, last.key) <==> FoldInputs(h, InputsOf(items, last.key)).Ok?;
      }
    } else {
      forall k ensures KeyFolds(h, items, k) {
      }
    }
  }

  lemma {:induction false} AddPlacedSucceeds(h: Shape, t: Table, rows: seq<Option<Item>>, cutoff: Int64)
    ensures AddPlaced(h, t, rows, cutoff).Ok? <==> AllPlaced(rows) && GroupItems(h, t, Retained(h, Values(rows), cutoff)).Ok?
  {
    if rows != [] {
      var before, last := rows[..|rows| - 1], rows[|rows| - 1];
      AddPlacedSucceeds(h, t, before, cutoff);
      assert before + [last] == rows;
      if AllPlaced(rows) {
        ValuesOneMore(before, last.value);
        RetainedOneMore(h, Values(before), last.value, cutoff);
        if AddPlaced(h, t, before, cutoff).Ok? {
          AddPlacedIsGroupItems(h, t, before, cutoff);
          GroupOneMore(h, t, Retained(h, Values(before), cutoff), last.value);
        } else {
          assert (Retained(h, Values(before), cutoff) + [last.value])[..|Retained(h, Values(before), cutoff)|] == Retained(h, Values(before), cutoff);
        }
      } else if last.Some? {
        assert !AllPlaced(before);
      }
    }
  }

  lemma {:induction false} PlacedExactly(c: Config, rows: seq<Row>)
    ensures AllPlaced(PlaceAll(c, rows)) <==> (c.Windowed() ==> forall i :: 0 <= i < |rows| ==> rows[i].timestamp.Some?)
  {
    forall i | 0 <= i < |rows| ensures PlaceAll(c, rows)[i].Some? <==> (c.Windowed() ==> rows[i].timestamp.Some?) {
      assert PlaceAll(c, rows)[i] == Place(c, rows[i]);
    }
    if c.Windowed() && AllPlaced(PlaceAll(c, rows)) {
      forall i | 0 <= i < |rows| ensures rows[i].timestamp.Some? {
        assert PlaceAll(c, rows)[i].Some?;
      }
    }
  }

  /** What a batch needs whatever the state: its columns, and timestamps for windows. */
  ghost predicate IsComplete(c: Config, batch: Batch) {
    && c.keyCount > 0 && batch.hasKeys && batch.hasInputs
    && (c.Windowed() ==> batch.hasTimestamp && !batch.hasWindowColumns && forall i :: 0 <= i < |batch.rows| ==> batch.rows[i].timestamp.Some?)
  }

  /** A batch after some rows can be taken in: it has the columns it needs, each row has
      the timestamp its window needs, and in every retained window the inputs of each
      group so far can be folded. What closed windows hold does not matter. */
  ghost predicate CanTake(c: Config, past: seq<Row>, batch: Batch) {
    var rows := past + batch.rows;
    && IsComplete(c, batch)
    && AllPlaced(PlaceAll(c, rows))
    && forall k :: RetainedFolds(c, rows, k)
  }

  ghost predicate KeyRetained(c: Config, rows: seq<Row>, k: Bytes)
    requires AllPlaced(PlaceAll(c, rows))
  {
    var items := Values(PlaceAll(c, rows));
    First(items, k) < |items| && InRetainedWindow(c, rows, rows[First(items, k)])
  }

  ghost predicate RetainedFolds(c: Config, rows: seq<Row>, k: Bytes)
    requires AllPlaced(PlaceAll(c, rows))
  {
    KeyRetained(c, rows, k) ==> Foldable(c, InputsOf(Values(PlaceAll(c, rows)), k))
  }

  lemma {:induction false} RetainedFoldable(c: Config, rows: seq<Row>, cutoff: Int64)
    requires c.Legal() && AllShaped(c, rows) && AllPlaced(PlaceAll(c, rows)) && cutoff == Cutoff(c, Advance(c, MIN_INT64, rows))
    ensures GroupItems(ShapeOf(c), EMPTY, Retained(ShapeOf(c), Values(PlaceAll(c, rows)), cutoff)).Ok?
            <==> forall k :: RetainedFolds(c, rows, k)
  {
    var h, items := ShapeOf(c), Values(PlaceAll(c, rows));
    GroupItemsSucceeds(h, Retained(h, items, cutoff));
    forall k ensures KeyFolds(h, Retained(h, items, cutoff), k) <==> RetainedFolds(c, rows, k) {
      RetainedKeyFolds(c, rows, cutoff, k);
    }
  }

  lemma {:induction false} RetainedKeyFolds(c: Config, rows: seq<Row>, cutoff: Int64, k: Bytes)
    requires c.Legal() && AllShaped(c, rows) && AllPlaced(PlaceAll(c, rows)) && cutoff == Cutoff(c, Advance(c, MIN_INT64, rows))
    ensures KeyFolds(ShapeOf(c), Retained(ShapeOf(c), Values(PlaceAll(c, rows)), cutoff), k) <==> RetainedFolds(c, rows, k)
  {
    RetainedInputs(c, rows, cutoff, k);
    FoldInputsSucceeds(c, InputsOf(Values(PlaceAll(c, rows)), k));
  }

  lemma {:induction false} RetainedInputs(c: Config, rows: seq<Row>, cutoff: Int64, k: Bytes)
    requires c.Legal() && AllShaped(c, rows) && AllPlaced(PlaceAll(c, rows)) && cutoff == Cutoff(c, Advance(c, MIN_INT64, rows))
    ensures InputsOf(Retained(ShapeOf(c), Values(PlaceAll(c, rows)), cutoff), k)
            == if KeyRetained(c, rows, k) then InputsOf(Values(PlaceAll(c, rows)), k) else []
  {
    var h, items := ShapeOf(c), Values(PlaceAll(c, rows));
    PlacedRowsAreCoherent(c, rows);
    if First(items, k) < |items| {
      RetainedWindows(c, rows, First(items, k));
    }
    if KeyRetained(c, rows, k) {
      InputsIgnoreOtherWindows(h, items, k, cutoff);
    } else {
      RetainedMembers(h, items, cutoff);
      InputsOfAbsentKey(Retained(h, items, cutoff), k);
    }
  }

  lemma {:induction false} StepSucceeds(c: Config, past: seq<Row>, s: State, batch: Batch)
    requires c.Legal() && AllShaped(c, past + batch.rows) && Refines(c, past, s) && Consistent(s.table)
    ensures Step(c, s, batch).Ok? <==> CanTake(c, past, batch)
  {
    PlacedExactly(c, batch.rows);
    if IsComplete(c, batch) {
      PlaceConcatenation(c, past, batch.rows);
      LatestConcatenation(MIN_INT64, past, batch.rows);
      CompleteStepSucceeds(c, past, s, batch, Cutoff(c, Advance(c, s.streamTime, batch.rows)));
    } else {
      IncompleteStepFails(c, s, batch);
    }
  }

  lemma {:induction false} IncompleteStepFails(c: Config, s: State, batch: Batch)
    requires !IsComplete(c, batch) && Consistent(s.table)
    ensures Step(c, s, batch).Err?
  {
    PlacedExactly(c, batch.rows);
    if Refusal(c, batch).None? {
      var cutoff := Cutoff(c, Advance(c, s.streamTime, batch.rows));
      AddPlacedSucceeds(ShapeOf(c), Prune(ShapeOf(c), s.table, cutoff), PlaceAll(c, batch.rows), cutoff);
    }
  }

  lemma {:induction false} CompleteStepSucceeds(c: Config, past: seq<Row>, s: State, batch: Batch, cutoff: Int64)
    requires c.Legal() && AllShaped(c, past + batch.rows) && Refines(c, past, s) && Consistent(s.table)
    requires IsComplete(c, batch) && AllPlaced(PlaceAll(c, batch.rows)) && AllPlaced(PlaceAll(c, past + batch.rows))
    requires cutoff == Cutoff(c, Advance(c, s.streamTime, batch.rows)) == Cutoff(c, Advance(c, MIN_INT64, past + batch.rows))
    ensures Step(c, s, batch).Ok?
            <==> forall k :: RetainedFolds(c, past + batch.rows, k)
  {
    CutoffIsMonotone(c, s.streamTime, Advance(c, s.streamTime, batch.rows));
    AddPlacedSucceeds(ShapeOf(c), Prune(ShapeOf(c), s.table, cutoff), PlaceAll(c, batch.rows), cutoff);
    NextTable(c, past, s, batch, cutoff);
    RetainedFoldable(c, past + batch.rows, cutoff);
  }

  lemma {:induction false} NextTable(c: Config, past: seq<Row>, s: State, batch: Batch, cutoff: Int64)
    requires c.Legal() && AllShaped(c, past + batch.rows) && Refines(c, past, s) && Consistent(s.table)
    requires AllPlaced(PlaceAll(c, batch.rows)) && cutoff >= Cutoff(c, s.streamTime)
    ensures AllPlaced(PlaceAll(c, past + batch.rows))
    ensures GroupItems(ShapeOf(c), EMPTY, Retained(ShapeOf(c), Values(PlaceAll(c, past + batch.rows)), cutoff))
            == GroupItems(ShapeOf(c), Prune(ShapeOf(c), s.table, cutoff), Retained(ShapeOf(c), Values(PlaceAll(c, batch.rows)), cutoff))
  {
    var h, before, added := ShapeOf(c), Values(PlaceAll(c, past)), Values(PlaceAll(c, batch.rows));
    PlaceConcatenation(c, past, batch.rows);
    assert forall i :: 0 <= i < |past| ==> past[i] == (past + batch.rows)[i];
    PlacedRowsAreCoherent(c, past);
    RetainedMembers(h, before, Cutoff(c, s.streamTime));
    PruneIsFilter(h, Retained(h, before, Cutoff(c, s.streamTime)), cutoff);
    RetainedTwice(h, before, Cutoff(c, s.streamTime), cutoff);
    RetainedConcatenation(h, before, added, cutoff);
    GroupConcatenation(h, EMPTY, Retained(h, before, cutoff), Retained(h, added, cutoff));
  }

  ghost predicate CanTakeAt(c: Config, batches: seq<Batch>, m: nat)
    requires m < |batches|
  {
    CanTake(c, History(batches[..m]), batches[m])
  }

  lemma {:induction false} CanTakePrefix(c: Config, batches: seq<Batch>, m: nat)
    requires m < |batches| - 1
    ensures CanTakeAt(c, batches, m) <==> CanTakeAt(c, batches[..|batches| - 1], m)
  {
    assert batches[..|batches| - 1][..m] == batches[..m];
  }

  lemma {:induction false} CanTakeAll(c: Config, batches: seq<Batch>)
    requires batches != []
    ensures var earlier := batches[..|batches| - 1];
            (forall m :: 0 <= m < |batches| ==> CanTakeAt(c, batches, m))
            <==> (forall m :: 0 <= m < |earlier| ==> CanTakeAt(c, earlier, m)) && CanTake(c, History(earlier), batches[|earlier|])
  {
    var earlier := batches[..|batches| - 1];
    forall m | 0 <= m < |earlier| ensures CanTakeAt(c, batches, m) <==> CanTakeAt(c, earlier, m) {
      CanTakePrefix(c, batches, m);
    }
    assert CanTakeAt(c, batches, |earlier|) <==> CanTake(c, History(earlier), batches[|earlier|]);
  }

  /** A run succeeds if and only if each of its batches can be taken in after the rows
      before it. */
  lemma {:induction false} RunSucceeds(c: Config, batches: seq<Batch>)
    requires c.Legal() && AllShaped(c, History(batches))
    ensures Run(c, INITIAL, batches).Ok?
            <==> forall m :: 0 <= m < |batches| ==> CanTakeAt(c, batches, m)
  {
    if batches != [] {
      var earlier, batch := batches[..|batches| - 1], batches[|batches| - 1];
      assert forall i :: 0 <= i < |History(earlier)| ==> History(earlier)[i] == History(batches)[i];
      RunSucceeds(c, earlier);
      CanTakeAll(c, batches);
      if Run(c, INITIAL, earlier).Ok? {
        RunRefines(c, earlier);
        StepSucceeds(c, History(earlier), Run(c, INITIAL, earlier).value, batch);
      }
    }
  }
}
