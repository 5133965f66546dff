/** The group-by operator as it runs: one object that is updated batch by batch,
    written to a snapshot and filled from one. */
module GroupByOperations {
  import opened Wrappers
  import opened Machine
  import opened ByteCodec
  import opened ValueCodec
  import opened ValueReaders
  import opened Aggregates
  import opened Grouping
  import opened GroupBy
  import opened GroupSnapshots
  import opened Sequences

  lemma {:induction false} PrefixFailure(h: Shape, t: Table, rows: seq<Option<Item>>, n: nat, cutoff: Int64)
    requires n <= |rows| && AddPlaced(h, t, rows[..n], cutoff).Err?
    ensures AddPlaced(h, t, rows, cutoff) == AddPlaced(h, t, rows[..n], cutoff)
  {
    if n < |rows| {
      assert rows[..|rows| - 1][..n] == rows[..n];
      PrefixFailure(h, t, rows[..|rows| - 1], n, cutoff);
    } else {
      assert rows[..n] == rows;
    }
  }

  lemma {:induction false} PlacedOneMore(h: Shape, t: Table, rows: seq<Option<Item>>, n: nat, cutoff: Int64)
    requires n < |rows| && AddPlaced(h, t, rows[..n], cutoff).Ok?
    ensures AddPlaced(h, t, rows[..n + 1], cutoff)
            == AddIfRetained(h, AddPlaced(h, t, rows[..n], cutoff).value, rows[n], cutoff)
  {
    assert rows[..n + 1][..n] == rows[..n];
  }

  lemma {:induction false} LatestOneMore(from: Int64, rows: seq<Row>, n: nat)
    requires n < |rows|
    ensures LatestTimestamp(from, rows[..n + 1])
            == match rows[n].timestamp
               case Some(timestamp) => Later(LatestTimestamp(from, rows[..n]), timestamp)
               case None => LatestTimestamp(from, rows[..n])
  {
    assert rows[..n + 1][..n] == rows[..n];
  }

  lemma {:induction false} KeptOneMore(h: Shape, groups: map<Bytes, Group>, order: seq<Bytes>, n: nat, cutoff: Int64)
    requires n < |order| && forall k :: k in order ==> k in groups
    ensures Kept(h, groups, order[..n + 1], cutoff)
            == Kept(h, groups, order[..n], cutoff)
               + if h.endOf(groups[order[n]].keyParts) < cutoff then [] else [order[n]]
  {
    assert order[..n + 1][..n] == order[..n];
  }

  lemma {:induction false} AggregatesFailure(us: seq<Value>, fns: seq<AggregateFunction>, xs: seq<Value>, n: nat)
    requires n < |us| == |fns| == |xs| && AccumulateFirst(us, fns, xs, n).Ok?
    requires Accumulate(us[n], fns[n], xs[n]).Err?
    ensures AccumulateAll(us, fns, xs) == Err(Accumulate(us[n], fns[n], xs[n]).error)
  {
    FirstFailure(us, fns, xs, n + 1, |fns|);
  }

  lemma {:induction false} FirstFailure(us: seq<Value>, fns: seq<AggregateFunction>, xs: seq<Value>, n: nat, m: nat)
    requires n <= m <= |us| == |fns| == |xs| && AccumulateFirst(us, fns, xs, n).Err?
    ensures AccumulateFirst(us, fns, xs, m) == AccumulateFirst(us, fns, xs, n)
    decreases m
  {
    if n < m {
      FirstFailure(us, fns, xs, n, m - 1);
    }
  }

  /** `groups` is `was` without the expired groups among those already seen. */
  ghost predicate Swept(h: Shape, was: map<Bytes, Group>, seen: seq<Bytes>, cutoff: Int64, groups: map<Bytes, Group>) {
    && (forall k :: k in groups <==> k in was && (k in seen ==> h.endOf(was[k].keyParts) >= cutoff))
    && forall k :: k in groups ==> groups[k] == was[k]
  }

  lemma {:induction false} SweptNext(h: Shape, was: map<Bytes, Group>, order: seq<Bytes>, i: nat, cutoff: Int64, groups: map<Bytes, Group>)
    requires i < |order| && order[i] in was && Unique(order) && Swept(h, was, order[..i], cutoff, groups)
    ensures order[i] in groups && groups[order[i]] == was[order[i]]
    ensures Swept(h, was, order[..i + 1], cutoff,
                  if h.endOf(was[order[i]].keyParts) < cutoff then groups - {order[i]} else groups)
  {
    assert order[..i + 1] == order[..i] + [order[i]];
  }

  lemma {:induction false} SweptAll(h: Shape, was: Table, cutoff: Int64, groups: map<Bytes, Group>)
    requires Consistent(was) && Swept(h, was.groups, was.order, cutoff, groups)
    ensures groups == KeptGroups(h, was.groups, cutoff)
  {
  }

  lemma {:induction false} NothingExpires(h: Shape, t: Table)
    requires Consistent(t)
    ensures Prune(h, t, MIN_INT64) == t
  {
    AllKept(h, t.groups, t.order);
    assert KeptGroups(h, t.groups, MIN_INT64) == t.groups;
  }

  lemma {:induction false} AllKept(h: Shape, groups: map<Bytes, Group>, order: seq<Bytes>)
    requires forall k :: k in order ==> k in groups
    ensures Kept(h, groups, order, MIN_INT64) == order
  {
    if order != [] {
      var before, last := order[..|order| - 1], order[|order| - 1];
      assert order == before + [last];
      AllKept(h, groups, before);
      assert h.endOf(groups[last].keyParts) >= MIN_INT64;
    }
  }

  /** The key parts of a group are the first columns of its row, its aggregates the others. */
  predicate IsRowOf(g: Group, row: seq<Value>) {
    && |row| == |g.keyParts| + |g.aggregates|
    && (forall k :: 0 <= k < |g.keyParts| ==> row[k] == g.keyParts[k])
    && forall n :: 0 <= n < |g.aggregates| ==> row[|g.keyParts| + n] == g.aggregates[n]
  }

  class GroupByOperation {
    const config: Config
    var groups: map<Bytes, Group>
    var order: seq<Bytes>
    var streamTime: Int64

    function Content(): State
      reads this
    {
      State(Table(groups, order), streamTime)
    }

    ghost predicate Valid()
      reads this
    {
      Consistent(Table(groups, order)) && Unique(order)
    }

    constructor (config: Config)
      ensures Valid() && this.config == config && Content() == INITIAL
    {
      this.config := config;
      groups := map[];
      order := [];
      streamTime := MIN_INT64;
    }

    /** Deletes the groups that end before the cutoff and lists the others. */
    method Sweep(cutoff: Int64) returns (kept: seq<Bytes>)
      requires Valid()
      modifies `groups
      ensures kept == Kept(ShapeOf(config), old(groups), order, cutoff)
      ensures Swept(ShapeOf(config), old(groups), order, cutoff, groups)
    {
      ghost var h := ShapeOf(config);
      kept := [];
      for i := 0 to |order|
        invariant kept == Kept(h, old(groups), order[..i], cutoff)
        invariant Swept(h, old(groups), order[..i], cutoff, groups)
      {
        KeptOneMore(h, old(groups), order, i, cutoff);
        SweptNext(h, old(groups), order, i, cutoff, groups);
        if PartEnd(config, groups[order[i]].keyParts) < cutoff {
          groups := groups - {order[i]};
        } else {
          kept := kept + [order[i]];
        }
      }
      assert order[..|order|] == order;
    }

    /** Drops the groups whose window has ended before the cutoff it returns. */
    method PruneExpired() returns (cutoff: Int64)
      requires Valid()
      modifies `groups, `order
      ensures Valid()
      ensures cutoff == Cutoff(config, streamTime)
      ensures Table(groups, order) == Prune(ShapeOf(config), old(Table(groups, order)), cutoff)
    {
      ghost var h, was := ShapeOf(config), Table(groups, order);
      if config.windowMillis == 0 || streamTime == MIN_INT64 {
        NothingExpires(h, was);
        return MIN_INT64;
      }
      cutoff := SaturatingSubtract(streamTime, config.retentionMillis);
      var kept := Sweep(cutoff);
      SweptAll(h, was, cutoff, groups);
      KeptUnique(h, was.groups, order, cutoff);
      order := kept;
    }

    /** One batch. When it fails the content is whatever the failing row left. */
    method Apply(batch: Batch) returns (r: Result<seq<seq<Value>>, GroupError>)
      requires Valid()
      modifies this
      ensures Valid()
      ensures r.Ok? ==> Step(config, old(Content()), batch) == Ok(Content()) && r.value == Output(Content().table)
      ensures r.Ok? ==> |r.value| == |order| && forall i :: 0 <= i < |order| ==> IsRowOf(groups[order[i]], r.value[i])
      ensures r.Err? ==> Step(config, old(Content()), batch) == Err(r.error)
    {
      if config.keyCount == 0 { return Err(NoKeyColumn); }
      if config.windowMillis > 0 {
        if !batch.hasTimestamp { return Err(MissingColumn); }
        for i := 0 to |batch.rows|
          invariant groups == old(groups) && order == old(order)
          invariant streamTime == LatestTimestamp(old(streamTime), batch.rows[..i])
        {
          LatestOneMore(old(streamTime), batch.rows, i);
          if batch.rows[i].timestamp.Some? {
            streamTime := Later(streamTime, batch.rows[i].timestamp.value);
          }
        }
        assert batch.rows[..|batch.rows|] == batch.rows;
        if batch.hasWindowColumns { return Err(WindowColumnExists); }
      }
      var retainedAfter := PruneExpired();
      if !batch.hasKeys || !batch.hasInputs { return Err(MissingColumn); }
      var failure := AddRows(batch.rows, retainedAfter);
      if failure.Some? { return Err(failure.value); }
      var rows := Forwarded();
      r := Ok(rows);
    }

    /** One row for each group, in order: its key parts, then its aggregates. */
    method Forwarded() returns (rows: seq<seq<Value>>)
      requires Valid()
      ensures rows == Output(Content().table)
      ensures |rows| == |order| && forall i :: 0 <= i < |order| ==> IsRowOf(groups[order[i]], rows[i])
    {
      rows := [];
      for i := 0 to |order|
        invariant |rows| == i
        invariant forall j :: 0 <= j < i ==> rows[j] == groups[order[j]].keyParts + groups[order[j]].aggregates
      {
        var row: seq<Value> := [];
        var entry := groups[order[i]];
        for column := 0 to |entry.keyParts|
          invariant row == entry.keyParts[..column]
        {
          row := row + [entry.keyParts[column]];
        }
        for index := 0 to |entry.aggregates|
          invariant row == entry.keyParts + entry.aggregates[..index]
        {
          row := row + [entry.aggregates[index]];
        }
        rows := rows + [row];
      }
    }

    method AddRows(rows: seq<Row>, retainedAfter: Int64) returns (failure: Option<GroupError>)
      requires Valid()
      modifies `groups, `order
      ensures Valid()
      ensures AddPlaced(ShapeOf(config), old(Table(groups, order)), PlaceAll(config, rows), retainedAfter)
              == match failure case None => Ok(Table(groups, order)) case Some(error) => Err(error)
    {
      ghost var h, was, placed := ShapeOf(config), Table(groups, order), PlaceAll(config, rows);
      for i := 0 to |rows|
        invariant Valid()
        invariant AddPlaced(h, was, placed[..i], retainedAfter) == Ok(Table(groups, order))
      {
        PlacedOneMore(h, was, placed, i, retainedAfter);
        failure := AddRow(rows[i], retainedAfter);
        if failure.Some? {
          PrefixFailure(h, was, placed, i + 1, retainedAfter);
          return;
        }
      }
      assert placed[..|rows|] == placed;
      failure := None;
    }

    /** One row: the group of its key is created if it is new, then each of its
        aggregates takes in its value, in place. */
    method AddRow(row: Row, retainedAfter: Int64) returns (failure: Option<GroupError>)
      requires Valid()
      modifies `groups, `order
      ensures Valid()
      ensures AddIfRetained(ShapeOf(config), old(Table(groups, order)), Place(config, row), retainedAfter)
              == match failure case None => Ok(Table(groups, order)) case Some(error) => Err(error)
    {
      var keyParts := row.keys;
      if config.windowMillis > 0 {
        if row.timestamp.None? { return Some(NullTimestamp); }
        var start := WindowStart(config, row.timestamp.value);
        var end := WindowEnd(config, row.timestamp.value);
        keyParts := keyParts + [Long(start), Long(end)];
      }
      if PartEnd(config, keyParts) < retainedAfter { return None; }
      var encoded := EncodeKeyParts(keyParts);
      if encoded !in groups {
        groups := groups[encoded := Group(keyParts, Nulls(|config.functions|))];
        order := order + [encoded];
      }
      ghost var entry := groups[encoded];
      failure := AddInputs(encoded, row.inputs);
      assert failure.None? ==> groups == old(groups)[encoded := entry.(aggregates := groups[encoded].aggregates)];
    }

    method AddInputs(encoded: Bytes, inputs: seq<Value>) returns (failure: Option<GroupError>)
      requires Valid() && encoded in groups
      modifies `groups
      ensures Valid()
      ensures match AccumulateAll(old(groups)[encoded].aggregates, config.functions, inputs)
              case Err(cause) => failure == Some(AggregateFailed(cause))
              case Ok(aggregates) =>
                failure.None? && groups == old(groups)[encoded := old(groups)[encoded].(aggregates := aggregates)]
    {
      ghost var was := groups[encoded].aggregates;
      if |groups[encoded].aggregates| != |config.functions| || |inputs| != |config.functions| {
        return Some(AggregateFailed(WrongLength));
      }
      for i := 0 to |config.functions|
        invariant Valid() && encoded in groups
        invariant |was| == |config.functions| == |inputs|
        invariant AccumulateFirst(was, config.functions, inputs, i) == Ok(groups[encoded].aggregates)
        invariant forall n :: i <= n < |was| ==> groups[encoded].aggregates[n] == was[n]
        invariant groups == old(groups)[encoded := old(groups)[encoded].(aggregates := groups[encoded].aggregates)]
      {
        var entry := groups[encoded];
        var accumulated := Accumulate(entry.aggregates[i], config.functions[i], inputs[i]);
        if accumulated.Err? {
          AggregatesFailure(was, config.functions, inputs, i);
          return Some(AggregateFailed(accumulated.error));
        }
        groups := groups[encoded := entry.(aggregates := entry.aggregates[i := accumulated.value])];
      }
      failure := None;
    }

    method Snapshot() returns (buffer: Bytes)
      requires Valid()
      ensures buffer == SnapshotBytes(Content())
    {
      buffer := [SNAPSHOT_VERSION] + PutInt64(streamTime) + PutUint(|order|, 4);
      ghost var header, members := buffer, Members(Table(groups, order));
      assert members[0..] == members;
      for i := 0 to |order|
        invariant buffer + EncodeGroups(members[i..]) == header + EncodeGroups(members)
      {
        var entry := groups[order[i]];
        assert members[i..][1..] == members[i + 1..];
        Regroup(buffer, EncodeGroup(entry), EncodeGroups(members[i + 1..]));
        buffer := buffer + EncodeGroup(entry);
      }
      assert buffer + [] == buffer;
    }

    /** A snapshot that cannot be read leaves the operator as it was. */
    method Restore(snapshot: Bytes) returns (r: Result<(), ParseError>)
      modifies this
      ensures match RestoreState(snapshot)
              case Ok(s) => r == Ok(()) && Content() == s
              case Err(error) => r == Err(error) && Content() == old(Content())
    {
      if |snapshot| == 0 || snapshot[0] != SNAPSHOT_VERSION { return Err(BadVersion); }
      var reader := new ValueReader(snapshot[1..]);
      var time :- reader.Int64();
      var groupCount :- reader.Uint(4);
      var table :- ReadGroups(reader, groupCount);
      if reader.data != [] { return Err(TrailingBytes); }
      streamTime := time;
      groups, order := table.groups, table.order;
      r := Ok(());
    }
  }

  method ReadGroups(reader: ValueReader, groupCount: nat) returns (r: Result<Table, ParseError>)
    modifies reader
    ensures match DecodeGroups(old(reader.data), groupCount)
            case Done(gs, rest) => r == Ok(Rebuild(gs)) && reader.data == rest
            case Failed(error) => r == Err(error)
  {
    var groups, order: seq<Bytes> := map[], [];
    ghost var read: seq<Group> := [];
    PrependNoGroups(DecodeGroups(reader.data, groupCount));
    for i := 0 to groupCount
      invariant DecodeGroups(old(reader.data), groupCount) == PrependGroups(read, DecodeGroups(reader.data, groupCount - i))
      invariant Table(groups, order) == Rebuild(read)
    {
      ghost var data := reader.data;
      var g :- ReadGroup(reader);
      PrependNextGroup(read, data, groupCount - i);
      RebuildNext(read, g);
      var encoded := EncodeKeyParts(g.keyParts);
      groups, order := groups[encoded := g], order + [encoded];
      read := read + [g];
    }
    assert read + [] == read;
    r := Ok(Table(groups, order));
  }

  lemma {:induction false} RebuildNext(read: seq<Group>, g: Group)
    ensures var t, encoded := Rebuild(read), EncodeKeyParts(g.keyParts);
            Rebuild(read + [g]) == Table(t.groups[encoded := g], t.order + [encoded])
  {
    assert (read + [g])[..|read|] == read;
  }

  method ReadGroup(reader: ValueReader) returns (r: Result<Group, ParseError>)
    modifies reader
    ensures Reads(r, DecodeGroup(old(reader.data)), reader.data)
  {
    var partCount :- reader.Uint(4);
    var keyParts :- reader.Values(partCount);
    var aggregateCount :- reader.Uint(4);
    var aggregates :- reader.Values(aggregateCount);
    r := Ok(Group(keyParts, aggregates));
  }

  /** What reading the groups still missing adds to the ones already read. */
  function PrependGroups(read: seq<Group>, p: Parse<seq<Group>>): Parse<seq<Group>> {
    match p
    case Done(more, rest) => Done(read + more, rest)
    case Failed(error) => Failed(error)
  }

  lemma {:induction false} PrependNoGroups(p: Parse<seq<Group>>)
    ensures PrependGroups([], p) == p
  {
    assert p.Done? ==> [] + p.value == p.value;
  }

  lemma {:induction false} PrependNextGroup(read: seq<Group>, data: Bytes, count: nat)
    requires count > 0 && DecodeGroup(data).Done?
    ensures var next := DecodeGroup(data);
            PrependGroups(read, DecodeGroups(data, count))
            == PrependGroups(read + [next.value], DecodeGroups(next.rest, count - 1))
  {
    var next := DecodeGroup(data);
    var more := DecodeGroups(next.rest, count - 1);
    if more.Done? {
      assert read + [next.value] + more.value == read + ([next.value] + more.value);
    }
  }
}
