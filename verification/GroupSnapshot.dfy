/** The snapshot of a group-by: what it stores, and why an operator restored from
    it can never be told from the one that wrote it. */
module GroupSnapshots {
  import opened Wrappers
  import opened Machine
  import opened ByteCodec
  import opened ValueCodec
  import opened Aggregates
  import opened Grouping
  import opened GroupBy
  import opened Sequences

  const SNAPSHOT_VERSION: Byte := 1

  function EncodeGroup(g: Group): (bytes: Bytes)
    ensures |bytes| >= 8
  {
    PutUint(|g.keyParts|, 4) + EncodeKeyParts(g.keyParts) + PutUint(|g.aggregates|, 4) + EncodeKeyParts(g.aggregates)
  }

  function EncodeGroups(gs: seq<Group>): (bytes: Bytes)
    ensures |gs| <= |bytes|
  {
    if gs == [] then [] else EncodeGroup(gs[0]) + EncodeGroups(gs[1..])
  }

  /** The groups in the order of their first rows. */
  function Members(t: Table): (gs: seq<Group>)
    requires Consistent(t)
    ensures |gs| == |t.order|
  {
    seq(|t.order|, i requires 0 <= i < |t.order| => t.groups[t.order[i]])
  }

  function SnapshotBytes(s: State): Bytes
    requires Consistent(s.table)
  {
    [SNAPSHOT_VERSION] + PutInt64(s.streamTime) + PutUint(|s.table.order|, 4) + EncodeGroups(Members(s.table))
  }

  function DecodeGroup(data: Bytes): (r: Parse<Group>)
    ensures r.Done? ==> |r.rest| < |data|
  {
    var (partCount, rest) :- ReadUint(data, 4);
    var (keyParts, rest') :- DecodeItems(rest, partCount);
    var (aggregateCount, rest'') :- ReadUint(rest', 4);
    var (aggregates, rest''') :- DecodeItems(rest'', aggregateCount);
    Done(Group(keyParts, aggregates), rest''')
  }

  function DecodeGroups(data: Bytes, count: nat): (r: Parse<seq<Group>>)
    ensures r.Done? ==> |r.value| == count && |r.rest| <= |data|
    decreases count
  {
    if count == 0 then Done([], data)
    else
      var (g, rest) :- DecodeGroup(data);
      var (others, rest') :- DecodeGroups(rest, count - 1);
      Done([g] + others, rest')
  }

  /** The table of groups that were read one after the other. */
  function Rebuild(gs: seq<Group>): (t: Table)
    ensures |t.order| == |gs|
    ensures forall i :: 0 <= i < |gs| ==> t.order[i] == EncodeKeyParts(gs[i].keyParts)
    ensures Consistent(t)
  {
    if gs == [] then EMPTY
    else
      var before, last := Rebuild(gs[..|gs| - 1]), gs[|gs| - 1];
      Table(before.groups[EncodeKeyParts(last.keyParts) := last], before.order + [EncodeKeyParts(last.keyParts)])
  }

  function RestoreState(snapshot: Bytes): (r: Result<State, ParseError>)
    ensures r.Ok? ==> Consistent(r.value.table)
  {
    if |snapshot| == 0 || snapshot[0] != SNAPSHOT_VERSION then Err(BadVersion)
    else
      match ReadInt64(snapshot[1..])
      case Failed(error) => Err(error)
      case Done(streamTime, rest) =>
        match ReadUint(rest, 4)
        case Failed(error) => Err(error)
        case Done(count, rest') =>
          match DecodeGroups(rest', count)
          case Failed(error) => Err(error)
          case Done(gs, rest'') =>
            if rest'' != [] then Err(TrailingBytes) else Ok(State(Rebuild(gs), streamTime))
  }

  // --------------------------------------------------------------- round trip

  predicate SoundGroup(c: Config, k: Bytes, g: Group) {
    && k == EncodeKeyParts(g.keyParts)
    && AllWellFormed(g.keyParts)
    && AllWellFormed(g.aggregates)
    && (c.Windowed() ==> |g.keyParts| == c.keyCount + 2 && g.keyParts[c.keyCount + 1] == Long(PartEnd(c, g.keyParts)))
  }

  ghost predicate Unique(order: seq<Bytes>) {
    forall i, j :: 0 <= i < j < |order| ==> order[i] != order[j]
  }

  /** What every reachable state satisfies. */
  ghost predicate Sound(c: Config, t: Table) {
    && Consistent(t)
    && Unique(t.order)
    && forall k :: k in t.groups ==> SoundGroup(c, k, t.groups[k])
  }

  function NormaliseGroup(g: Group): Group { Group(NormaliseAll(g.keyParts), NormaliseAll(g.aggregates)) }

  function NormaliseGroups(gs: seq<Group>): (r: seq<Group>)
    ensures |r| == |gs| && forall i :: 0 <= i < |gs| ==> r[i] == NormaliseGroup(gs[i])
  {
    if gs == [] then [] else [NormaliseGroup(gs[0])] + NormaliseGroups(gs[1..])
  }

  /** The state with every sized integer widened, which is what a snapshot keeps. */
  function NormaliseState(s: State): (r: State)
    requires Consistent(s.table)
    ensures Consistent(r.table)
  {
    State(Table(map k | k in s.table.groups :: NormaliseGroup(s.table.groups[k]), s.table.order), s.streamTime)
  }

  predicate StorableGroup(g: Group) { AllWellFormed(g.keyParts) && AllWellFormed(g.aggregates) }

  lemma {:induction false} ReadCount(n: nat, rest: Bytes)
    requires n < TWO_32
    ensures ReadUint(PutUint(n, 4) + rest, 4) == Done(n, rest)
  {
    BaseValues();
    ReadPutUint(n, 4, rest);
  }

  lemma {:induction false} CountedItems(vs: seq<Value>, rest: Bytes)
    requires AllWellFormed(vs) && 4 + |EncodeKeyParts(vs)| + |rest| < TWO_32
    ensures ReadUint(PutUint(|vs|, 4) + EncodeKeyParts(vs) + rest, 4) == Done(|vs|, EncodeKeyParts(vs) + rest)
    ensures DecodeItems(EncodeKeyParts(vs) + rest, |vs|) == Done(NormaliseAll(vs), rest)
  {
    Regroup(PutUint(|vs|, 4), EncodeKeyParts(vs), rest);
    ReadCount(|vs|, EncodeKeyParts(vs) + rest);
    DecodeEncodeItems(vs, rest);
  }

  lemma {:induction false} DecodeEncodeGroup(g: Group, rest: Bytes)
    requires StorableGroup(g) && |EncodeGroup(g)| + |rest| < TWO_32
    ensures DecodeGroup(EncodeGroup(g) + rest) == Done(NormaliseGroup(g), rest)
  {
    var parts := PutUint(|g.keyParts|, 4) + EncodeKeyParts(g.keyParts);
    var aggregates := PutUint(|g.aggregates|, 4) + EncodeKeyParts(g.aggregates);
    assert EncodeGroup(g) + rest == parts + (aggregates + rest);
    CountedItems(g.keyParts, aggregates + rest);
    CountedItems(g.aggregates, rest);
  }

  lemma {:induction false} DecodeEncodeGroups(gs: seq<Group>, rest: Bytes)
    requires (forall i :: 0 <= i < |gs| ==> StorableGroup(gs[i])) && |EncodeGroups(gs)| + |rest| < TWO_32
    ensures DecodeGroups(EncodeGroups(gs) + rest, |gs|) == Done(NormaliseGroups(gs), rest)
  {
    if gs == [] {
      assert EncodeGroups(gs) + rest == rest;
    } else {
      var tail := EncodeGroups(gs[1..]) + rest;
      Regroup(EncodeGroup(gs[0]), EncodeGroups(gs[1..]), rest);
      DecodeEncodeGroup(gs[0], tail);
      DecodeEncodeGroups(gs[1..], rest);
    }
  }

  lemma {:induction false} RebuildUnique(gs: seq<Group>)
    requires forall i, j :: 0 <= i < j < |gs| ==> EncodeKeyParts(gs[i].keyParts) != EncodeKeyParts(gs[j].keyParts)
    ensures forall i :: 0 <= i < |gs| ==> Rebuild(gs).groups[Rebuild(gs).order[i]] == gs[i]
  {
    if gs != [] {
      var before := gs[..|gs| - 1];
      RebuildUnique(before);
      forall i | 0 <= i < |gs| ensures Rebuild(gs).groups[Rebuild(gs).order[i]] == gs[i] {
        if i < |before| {
          assert before[i] == gs[i];
        }
      }
    }
  }

  lemma {:induction false} SameByOrder(a: map<Bytes, Group>, b: map<Bytes, Group>, order: seq<Bytes>)
    requires (forall k :: k in order <==> k in a) && forall k :: k in order <==> k in b
    requires forall i :: 0 <= i < |order| ==> a[order[i]] == b[order[i]]
    ensures a == b
  {
    forall k | k in a ensures k in b && a[k] == b[k] {
      var i :| 0 <= i < |order| && order[i] == k;
    }
    assert a.Keys == b.Keys;
  }

  lemma {:induction false} RebuildOrder(gs: seq<Group>, order: seq<Bytes>)
    requires |gs| == |order| && forall i :: 0 <= i < |gs| ==> EncodeKeyParts(gs[i].keyParts) == order[i]
    ensures Rebuild(gs).order == order
  {
  }

  /** Rebuilding lists the keys of the groups and maps each to its group. */
  lemma {:induction false} RebuildIs(gs: seq<Group>, t: Table)
    requires |gs| == |t.order| && Unique(t.order) && Consistent(t)
    requires forall i :: 0 <= i < |gs| ==> EncodeKeyParts(gs[i].keyParts) == t.order[i]
    requires forall i :: 0 <= i < |gs| ==> t.groups[t.order[i]] == gs[i]
    ensures Rebuild(gs) == t
  {
    RebuildOrder(gs, t.order);
    RebuildUnique(gs);
    SameByOrder(Rebuild(gs).groups, t.groups, t.order);
  }

  lemma {:induction false} MemberNormalised(c: Config, t: Table, i: nat)
    requires Sound(c, t) && i < |t.order|
    ensures NormaliseGroups(Members(t))[i] == NormaliseGroup(t.groups[t.order[i]])
    ensures EncodeKeyParts(NormaliseGroups(Members(t))[i].keyParts) == t.order[i]
  {
    NormaliseKeepsForms(t.groups[t.order[i]].keyParts);
  }

  lemma {:induction false} RebuildMembers(c: Config, t: Table, streamTime: Int64)
    requires Sound(c, t)
    ensures Rebuild(NormaliseGroups(Members(t))) == NormaliseState(State(t, streamTime)).table
  {
    var gs, t' := NormaliseGroups(Members(t)), NormaliseState(State(t, streamTime)).table;
    forall i | 0 <= i < |gs| ensures EncodeKeyParts(gs[i].keyParts) == t.order[i] && t'.groups[t.order[i]] == gs[i] {
      MemberNormalised(c, t, i);
    }
    RebuildIs(gs, t');
  }

  lemma {:induction false} HeaderRoundTrip(streamTime: Int64, count: nat, rest: Bytes)
    requires count < TWO_32
    ensures var data := [SNAPSHOT_VERSION] + PutInt64(streamTime) + PutUint(count, 4) + rest;
            && data[0] == SNAPSHOT_VERSION
            && ReadInt64(data[1..]) == Done(streamTime, PutUint(count, 4) + rest)
            && ReadUint(PutUint(count, 4) + rest, 4) == Done(count, rest)
  {
    var data := [SNAPSHOT_VERSION] + PutInt64(streamTime) + PutUint(count, 4) + rest;
    assert data[1..] == PutInt64(streamTime) + (PutUint(count, 4) + rest);
    ReadPutInt64(streamTime, PutUint(count, 4) + rest);
    ReadCount(count, rest);
  }

  /** Restoring a snapshot gives the state back with its sized integers widened. */
  lemma {:induction false} RestoreSnapshot(c: Config, s: State)
    requires Sound(c, s.table) && |SnapshotBytes(s)| < TWO_32
    ensures RestoreState(SnapshotBytes(s)) == Ok(NormaliseState(s))
  {
    var gs := Members(s.table);
    HeaderRoundTrip(s.streamTime, |gs|, EncodeGroups(gs));
    assert EncodeGroups(gs) + [] == EncodeGroups(gs);
    DecodeEncodeGroups(gs, []);
    RebuildMembers(c, s.table, s.streamTime);
  }

  // --------------------------------------------------- reachable states are sound

  predicate SoundItem(c: Config, item: Item) {
    SoundGroup(c, item.key, Group(item.keyParts, [])) && AllWellFormed(item.inputs)
  }

  lemma {:induction false} AccumulateFirstWellFormed(us: seq<Value>, fns: seq<AggregateFunction>, xs: seq<Value>, n: nat)
    requires n <= |us| == |fns| == |xs| && AllWellFormed(us) && AllWellFormed(xs) && AccumulateFirst(us, fns, xs, n).Ok?
    ensures AllWellFormed(AccumulateFirst(us, fns, xs, n).value)
  {
    if n > 0 {
      AccumulateFirstWellFormed(us, fns, xs, n - 1);
      AccumulateWellFormed(us[n - 1], fns[n - 1], xs[n - 1]);
    }
  }

  lemma {:induction false} AddItemSound(c: Config, t: Table, item: Item)
    requires Sound(c, t) && SoundItem(c, item) && AddItem(ShapeOf(c), t, item).Ok?
    ensures Sound(c, AddItem(ShapeOf(c), t, item).value)
  {
    var entry := EntryFor(ShapeOf(c), t, item);
    AccumulateFirstWellFormed(entry.aggregates, c.functions, item.inputs, |c.functions|);
  }

  ghost predicate AllSound(c: Config, rows: seq<Option<Item>>) {
    forall i :: 0 <= i < |rows| && rows[i].Some? ==> SoundItem(c, rows[i].value)
  }

  lemma {:induction false} AddPlacedSound(c: Config, t: Table, rows: seq<Option<Item>>, cutoff: Int64)
    requires Sound(c, t) && AllSound(c, rows) && AddPlaced(ShapeOf(c), t, rows, cutoff).Ok?
    ensures Sound(c, AddPlaced(ShapeOf(c), t, rows, cutoff).value)
  {
    if rows != [] {
      AddPlacedSound(c, t, rows[..|rows| - 1], cutoff);
      var item := rows[|rows| - 1].value;
      if PartEnd(c, item.keyParts) >= cutoff {
        AddItemSound(c, AddPlaced(ShapeOf(c), t, rows[..|rows| - 1], cutoff).value, item);
      }
    }
  }

  lemma {:induction false} KeptUnique(h: Shape, groups: map<Bytes, Group>, order: seq<Bytes>, cutoff: Int64)
    requires (forall k :: k in order ==> k in groups) && Unique(order)
    ensures Unique(Kept(h, groups, order, cutoff))
  {
    if order != [] {
      var before, last := order[..|order| - 1], order[|order| - 1];
      KeptUnique(h, groups, before, cutoff);
      assert last !in before;
    }
  }

  lemma {:induction false} PruneSound(c: Config, t: Table, cutoff: Int64)
    requires Sound(c, t)
    ensures Sound(c, Prune(ShapeOf(c), t, cutoff))
  {
    KeptUnique(ShapeOf(c), t.groups, t.order, cutoff);
  }

  /** Shaped rows whose aggregated columns hold values of their types. */
  predicate Typed(c: Config, rows: seq<Row>) {
    AllShaped(c, rows) && forall i :: 0 <= i < |rows| ==> AllWellFormed(rows[i].inputs)
  }

  lemma {:induction false} PlacedSound(c: Config, rows: seq<Row>)
    requires Typed(c, rows)
    ensures AllSound(c, PlaceAll(c, rows))
  {
  }

  lemma {:induction false} StepSound(c: Config, s: State, batch: Batch)
    requires Sound(c, s.table) && Typed(c, batch.rows) && Step(c, s, batch).Ok?
    ensures Sound(c, Step(c, s, batch).value.table)
  {
    var cutoff := Cutoff(c, Advance(c, s.streamTime, batch.rows));
    PruneSound(c, s.table, cutoff);
    PlacedSound(c, batch.rows);
    AddPlacedSound(c, Prune(ShapeOf(c), s.table, cutoff), PlaceAll(c, batch.rows), cutoff);
  }

  predicate AllTyped(c: Config, batches: seq<Batch>) {
    forall i :: 0 <= i < |batches| ==> Typed(c, batches[i].rows)
  }

  lemma {:induction false} RunSound(c: Config, s: State, batches: seq<Batch>)
    requires Sound(c, s.table) && AllTyped(c, batches) && Run(c, s, batches).Ok?
    ensures Sound(c, Run(c, s, batches).value.table)
  {
    if batches != [] {
      var earlier := batches[..|batches| - 1];
      RunSound(c, s, earlier);
      StepSound(c, Run(c, s, earlier).value, batches[|batches| - 1]);
    }
  }

  // ------------------------------------------------------------- bisimulation

  /** Groups that differ in the widths of sized integers at most. */
  predicate SimilarGroup(c: Config, g: Group, g': Group) {
    && AllAlike(g.keyParts, g'.keyParts)
    && AllAlike(g.aggregates, g'.aggregates)
    && PartEnd(c, g.keyParts) == PartEnd(c, g'.keyParts)
  }

  ghost predicate Similar(c: Config, t: Table, t': Table) {
    && Consistent(t)
    && Consistent(t')
    && t.order == t'.order
    && forall k :: k in t.groups && k in t'.groups ==> SimilarGroup(c, t.groups[k], t'.groups[k])
  }

  /** Both outcomes are the same error, or both are states that stay similar. */
  ghost predicate SameOutcome(c: Config, r: Result<State, GroupError>, r': Result<State, GroupError>) {
    match (r, r')
    case (Ok(s), Ok(s')) => s.streamTime == s'.streamTime && Similar(c, s.table, s'.table)
    case (Err(e), Err(e')) => e == e'
    case _ => false
  }

  ghost predicate SameTables(c: Config, r: Result<Table, GroupError>, r': Result<Table, GroupError>) {
    match (r, r')
    case (Ok(t), Ok(t')) => Similar(c, t, t')
    case (Err(e), Err(e')) => e == e'
    case _ => false
  }

  predicate SameAggregates(r: Result<seq<Value>, AggregateError>, r': Result<seq<Value>, AggregateError>) {
    match (r, r')
    case (Ok(us), Ok(vs)) => AllAlike(us, vs)
    case (Err(e), Err(f)) => e == f
    case _ => false
  }

  lemma {:induction false} AlikeUpdate(us: seq<Value>, vs: seq<Value>, i: nat, u: Value, v: Value)
    requires i < |us| && AllAlike(us, vs) && Alike(u, v)
    ensures |us| == |vs| && AllAlike(us[i := u], vs[i := v])
  {
    assert |us| == |NormaliseAll(us)| == |vs|;
    assert NormaliseAll(us[i := u]) == NormaliseAll(us)[i := Normalise(u)];
    assert NormaliseAll(vs[i := v]) == NormaliseAll(vs)[i := Normalise(v)];
  }

  lemma {:induction false} AlikeMembers(us: seq<Value>, vs: seq<Value>, i: nat)
    requires AllAlike(us, vs) && i < |us|
    ensures |us| == |vs| && Alike(us[i], vs[i])
  {
    assert |us| == |NormaliseAll(us)| == |vs|;
    assert NormaliseAll(us)[i] == NormaliseAll(vs)[i];
  }

  lemma {:induction false} AccumulateFirstAlike(us: seq<Value>, vs: seq<Value>, fns: seq<AggregateFunction>, xs: seq<Value>, n: nat)
    requires n <= |us| == |vs| == |fns| == |xs| && AllAlike(us, vs)
    ensures SameAggregates(AccumulateFirst(us, fns, xs, n), AccumulateFirst(vs, fns, xs, n))
  {
    if n > 0 {
      AccumulateFirstAlike(us, vs, fns, xs, n - 1);
      AlikeMembers(us, vs, n - 1);
      AccumulateAlike(us[n - 1], vs[n - 1], fns[n - 1], xs[n - 1]);
      var a, b := AccumulateFirst(us, fns, xs, n - 1), AccumulateFirst(vs, fns, xs, n - 1);
      var x, y := Accumulate(us[n - 1], fns[n - 1], xs[n - 1]), Accumulate(vs[n - 1], fns[n - 1], xs[n - 1]);
      if a.Ok? && x.Ok? {
        AlikeUpdate(a.value, b.value, n - 1, x.value, y.value);
      }
    }
  }

  lemma {:induction false} AccumulateAllAlike(us: seq<Value>, vs: seq<Value>, fns: seq<AggregateFunction>, xs: seq<Value>)
    requires AllAlike(us, vs)
    ensures SameAggregates(AccumulateAll(us, fns, xs), AccumulateAll(vs, fns, xs))
  {
    assert |us| == |NormaliseAll(us)| == |vs|;
    if |us| == |fns| == |xs| {
      AccumulateFirstAlike(us, vs, fns, xs, |fns|);
    }
  }

  lemma {:induction false} AddItemSimilar(c: Config, t: Table, t': Table, item: Item)
    requires Similar(c, t, t')
    ensures SameTables(c, AddItem(ShapeOf(c), t, item), AddItem(ShapeOf(c), t', item))
  {
    var h := ShapeOf(c);
    assert item.key in t.groups <==> item.key in t.order;
    AccumulateAllAlike(EntryFor(h, t, item).aggregates, EntryFor(h, t', item).aggregates, c.functions, item.inputs);
  }

  lemma {:induction false} KeptSimilar(c: Config, g: map<Bytes, Group>, g': map<Bytes, Group>, order: seq<Bytes>, cutoff: Int64)
    requires forall k :: k in order ==> k in g && k in g' && PartEnd(c, g[k].keyParts) == PartEnd(c, g'[k].keyParts)
    ensures Kept(ShapeOf(c), g, order, cutoff) == Kept(ShapeOf(c), g', order, cutoff)
  {
    if order != [] {
      KeptSimilar(c, g, g', order[..|order| - 1], cutoff);
    }
  }

  lemma {:induction false} PruneSimilar(c: Config, t: Table, t': Table, cutoff: Int64)
    requires Similar(c, t, t')
    ensures Similar(c, Prune(ShapeOf(c), t, cutoff), Prune(ShapeOf(c), t', cutoff))
  {
    KeptSimilar(c, t.groups, t'.groups, t.order, cutoff);
  }

  lemma {:induction false} AddPlacedSimilar(c: Config, t: Table, t': Table, rows: seq<Option<Item>>, cutoff: Int64)
    requires Similar(c, t, t')
    ensures SameTables(c, AddPlaced(ShapeOf(c), t, rows, cutoff), AddPlaced(ShapeOf(c), t', rows, cutoff))
  {
    if rows != [] {
      var before, h := rows[..|rows| - 1], ShapeOf(c);
      AddPlacedSimilar(c, t, t', before, cutoff);
      if AddPlaced(h, t, before, cutoff).Ok? && rows[|rows| - 1].Some? {
        AddItemSimilar(c, AddPlaced(h, t, before, cutoff).value, AddPlaced(h, t', before, cutoff).value, rows[|rows| - 1].value);
      }
    }
  }

  lemma {:induction false} StepSimilar(c: Config, s: State, s': State, batch: Batch)
    requires s.streamTime == s'.streamTime && Similar(c, s.table, s'.table)
    ensures SameOutcome(c, Step(c, s, batch), Step(c, s', batch))
  {
    var cutoff := Cutoff(c, Advance(c, s.streamTime, batch.rows));
    PruneSimilar(c, s.table, s'.table, cutoff);
    AddPlacedSimilar(c, Prune(ShapeOf(c), s.table, cutoff), Prune(ShapeOf(c), s'.table, cutoff), PlaceAll(c, batch.rows), cutoff);
  }

  lemma {:induction false} RunSimilar(c: Config, s: State, s': State, batches: seq<Batch>)
    requires s.streamTime == s'.streamTime && Similar(c, s.table, s'.table)
    ensures SameOutcome(c, Run(c, s, batches), Run(c, s', batches))
  {
    if batches != [] {
      var earlier := batches[..|batches| - 1];
      RunSimilar(c, s, s', earlier);
      if Run(c, s, earlier).Ok? {
        StepSimilar(c, Run(c, s, earlier).value, Run(c, s', earlier).value, batches[|batches| - 1]);
      }
    }
  }

  /** Similar states forward the same rows, up to integer width, and write the
      same snapshot. */
  lemma {:induction false} SimilarStatesLookTheSame(c: Config, s: State, s': State)
    requires s.streamTime == s'.streamTime && Similar(c, s.table, s'.table)
    ensures |Output(s.table)| == |Output(s'.table)|
    ensures forall i :: 0 <= i < |Output(s.table)| ==> AllAlike(Output(s.table)[i], Output(s'.table)[i])
    ensures SnapshotBytes(s) == SnapshotBytes(s')
  {
    forall i | 0 <= i < |Output(s.table)| ensures AllAlike(Output(s.table)[i], Output(s'.table)[i]) {
      var g, g' := s.table.groups[s.table.order[i]], s'.table.groups[s'.table.order[i]];
      NormaliseConcatenation(g.keyParts, g.aggregates);
      NormaliseConcatenation(g'.keyParts, g'.aggregates);
    }
    SimilarMembersEncodeAlike(c, Members(s.table), Members(s'.table));
  }

  lemma {:induction false} AlikeEncodeAlike(us: seq<Value>, vs: seq<Value>)
    requires AllAlike(us, vs)
    ensures |us| == |vs| && EncodeKeyParts(us) == EncodeKeyParts(vs)
  {
    assert |us| == |NormaliseAll(us)| == |vs|;
    NormaliseKeepsForms(us);
    NormaliseKeepsForms(vs);
  }

  lemma {:induction false} SimilarMembersEncodeAlike(c: Config, gs: seq<Group>, gs': seq<Group>)
    requires |gs| == |gs'| && forall i :: 0 <= i < |gs| ==> SimilarGroup(c, gs[i], gs'[i])
    ensures EncodeGroups(gs) == EncodeGroups(gs')
  {
    if gs != [] {
      AlikeEncodeAlike(gs[0].keyParts, gs'[0].keyParts);
      AlikeEncodeAlike(gs[0].aggregates, gs'[0].aggregates);
      SimilarMembersEncodeAlike(c, gs[1..], gs'[1..]);
    }
  }

  lemma {:induction false} NormalisedGroupIsSimilar(c: Config, k: Bytes, g: Group)
    requires SoundGroup(c, k, g)
    ensures SimilarGroup(c, g, NormaliseGroup(g))
  {
    NormaliseKeepsForms(g.keyParts);
    NormaliseKeepsForms(g.aggregates);
    if c.Windowed() {
      assert NormaliseAll(g.keyParts)[c.keyCount + 1] == g.keyParts[c.keyCount + 1];
    }
  }

  lemma {:induction false} NormalisedIsSimilar(c: Config, s: State)
    requires Sound(c, s.table)
    ensures Similar(c, s.table, NormaliseState(s).table)
  {
    forall k | k in s.table.groups ensures SimilarGroup(c, s.table.groups[k], NormaliseGroup(s.table.groups[k])) {
      NormalisedGroupIsSimilar(c, k, s.table.groups[k]);
    }
  }

  /** The bisimulation: stop an operator after any history, restore another from
      its snapshot, and give both any future. They fail alike, or they end with the
      same stream time, forward alike rows and write the same snapshot. */
  lemma {:induction false} RestoredOperatorIsEquivalent(c: Config, past: seq<Batch>, future: seq<Batch>)
    requires AllTyped(c, past) && Run(c, INITIAL, past).Ok?
    requires |SnapshotBytes(Run(c, INITIAL, past).value)| < TWO_32
    ensures var s := Run(c, INITIAL, past).value;
            var restored := RestoreState(SnapshotBytes(s));
            && restored.Ok?
            && SnapshotBytes(restored.value) == SnapshotBytes(s)
            && match (Run(c, s, future), Run(c, restored.value, future))
               case (Ok(a), Ok(b)) =>
                 && a.streamTime == b.streamTime
                 && SnapshotBytes(a) == SnapshotBytes(b)
                 && |Output(a.table)| == |Output(b.table)|
                 && (forall i :: 0 <= i < |Output(a.table)| ==> AllAlike(Output(a.table)[i], Output(b.table)[i]))
               case (Err(e), Err(f)) => e == f
               case _ => false
  {
    var s := Run(c, INITIAL, past).value;
    RunSound(c, INITIAL, past);
    RestoreSnapshot(c, s);
    NormalisedIsSimilar(c, s);
    SimilarStatesLookTheSame(c, s, NormaliseState(s));
    RunSimilar(c, s, NormaliseState(s), future);
    match (Run(c, s, future), Run(c, NormaliseState(s), future))
    case (Ok(a), Ok(b)) => SimilarStatesLookTheSame(c, a, b);
    case _ =>
  }
}
