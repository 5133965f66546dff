/** Grouping of keyed items: the table a group-by keeps, what pruning does to it,
    and what a table contains. */
module Grouping {
  import opened Wrappers
  import opened Machine
  import opened ByteCodec
  import opened ValueCodec
  import opened Aggregates

  /** How a group starts, how it takes in the values of one row, and which window
      end its key parts name. */
  datatype Shape = Shape(
    initial: seq<Value>,
    accumulate: (seq<Value>, seq<Value>) -> Result<seq<Value>, AggregateError>,
    endOf: seq<Value> -> Int64)

  /** A row with its encoded key, the parts of that key and the aggregated values. */
  datatype Item = Item(key: Bytes, keyParts: seq<Value>, inputs: seq<Value>)

  datatype GroupError =
    | NoKeyColumn
    | MissingColumn
    | WindowColumnExists
    | NullTimestamp
    | AggregateFailed(cause: AggregateError)

  datatype Group = Group(keyParts: seq<Value>, aggregates: seq<Value>)

  /** The groups by encoded key, and the keys in order of first appearance. */
  datatype Table = Table(groups: map<Bytes, Group>, order: seq<Bytes>)

  const EMPTY := Table(map[], [])

  /** Items that share a key share a window. */
  ghost predicate Coherent(h: Shape, items: seq<Item>) {
    forall a, b :: a in items && b in items && a.key == b.key ==> h.endOf(a.keyParts) == h.endOf(b.keyParts)
  }

  ghost predicate Consistent(t: Table) { forall k :: k in t.order <==> k in t.groups }

  function EntryFor(h: Shape, t: Table, item: Item): Group {
    if item.key in t.groups then t.groups[item.key] else Group(item.keyParts, h.initial)
  }

  function AddItem(h: Shape, t: Table, item: Item): (r: Result<Table, GroupError>)
    ensures r.Ok? && Consistent(t) ==> Consistent(r.value)
  {
    var entry := EntryFor(h, t, item);
    match h.accumulate(entry.aggregates, item.inputs)
    case Err(cause) => Err(AggregateFailed(cause))
    case Ok(aggregates) =>
      Ok(Table(t.groups[item.key := entry.(aggregates := aggregates)],
               if item.key in t.groups then t.order else t.order + [item.key]))
  }

  /** Grouping with no window left out: the one-shot definition. */
  function GroupItems(h: Shape, t: Table, items: seq<Item>): (r: Result<Table, GroupError>)
    ensures r.Ok? && Consistent(t) ==> Consistent(r.value)
  {
    if items == [] then Ok(t)
    else
      var before :- GroupItems(h, t, items[..|items| - 1]);
      AddItem(h, before, items[|items| - 1])
  }

  /** Grouping as the operator does it: a row that could not be placed stops it,
      and a row of a closed window is left out. */
  function AddPlaced(h: Shape, t: Table, rows: seq<Option<Item>>, retainedAfter: Int64): (r: Result<Table, GroupError>)
    ensures r.Ok? && Consistent(t) ==> Consistent(r.value)
  {
    if rows == [] then Ok(t)
    else
      var before :- AddPlaced(h, t, rows[..|rows| - 1], retainedAfter);
      AddIfRetained(h, before, rows[|rows| - 1], retainedAfter)
  }

  function AddIfRetained(h: Shape, t: Table, row: Option<Item>, retainedAfter: Int64): (r: Result<Table, GroupError>)
    ensures r.Ok? && Consistent(t) ==> Consistent(r.value)
  {
    match row
    case None => Err(NullTimestamp)
    case Some(item) => if h.endOf(item.keyParts) < retainedAfter then Ok(t) else AddItem(h, t, item)
  }

  function Kept(h: Shape, groups: map<Bytes, Group>, order: seq<Bytes>, cutoff: Int64): (kept: seq<Bytes>)
    requires forall k :: k in order ==> k in groups
    ensures forall k :: k in kept <==> k in order && h.endOf(groups[k].keyParts) >= cutoff
  {
    if order == [] then []
    else
      var last := order[|order| - 1];
      Kept(h, groups, order[..|order| - 1], cutoff) + if h.endOf(groups[last].keyParts) < cutoff then [] else [last]
  }

  function KeptGroups(h: Shape, groups: map<Bytes, Group>, cutoff: Int64): (kept: map<Bytes, Group>)
    ensures forall k :: k in kept <==> k in groups && h.endOf(groups[k].keyParts) >= cutoff
    ensures forall k :: k in kept ==> kept[k] == groups[k]
  {
    map k | k in groups && h.endOf(groups[k].keyParts) >= cutoff :: groups[k]
  }

  function Prune(h: Shape, t: Table, cutoff: Int64): (r: Table)
    requires Consistent(t)
    ensures Consistent(r)
  {
    Table(KeptGroups(h, t.groups, cutoff), Kept(h, t.groups, t.order, cutoff))
  }

  /** The items of the windows that end at or after the cutoff. */
  function Retained(h: Shape, items: seq<Item>, cutoff: Int64): seq<Item> {
    if items == [] then []
    else
      var last := items[|items| - 1];
      Retained(h, items[..|items| - 1], cutoff) + if h.endOf(last.keyParts) >= cutoff then [last] else []
  }

  lemma {:induction false} RetainedMembers(h: Shape, items: seq<Item>, cutoff: Int64)
    ensures forall item :: item in Retained(h, items, cutoff) <==> item in items && h.endOf(item.keyParts) >= cutoff
  {
    if items != [] {
      RetainedMembers(h, items[..|items| - 1], cutoff);
      assert items == items[..|items| - 1] + [items[|items| - 1]];
    }
  }

  // -------------------------------------------------- what a grouping contains

  /** The aggregated values of the items of one key, in order. */
  function InputsOf(items: seq<Item>, key: Bytes): seq<seq<Value>> {
    if items == [] then []
    else
      var last := items[|items| - 1];
      InputsOf(items[..|items| - 1], key) + if last.key == key then [last.inputs] else []
  }

  function FoldInputs(h: Shape, rows: seq<seq<Value>>): Result<seq<Value>, AggregateError> {
    if rows == [] then Ok(h.initial)
    else
      var before :- FoldInputs(h, rows[..|rows| - 1]);
      h.accumulate(before, rows[|rows| - 1])
  }

  /** The first item that carries a key, or the number of items. */
  function First(items: seq<Item>, key: Bytes): (i: nat)
    ensures i <= |items| && (i < |items| ==> items[i].key == key)
    ensures forall j :: 0 <= j < i ==> items[j].key != key
  {
    if items == [] || items[0].key == key then 0 else 1 + First(items[1..], key)
  }

  /** A group has the key parts of the first item of its key, and aggregates that
      are the fold over every item of the key. */
  ghost predicate IsGroup(h: Shape, items: seq<Item>, key: Bytes, g: Group) {
    && First(items, key) < |items|
    && g.keyParts == items[First(items, key)].keyParts
    && FoldInputs(h, InputsOf(items, key)) == Ok(g.aggregates)
  }

  /** One group for every key that occurs, in the order of their first items. */
  ghost predicate Groups(h: Shape, items: seq<Item>, t: Table) {
    && Consistent(t)
    && (forall k :: k in t.groups <==> First(items, k) < |items|)
    && (forall i, j :: 0 <= i < j < |t.order| ==> First(items, t.order[i]) < First(items, t.order[j]))
    && (forall k :: k in t.groups ==> IsGroup(h, items, k, t.groups[k]))
  }

  lemma {:induction false} FirstAfterOneMore(items: seq<Item>, last: Item, key: Bytes)
    ensures First(items + [last], key)
            == if First(items, key) < |items| then First(items, key)
               else if last.key == key then |items| else |items| + 1
  {
    var more := items + [last];
    assert forall i :: 0 <= i < |items| ==> more[i] == items[i];
    assert more[|items|] == last;
  }

  lemma {:induction false} InputsAfterOneMore(items: seq<Item>, last: Item, key: Bytes)
    ensures InputsOf(items + [last], key) == InputsOf(items, key) + if last.key == key then [last.inputs] else []
  {
    assert (items + [last])[..|items|] == items;
  }

  lemma {:induction false} InputsOfAbsentKey(items: seq<Item>, key: Bytes)
    requires forall i :: 0 <= i < |items| ==> items[i].key != key
    ensures InputsOf(items, key) == []
  {
    if items != [] {
      InputsOfAbsentKey(items[..|items| - 1], key);
    }
  }

  lemma {:induction false} FoldOneMore(h: Shape, rows: seq<seq<Value>>, next: seq<Value>)
    ensures FoldInputs(h, rows).Ok? ==> FoldInputs(h, rows + [next]) == h.accumulate(FoldInputs(h, rows).value, next)
  {
    assert (rows + [next])[..|rows|] == rows;
  }

  lemma {:induction false} GroupAfterItem(h: Shape, items: seq<Item>, t: Table, item: Item)
    requires Groups(h, items, t) && AddItem(h, t, item).Ok?
    ensures IsGroup(h, items + [item], item.key, AddItem(h, t, item).value.groups[item.key])
  {
    FirstAfterOneMore(items, item, item.key);
    InputsAfterOneMore(items, item, item.key);
    if item.key !in t.groups {
      InputsOfAbsentKey(items, item.key);
    }
    FoldOneMore(h, InputsOf(items, item.key), item.inputs);
  }

  lemma {:induction false} OtherGroupAfterItem(h: Shape, items: seq<Item>, item: Item, key: Bytes, g: Group)
    requires IsGroup(h, items, key, g) && item.key != key
    ensures IsGroup(h, items + [item], key, g)
  {
    FirstAfterOneMore(items, item, key);
    InputsAfterOneMore(items, item, key);
    assert InputsOf(items, key) + [] == InputsOf(items, key);
  }

  lemma {:induction false} AddItemGroups(h: Shape, items: seq<Item>, t: Table, item: Item)
    requires Groups(h, items, t) && AddItem(h, t, item).Ok?
    ensures Groups(h, items + [item], AddItem(h, t, item).value)
  {
    var more, t' := items + [item], AddItem(h, t, item).value;
    forall k ensures k in t'.groups <==> First(more, k) < |more| {
      FirstAfterOneMore(items, item, k);
    }
    GroupAfterItem(h, items, t, item);
    forall k | k in t'.groups && k != item.key ensures IsGroup(h, more, k, t'.groups[k]) {
      OtherGroupAfterItem(h, items, item, k, t.groups[k]);
    }
    OrderAfterItem(h, items, t, item);
  }

  lemma {:induction false} OrderAfterItem(h: Shape, items: seq<Item>, t: Table, item: Item)
    requires Groups(h, items, t) && AddItem(h, t, item).Ok?
    ensures var more, order := items + [item], AddItem(h, t, item).value.order;
            forall i, j :: 0 <= i < j < |order| ==> First(more, order[i]) < First(more, order[j])
  {
    var more, order := items + [item], AddItem(h, t, item).value.order;
    forall i, j | 0 <= i < j < |order| ensures First(more, order[i]) < First(more, order[j]) {
      assert order[i] == t.order[i];
      FirstAfterOneMore(items, item, order[i]);
      FirstAfterOneMore(items, item, order[j]);
    }
  }

  /** The one-shot definition computes the groups of its items. */
  lemma {:induction false} GroupItemsGroups(h: Shape, items: seq<Item>)
    requires GroupItems(h, EMPTY, items).Ok?
    ensures Groups(h, items, GroupItems(h, EMPTY, items).value)
  {
    if items == [] {
      assert Groups(h, items, EMPTY);
    } else {
      var before, last := items[..|items| - 1], items[|items| - 1];
      assert before + [last] == items;
      GroupItemsGroups(h, before);
      GroupOneMore(h, EMPTY, before, last);
      AddItemGroups(h, before, GroupItems(h, EMPTY, before).value, last);
    }
  }

  // ---------------------------------------------------------- laws of pruning

  lemma {:induction false} KeptDependsOnParts(h: Shape, g: map<Bytes, Group>, g': map<Bytes, Group>, order: seq<Bytes>, cutoff: Int64)
    requires forall k :: k in order ==> k in g && k in g' && g[k].keyParts == g'[k].keyParts
    ensures Kept(h, g, order, cutoff) == Kept(h, g', order, cutoff)
  {
    if order != [] {
      KeptDependsOnParts(h, g, g', order[..|order| - 1], cutoff);
    }
  }

  /** The group a key already has ends with the window of the item. */
  ghost predicate Agrees(h: Shape, t: Table, item: Item) {
    item.key in t.groups ==> h.endOf(t.groups[item.key].keyParts) == h.endOf(item.keyParts)
  }

  lemma {:induction false} KeptAfterItem(h: Shape, t: Table, item: Item, cutoff: Int64)
    requires Consistent(t) && AddItem(h, t, item).Ok? && Agrees(h, t, item)
    ensures var t' := AddItem(h, t, item).value;
            Kept(h, t'.groups, t'.order, cutoff)
            == if item.key in t.groups || h.endOf(item.keyParts) < cutoff then Kept(h, t.groups, t.order, cutoff)
               else Kept(h, t.groups, t.order, cutoff) + [item.key]
  {
    var t' := AddItem(h, t, item).value;
    KeptDependsOnParts(h, t.groups, t'.groups, t.order, cutoff);
    if item.key !in t.groups {
      assert t'.order[..|t'.order| - 1] == t.order;
    }
    assert Kept(h, t.groups, t.order, cutoff) + [] == Kept(h, t.groups, t.order, cutoff);
  }

  lemma {:induction false} KeptGroupsAfterUpdate(h: Shape, groups: map<Bytes, Group>, key: Bytes, g: Group, cutoff: Int64)
    requires key in groups ==> h.endOf(groups[key].keyParts) == h.endOf(g.keyParts)
    ensures KeptGroups(h, groups[key := g], cutoff)
            == if h.endOf(g.keyParts) >= cutoff then KeptGroups(h, groups, cutoff)[key := g]
               else KeptGroups(h, groups, cutoff)
  {
  }

  /** Pruning after an item is pruning before it, and an item of a closed window
      leaves nothing behind once the table is pruned. */
  lemma {:induction false} PruneAfterItem(h: Shape, t: Table, item: Item, cutoff: Int64)
    requires Consistent(t) && AddItem(h, t, item).Ok? && Agrees(h, t, item)
    ensures if h.endOf(item.keyParts) < cutoff
            then Prune(h, AddItem(h, t, item).value, cutoff) == Prune(h, t, cutoff)
            else AddItem(h, Prune(h, t, cutoff), item) == Ok(Prune(h, AddItem(h, t, item).value, cutoff))
  {
    KeptAfterItem(h, t, item, cutoff);
    KeptGroupsAfterUpdate(h, t.groups, item.key, AddItem(h, t, item).value.groups[item.key], cutoff);
    if h.endOf(item.keyParts) >= cutoff {
      assert EntryFor(h, Prune(h, t, cutoff), item) == EntryFor(h, t, item);
    }
  }

  lemma {:induction false} CoherentPrefix(h: Shape, items: seq<Item>, n: nat)
    requires n <= |items| && Coherent(h, items)
    ensures Coherent(h, items[..n])
  {
  }

  lemma {:induction false} CoherentAgrees(h: Shape, items: seq<Item>, t: Table, item: Item)
    requires Coherent(h, items + [item]) && Groups(h, items, t)
    ensures Agrees(h, t, item)
  {
    if item.key in t.groups {
      assert IsGroup(h, items, item.key, t.groups[item.key]);
      assert items[First(items, item.key)] in items + [item];
    }
  }

  lemma {:induction false} RetainedOneMore(h: Shape, items: seq<Item>, item: Item, cutoff: Int64)
    ensures Retained(h, items + [item], cutoff)
            == if h.endOf(item.keyParts) >= cutoff then Retained(h, items, cutoff) + [item]
               else Retained(h, items, cutoff)
  {
    assert (items + [item])[..|items|] == items;
    assert Retained(h, items, cutoff) + [] == Retained(h, items, cutoff);
  }

  lemma {:induction false} GroupOneMore(h: Shape, t: Table, items: seq<Item>, item: Item)
    requires GroupItems(h, t, items).Ok?
    ensures GroupItems(h, t, items + [item]) == AddItem(h, GroupItems(h, t, items).value, item)
  {
    assert (items + [item])[..|items|] == items;
  }

  /** Pruning the grouping of some items is grouping the items of the windows
      that survive: no survivor lost an item, no dropped window left one. */
  lemma {:induction false} PruneIsFilter(h: Shape, items: seq<Item>, cutoff: Int64)
    requires Coherent(h, items) && GroupItems(h, EMPTY, items).Ok?
    ensures GroupItems(h, EMPTY, Retained(h, items, cutoff))
            == Ok(Prune(h, GroupItems(h, EMPTY, items).value, cutoff))
  {
    if items == [] {
      assert Prune(h, EMPTY, cutoff) == EMPTY;
    } else {
      var before, item := items[..|items| - 1], items[|items| - 1];
      CoherentPrefix(h, items, |items| - 1);
      PruneIsFilter(h, before, cutoff);
      GroupItemsGroups(h, before);
      var t := GroupItems(h, EMPTY, before).value;
      assert before + [item] == items;
      CoherentAgrees(h, before, t, item);
      PruneAfterItem(h, t, item, cutoff);
      RetainedOneMore(h, before, item, cutoff);
      GroupOneMore(h, EMPTY, Retained(h, before, cutoff), item);
    }
  }

  lemma {:induction false} GroupConcatenation(h: Shape, t: Table, a: seq<Item>, b: seq<Item>)
    requires GroupItems(h, t, a).Ok?
    ensures GroupItems(h, t, a + b) == GroupItems(h, GroupItems(h, t, a).value, b)
  {
    if b == [] {
      assert a + b == a;
    } else {
      var b' := b[..|b| - 1];
      assert (a + b)[..|a + b| - 1] == a + b';
      GroupConcatenation(h, t, a, b');
    }
  }

  ghost predicate AllPlaced(rows: seq<Option<Item>>) { forall i :: 0 <= i < |rows| ==> rows[i].Some? }

  function Values(rows: seq<Option<Item>>): (items: seq<Item>)
    requires AllPlaced(rows)
    ensures |items| == |rows|
  {
    seq(|rows|, i requires 0 <= i < |rows| => rows[i].value)
  }

  lemma {:induction false} ValuesOneMore(rows: seq<Option<Item>>, item: Item)
    requires AllPlaced(rows)
    ensures AllPlaced(rows + [Some(item)]) && Values(rows + [Some(item)]) == Values(rows) + [item]
  {
  }

  /** Skipping late rows one by one is grouping the rows that are not late. */
  lemma {:induction false} AddPlacedIsGroupItems(h: Shape, t: Table, rows: seq<Option<Item>>, cutoff: Int64)
    requires AddPlaced(h, t, rows, cutoff).Ok?
    ensures AllPlaced(rows)
    ensures GroupItems(h, t, Retained(h, Values(rows), cutoff)) == AddPlaced(h, t, rows, cutoff)
  {
    if rows != [] {
      var before, item := rows[..|rows| - 1], rows[|rows| - 1].value;
      AddPlacedIsGroupItems(h, t, before, cutoff);
      ValuesOneMore(before, item);
      assert before + [Some(item)] == rows;
      RetainedOneMore(h, Values(before), item, cutoff);
      GroupOneMore(h, t, Retained(h, Values(before), cutoff), item);
    }
  }

  lemma {:induction false} RetainedTwice(h: Shape, items: seq<Item>, low: Int64, high: Int64)
    requires low <= high
    ensures Retained(h, Retained(h, items, low), high) == Retained(h, items, high)
  {
    if items != [] {
      var before, item := items[..|items| - 1], items[|items| - 1];
      RetainedTwice(h, before, low, high);
      assert before + [item] == items;
      RetainedOneMore(h, before, item, low);
      RetainedOneMore(h, before, item, high);
      RetainedOneMore(h, Retained(h, before, low), item, high);
    }
  }

  lemma {:induction false} RetainedConcatenation(h: Shape, a: seq<Item>, b: seq<Item>, cutoff: Int64)
    ensures Retained(h, a + b, cutoff) == Retained(h, a, cutoff) + Retained(h, b, cutoff)
  {
    if b == [] {
      assert a + b == a;
    } else {
      assert (a + b)[..|a + b| - 1] == a + b[..|b| - 1];
      RetainedConcatenation(h, a, b[..|b| - 1], cutoff);
    }
  }

  /** One batch applied to the table of a past: prune, then add what is not late.
      The result is the table of past and batch at the new cutoff. */
  lemma {:induction false} StepIsFilter(h: Shape, past: seq<Item>, t: Table, rows: seq<Option<Item>>, low: Int64, high: Int64)
    requires Coherent(h, past) && low <= high
    requires GroupItems(h, EMPTY, Retained(h, past, low)) == Ok(t)
    requires AddPlaced(h, Prune(h, t, high), rows, high).Ok?
    ensures AllPlaced(rows)
    ensures GroupItems(h, EMPTY, Retained(h, past + Values(rows), high)) == AddPlaced(h, Prune(h, t, high), rows, high)
  {
    AddPlacedIsGroupItems(h, Prune(h, t, high), rows, high);
    RetainedMembers(h, past, low);
    PruneIsFilter(h, Retained(h, past, low), high);
    RetainedTwice(h, past, low, high);
    RetainedConcatenation(h, past, Values(rows), high);
    GroupConcatenation(h, EMPTY, Retained(h, past, high), Retained(h, Values(rows), high));
  }

  lemma {:induction false} InputsIgnoreOtherWindows(h: Shape, items: seq<Item>, key: Bytes, cutoff: Int64)
    requires forall item :: item in items && item.key == key ==> h.endOf(item.keyParts) >= cutoff
    ensures InputsOf(Retained(h, items, cutoff), key) == InputsOf(items, key)
  {
    if items != [] {
      var before, item := items[..|items| - 1], items[|items| - 1];
      InputsIgnoreOtherWindows(h, before, key, cutoff);
      assert before + [item] == items;
      InputsAfterOneMore(before, item, key);
      RetainedOneMore(h, before, item, cutoff);
      InputsAfterOneMore(Retained(h, before, cutoff), item, key);
    }
  }

  /** A surviving group aggregates every item its key ever had, not only those
      that arrived since some pruning; and every group of a retained window
      survives. */
  lemma {:induction false} NoPartialGroups(h: Shape, items: seq<Item>, cutoff: Int64, k: Bytes)
    requires Coherent(h, items) && GroupItems(h, EMPTY, Retained(h, items, cutoff)).Ok?
    ensures var t := GroupItems(h, EMPTY, Retained(h, items, cutoff)).value;
            && (k in t.groups <==> First(items, k) < |items| && h.endOf(items[First(items, k)].keyParts) >= cutoff)
            && (k in t.groups ==> FoldInputs(h, InputsOf(items, k)) == Ok(t.groups[k].aggregates))
  {
    var kept := Retained(h, items, cutoff);
    var t := GroupItems(h, EMPTY, kept).value;
    GroupItemsGroups(h, kept);
    RetainedMembers(h, items, cutoff);
    if k in t.groups {
      assert IsGroup(h, kept, k, t.groups[k]);
      assert kept[First(kept, k)] in items;
      InputsIgnoreOtherWindows(h, items, k, cutoff);
    }
    if First(items, k) < |items| && h.endOf(items[First(items, k)].keyParts) >= cutoff {
      assert items[First(items, k)] in kept;
    }
  }
}
