/** The snapshots of the stateful processors of a partition, by node name. */
module PartitionSnapshots {
  import opened Wrappers
  import opened ByteCodec
  import opened Orders
  import opened Topologies

  type Snapshots = map<Bytes, Bytes>

  /** Whether a node takes part in snapshots. */
  predicate Saved(nodes: Nodes, i: int) {
    0 <= i < |nodes| && nodes[i].Keeps() && nodes[i].keeper.stateful
  }

  function TakeUpTo(nodes: Nodes, states: States, n: nat): Result<Snapshots, Failure>
    requires n <= |nodes|
  {
    if n == 0 then Ok(map[])
    else
      var before :- TakeUpTo(nodes, states, n - 1);
      if Saved(nodes, n - 1) then
        var bytes :- nodes[n - 1].keeper.snapshot(StateOf(states, n - 1));
        Ok(before[nodes[n - 1].name := bytes])
      else Ok(before)
  }

  /** The snapshots of all stateful processors, or the failure of one of them. */
  function Take(nodes: Nodes, states: States): Result<Snapshots, Failure> {
    TakeUpTo(nodes, states, |nodes|)
  }

  /** The node of a name, or the number of nodes. */
  function Find(nodes: Nodes, name: Bytes): (i: nat)
    ensures i <= |nodes| && (i < |nodes| ==> nodes[i].name == name)
    ensures forall k :: 0 <= k < i ==> nodes[k].name != name
  {
    if nodes == [] || nodes[0].name == name then 0 else 1 + Find(nodes[1..], name)
  }

  function RestoreOne(nodes: Nodes, states: States, name: Bytes, bytes: Bytes): Result<States, Failure> {
    var i := Find(nodes, name);
    if Saved(nodes, i) then
      var state :- nodes[i].keeper.restore(StateOf(states, i), bytes);
      Ok(states[i := state])
    else Ok(states)
  }

  function RestoreAll(nodes: Nodes, states: States, snapshots: Snapshots, names: seq<Bytes>): Result<States, Failure>
    requires forall name :: name in names ==> name in snapshots
  {
    if names == [] then Ok(states)
    else
      var last := names[|names| - 1];
      var before :- RestoreAll(nodes, states, snapshots, names[..|names| - 1]);
      RestoreOne(nodes, before, last, snapshots[last])
  }

  /** Fresh processors filled from snapshots, name by name. */
  function Restored(nodes: Nodes, states: States, snapshots: Snapshots): Result<States, Failure> {
    RestoreAll(nodes, states, snapshots, Sorted(snapshots.Keys))
  }

  // ------------------------------------------------------------- faithfulness

  /** A fresh processor filled from the snapshot of this state takes that snapshot
      again. */
  ghost predicate FaithfulAt(k: Keeper, s: State) {
    k.snapshot(s).Ok? ==>
      && k.restore(k.initial, k.snapshot(s).value).Ok?
      && k.snapshot(k.restore(k.initial, k.snapshot(s).value).value) == k.snapshot(s)
  }

  ghost predicate AllFaithfulAt(nodes: Nodes, states: States) {
    forall i :: Saved(nodes, i) ==> FaithfulAt(nodes[i].keeper, StateOf(states, i))
  }

  /** `m` has the snapshot of every saved node among the first `n`, and no more. */
  ghost predicate IsTaken(nodes: Nodes, states: States, n: nat, m: Snapshots)
    requires n <= |nodes|
  {
    && (forall i :: 0 <= i < n && Saved(nodes, i) ==>
                      nodes[i].name in m && nodes[i].keeper.snapshot(StateOf(states, i)) == Ok(m[nodes[i].name]))
    && (forall name :: name in m ==> exists i :: 0 <= i < n && Saved(nodes, i) && nodes[i].name == name)
  }

  lemma {:induction false} TakeIsTaken(nodes: Nodes, states: States, n: nat)
    requires n <= |nodes| && UniqueNames(nodes)
    ensures TakeUpTo(nodes, states, n).Ok? ==> IsTaken(nodes, states, n, TakeUpTo(nodes, states, n).value)
    ensures (forall i :: 0 <= i < n && Saved(nodes, i) ==> nodes[i].keeper.snapshot(StateOf(states, i)).Ok?) <==>
              TakeUpTo(nodes, states, n).Ok?
  {
    if n > 0 {
      TakeIsTaken(nodes, states, n - 1);
    }
  }

  /** The snapshots of a partition are those of its stateful processors, each under the
      name of its node, and they are taken if and only if each of them can be. */
  lemma {:induction false} TakeIsExact(nodes: Nodes, states: States)
    requires UniqueNames(nodes)
    ensures Take(nodes, states).Ok? <==> forall i :: Saved(nodes, i) ==> nodes[i].keeper.snapshot(StateOf(states, i)).Ok?
    ensures Take(nodes, states).Ok? ==> IsTaken(nodes, states, |nodes|, Take(nodes, states).value)
  {
    TakeIsTaken(nodes, states, |nodes|);
  }

  ghost predicate SameSnapshots(nodes: Nodes, states: States, states': States) {
    forall i :: Saved(nodes, i) ==>
                  nodes[i].keeper.snapshot(StateOf(states, i)) == nodes[i].keeper.snapshot(StateOf(states', i))
  }

  lemma {:induction false} TakenFromBoth(nodes: Nodes, states: States, states': States, a: Snapshots, b: Snapshots, name: Bytes)
    requires IsTaken(nodes, states, |nodes|, a) && IsTaken(nodes, states', |nodes|, b)
    requires SameSnapshots(nodes, states, states') && name in a
    ensures name in b && a[name] == b[name]
  {
    var i :| 0 <= i < |nodes| && Saved(nodes, i) && nodes[i].name == name;
    assert nodes[i].keeper.snapshot(StateOf(states, i)) == Ok(a[name]);
    assert nodes[i].keeper.snapshot(StateOf(states', i)) == Ok(b[name]);
  }

  lemma {:induction false} TakenIsUnique(nodes: Nodes, states: States, states': States, a: Snapshots, b: Snapshots)
    requires IsTaken(nodes, states, |nodes|, a) && IsTaken(nodes, states', |nodes|, b)
    requires SameSnapshots(nodes, states, states')
    ensures a == b
  {
    forall name | name in a ensures name in b && a[name] == b[name] {
      TakenFromBoth(nodes, states, states', a, b, name);
    }
    forall name | name in b ensures name in a {
      TakenFromBoth(nodes, states', states, b, a, name);
    }
    assert a.Keys == b.Keys;
  }

  lemma {:induction false} FindNamed(nodes: Nodes, i: nat)
    requires UniqueNames(nodes) && i < |nodes|
    ensures Find(nodes, nodes[i].name) == i
  {
    // No node before this one has its name, and none after it does either.
    assert forall k :: 0 <= k < i ==> nodes[k].name != nodes[i].name;
  }

  /** What each processor holds once the snapshots of some names are restored. */
  ghost predicate Refilled(nodes: Nodes, states: States, snapshots: Snapshots, names: seq<Bytes>, now: States) {
    && now.Keys == states.Keys
    && forall i :: Saved(nodes, i) && i in states ==>
                     if nodes[i].name in names then
                       nodes[i].name in snapshots
                       && nodes[i].keeper.restore(states[i], snapshots[nodes[i].name]) == Ok(now[i])
                     else now[i] == states[i]
  }

  ghost predicate UnsavedStay(nodes: Nodes, states: States, now: States) {
    now.Keys == states.Keys && forall i :: i in states && !Saved(nodes, i) ==> now[i] == states[i]
  }

  lemma {:induction false} RestoreRefills(nodes: Nodes, states: States, snapshots: Snapshots, names: seq<Bytes>)
    requires UniqueNames(nodes) && (forall name :: name in names ==> name in snapshots)
    requires forall i :: Saved(nodes, i) ==> i in states
    requires forall i, j :: 0 <= i < j < |names| ==> names[i] != names[j]
    requires forall i :: Saved(nodes, i) && nodes[i].name in snapshots ==>
                           nodes[i].keeper.restore(states[i], snapshots[nodes[i].name]).Ok?
    ensures RestoreAll(nodes, states, snapshots, names).Ok?
    ensures Refilled(nodes, states, snapshots, names, RestoreAll(nodes, states, snapshots, names).value)
  {
    if names != [] {
      var fewer, last := names[..|names| - 1], names[|names| - 1];
      RestoreRefills(nodes, states, snapshots, fewer);
      assert names == fewer + [last] && last !in fewer;
      forall i: nat | i < |nodes| ensures Find(nodes, nodes[i].name) == i {
        FindNamed(nodes, i);
      }
    }
  }

  lemma {:induction false} RestoreLeavesOthers(nodes: Nodes, states: States, snapshots: Snapshots, names: seq<Bytes>)
    requires (forall name :: name in names ==> name in snapshots) && (forall i :: Saved(nodes, i) ==> i in states)
    requires RestoreAll(nodes, states, snapshots, names).Ok?
    ensures UnsavedStay(nodes, states, RestoreAll(nodes, states, snapshots, names).value)
  {
    if names != [] {
      RestoreLeavesOthers(nodes, states, snapshots, names[..|names| - 1]);
    }
  }

  lemma {:induction false} RestoreNeedsAll(nodes: Nodes, states: States, snapshots: Snapshots, names: seq<Bytes>, i: nat)
    requires UniqueNames(nodes) && (forall name :: name in names ==> name in snapshots)
    requires forall i :: Saved(nodes, i) ==> i in states
    requires forall i, j :: 0 <= i < j < |names| ==> names[i] != names[j]
    requires RestoreAll(nodes, states, snapshots, names).Ok? && Saved(nodes, i)
    ensures if nodes[i].name in names then
              && nodes[i].keeper.restore(states[i], snapshots[nodes[i].name]).Ok?
              && StateOf(RestoreAll(nodes, states, snapshots, names).value, i) == nodes[i].keeper.restore(states[i], snapshots[nodes[i].name]).value
            else StateOf(RestoreAll(nodes, states, snapshots, names).value, i) == states[i]
  {
    if names != [] {
      var fewer, last := names[..|names| - 1], names[|names| - 1];
      assert names == fewer + [last] && last !in fewer;
      RestoreNeedsAll(nodes, states, snapshots, fewer, i);
      RestoreLeavesOthers(nodes, states, snapshots, fewer);
      FindNamed(nodes, i);
    }
  }

  /** Processors are filled if and only if each that has a snapshot takes it, from the
      state it is in; then exactly these are refilled. Names of no processor are ignored. */
  lemma {:induction false} RestoreIsExact(nodes: Nodes, states: States, snapshots: Snapshots)
    requires UniqueNames(nodes) && forall i :: Saved(nodes, i) ==> i in states
    ensures Restored(nodes, states, snapshots).Ok? <==>
              forall i :: Saved(nodes, i) && nodes[i].name in snapshots ==>
                            nodes[i].keeper.restore(states[i], snapshots[nodes[i].name]).Ok?
    ensures Restored(nodes, states, snapshots).Ok? ==>
              && UnsavedStay(nodes, states, Restored(nodes, states, snapshots).value)
              && forall i :: Saved(nodes, i) ==>
                               StateOf(Restored(nodes, states, snapshots).value, i)
                               == if nodes[i].name in snapshots then nodes[i].keeper.restore(states[i], snapshots[nodes[i].name]).value
                                  else states[i]
  {
    var names := Sorted(snapshots.Keys);
    AscendsIsDistinct(names);
    if Restored(nodes, states, snapshots).Ok? {
      RestoreLeavesOthers(nodes, states, snapshots, names);
      forall i | Saved(nodes, i)
        ensures nodes[i].name in snapshots ==> nodes[i].keeper.restore(states[i], snapshots[nodes[i].name]).Ok?
        ensures StateOf(Restored(nodes, states, snapshots).value, i)
                == if nodes[i].name in snapshots then nodes[i].keeper.restore(states[i], snapshots[nodes[i].name]).value else states[i]
      {
        RestoreNeedsAll(nodes, states, snapshots, names, i);
      }
    }
    if forall i :: Saved(nodes, i) && nodes[i].name in snapshots ==> nodes[i].keeper.restore(states[i], snapshots[nodes[i].name]).Ok? {
      RestoreRefills(nodes, states, snapshots, names);
    }
  }

  /** What restoring a snapshot leaves, node by node. */
  lemma {:induction false} RestoredRefills(nodes: Nodes, states: States)
    requires UniqueNames(nodes) && AllFaithfulAt(nodes, states) && Take(nodes, states).Ok?
    ensures Restored(nodes, Fresh(nodes), Take(nodes, states).value).Ok?
    ensures var now := Restored(nodes, Fresh(nodes), Take(nodes, states).value).value;
            && UnsavedStay(nodes, Fresh(nodes), now)
            && forall i :: Saved(nodes, i) ==>
                             && i in now && nodes[i].keeper.snapshot(StateOf(states, i)).Ok?
                             && nodes[i].keeper.restore(nodes[i].keeper.initial, nodes[i].keeper.snapshot(StateOf(states, i)).value) == Ok(now[i])
  {
    var m := Take(nodes, states).value;
    TakeIsTaken(nodes, states, |nodes|);
    AscendsIsDistinct(Sorted(m.Keys));
    forall i | Saved(nodes, i) && nodes[i].name in m
      ensures nodes[i].keeper.restore(Fresh(nodes)[i], m[nodes[i].name]).Ok?
    {
      assert FaithfulAt(nodes[i].keeper, StateOf(states, i));
    }
    RestoreRefills(nodes, Fresh(nodes), m, Sorted(m.Keys));
    RestoreLeavesOthers(nodes, Fresh(nodes), m, Sorted(m.Keys));
    var now := Restored(nodes, Fresh(nodes), m).value;
    forall i | Saved(nodes, i)
      ensures i in now && nodes[i].keeper.snapshot(StateOf(states, i)).Ok?
      ensures nodes[i].keeper.restore(nodes[i].keeper.initial, nodes[i].keeper.snapshot(StateOf(states, i)).value) == Ok(now[i])
    {
      assert nodes[i].name in m && i in Fresh(nodes);
    }
  }

  /** Restoring a snapshot into fresh processors gives processors that take the
      same snapshot. */
  lemma {:induction false} RestoredTakesTheSame(nodes: Nodes, states: States)
    requires UniqueNames(nodes) && AllFaithfulAt(nodes, states) && Take(nodes, states).Ok?
    ensures Restored(nodes, Fresh(nodes), Take(nodes, states).value).Ok?
    ensures Take(nodes, Restored(nodes, Fresh(nodes), Take(nodes, states).value).value) == Take(nodes, states)
    ensures Restored(nodes, Fresh(nodes), Take(nodes, states).value).value.Keys == Fresh(nodes).Keys
    ensures AllFaithfulAt(nodes, Restored(nodes, Fresh(nodes), Take(nodes, states).value).value)
  {
    var m := Take(nodes, states).value;
    RestoredRefills(nodes, states);
    var now := Restored(nodes, Fresh(nodes), m).value;
    forall i | Saved(nodes, i)
      ensures nodes[i].keeper.snapshot(StateOf(now, i)) == nodes[i].keeper.snapshot(StateOf(states, i))
    {
      assert FaithfulAt(nodes[i].keeper, StateOf(states, i));
    }
    TakeIsTaken(nodes, states, |nodes|);
    TakeIsTaken(nodes, now, |nodes|);
    TakenIsUnique(nodes, states, now, m, Take(nodes, now).value);
  }
}
