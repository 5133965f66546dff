/** A store of partition snapshots, one file for each partition and epoch. */
module StateStores {
  import opened Wrappers
  import opened Machine
  import opened ByteCodec
  import opened ListCodec
  import opened ValueReaders
  import opened Orders
  import Decimal

  const VERSION: nat := 1

  /** The key of the snapshot that a rebalance saves outside any barrier. */
  const NO_EPOCH: Int64 := -1

  type Snapshot = map<Bytes, Bytes>
  type Entry = (Bytes, Bytes)

  // --------------------------------------------------------------- container

  function PutEntry(entry: Entry): Bytes { PutSized(entry.0) + PutSized(entry.1) }

  function GetEntry(data: Bytes): Parse<Entry> {
    var (name, rest) :- ReadSized(data);
    var (value, rest') :- ReadSized(rest);
    Done((name, value), rest')
  }

  function EntriesOf(snapshot: Snapshot, names: seq<Bytes>): (entries: seq<Entry>)
    requires forall name :: name in names ==> name in snapshot
    ensures |entries| == |names|
    ensures forall i :: 0 <= i < |names| ==> entries[i] == (names[i], snapshot[names[i]])
  {
    seq(|names|, i requires 0 <= i < |names| => (names[i], snapshot[names[i]]))
  }

  /** Entries in the order of their names; a later entry replaces an earlier one. */
  function Collect(entries: seq<Entry>): Snapshot {
    if entries == [] then map[]
    else Collect(entries[..|entries| - 1])[entries[|entries| - 1].0 := entries[|entries| - 1].1]
  }

  function Contained(snapshot: Snapshot): Bytes {
    PutUint(VERSION, 4) + (PutUint(|snapshot|, 4) + PutEach(PutEntry, EntriesOf(snapshot, Sorted(snapshot.Keys))))
  }

  function LoadedBody(data: Bytes): Result<Snapshot, ParseError> {
    match ReadUint(data, 4)
    case Failed(error) => Err(error)
    case Done(count, rest) =>
      match GetEach(GetEntry, rest, count)
      case Failed(error) => Err(error)
      case Done(entries, rest') => if rest' != [] then Err(TrailingBytes) else Ok(Collect(entries))
  }

  function LoadedFrom(data: Bytes): Result<Snapshot, ParseError> {
    match ReadUint(data, 4)
    case Failed(_) => Err(BadVersion)
    case Done(version, rest) => if version != VERSION then Err(BadVersion) else LoadedBody(rest)
  }

  lemma {:induction false} CollectHas(entries: seq<Entry>, k: nat)
    requires k < |entries| && forall i, j :: 0 <= i < j < |entries| ==> entries[i].0 != entries[j].0
    ensures entries[k].0 in Collect(entries) && Collect(entries)[entries[k].0] == entries[k].1
  {
    if k < |entries| - 1 { CollectHas(entries[..|entries| - 1], k); }
  }

  lemma {:induction false} CollectOnly(entries: seq<Entry>, name: Bytes)
    requires name in Collect(entries)
    ensures exists i :: 0 <= i < |entries| && entries[i].0 == name
  {
    var n := |entries| - 1;
    if entries[n].0 != name {
      CollectOnly(entries[..n], name);
      var i :| 0 <= i < n && entries[..n][i].0 == name;
      assert entries[i].0 == name;
    }
  }

  lemma {:induction false} CollectNamed(snapshot: Snapshot, names: seq<Bytes>, name: Bytes)
    requires Ascends(names) && (forall n :: n in names <==> n in snapshot)
    ensures var all := Collect(EntriesOf(snapshot, names));
            (name in all <==> name in snapshot) && (name in snapshot ==> all[name] == snapshot[name])
  {
    var entries := EntriesOf(snapshot, names);
    AscendsIsDistinct(names);
    if name in snapshot {
      assert name in names;
      var k :| 0 <= k < |names| && names[k] == name;
      CollectHas(entries, k);
    } else if name in Collect(entries) {
      CollectOnly(entries, name);
    }
  }

  lemma {:induction false} CollectEntries(snapshot: Snapshot)
    ensures Collect(EntriesOf(snapshot, Sorted(snapshot.Keys))) == snapshot
  {
    var all := Collect(EntriesOf(snapshot, Sorted(snapshot.Keys)));
    forall name ensures (name in all <==> name in snapshot) && (name in snapshot ==> all[name] == snapshot[name]) {
      CollectNamed(snapshot, Sorted(snapshot.Keys), name);
    }
  }

  lemma {:induction false} EntryReadsBack(entry: Entry)
    ensures ReadsBack(PutEntry, GetEntry, entry, TWO_32 - 1)
  {
    forall rest: Bytes | |PutEntry(entry)| + |rest| <= TWO_32 - 1
      ensures GetEntry(PutEntry(entry) + rest) == Done(entry, rest)
    {
      assert PutEntry(entry) + rest == PutSized(entry.0) + (PutSized(entry.1) + rest);
      ReadPutSized(entry.0, PutSized(entry.1) + rest);
      ReadPutSized(entry.1, rest);
    }
  }

  lemma {:induction false} CountFits(entries: seq<Entry>)
    ensures |PutEach(PutEntry, entries)| >= 8 * |entries|
  {
    if entries != [] { CountFits(entries[..|entries| - 1]); }
  }

  lemma {:induction false} LoadBody(snapshot: Snapshot, entries: seq<Entry>)
    requires |entries| < TWO_32 && Collect(entries) == snapshot && |PutEach(PutEntry, entries)| < TWO_32
    ensures LoadedBody(PutUint(|entries|, 4) + PutEach(PutEntry, entries)) == Ok(snapshot)
  {
    var all := PutEach(PutEntry, entries);
    BaseValues();
    ReadPutUint(|entries|, 4, all);
    forall i | 0 <= i < |entries| ensures ReadsBack(PutEntry, GetEntry, entries[i], TWO_32 - 1) {
      EntryReadsBack(entries[i]);
    }
    GetPutEach(PutEntry, GetEntry, entries, [], TWO_32 - 1);
    assert all + [] == all;
  }

  /** Loading what was saved gives the snapshot back, whatever its names are. */
  lemma {:induction false} LoadContained(snapshot: Snapshot)
    requires |Contained(snapshot)| < TWO_32
    ensures LoadedFrom(Contained(snapshot)) == Ok(snapshot)
  {
    var entries := EntriesOf(snapshot, Sorted(snapshot.Keys));
    CollectEntries(snapshot);
    CountFits(entries);
    LoadBody(snapshot, entries);
    BaseValues();
    ReadPutUint(VERSION, 4, PutUint(|entries|, 4) + PutEach(PutEntry, entries));
  }

  // -------------------------------------------------------------- file names

  function FileName(partition: int, epoch: Int64): Bytes {
    Ascii("partition-") + Decimal.IntText(partition)
    + if epoch == NO_EPOCH then Ascii(".snapshot")
      else Ascii("-epoch-") + Decimal.IntText(epoch) + Ascii(".snapshot")
  }

  lemma {:induction false} ByteBefore(bytes: Bytes, tail: Bytes, i: nat)
    ensures i < |bytes| ==> (bytes + tail)[i] == bytes[i]
  {
  }

  /** A number ends where something else than a digit follows. */
  lemma {:induction false} NumberEnds(m: int, n: int, tail: Bytes, tail': Bytes)
    requires Decimal.IntText(m) + tail == Decimal.IntText(n) + tail'
    requires tail != [] && !(48 <= tail[0] < 58)
    ensures |Decimal.IntText(n)| <= |Decimal.IntText(m)|
  {
    Decimal.ParseOfDigits(if n < 0 then -n else n);
    var a, b := Decimal.IntText(m), Decimal.IntText(n);
    assert (a + tail)[|a|] == tail[0];
    ByteBefore(b, tail', |a|);
  }

  lemma {:induction false} NumberIsDelimited(m: int, n: int, tail: Bytes, tail': Bytes)
    requires Decimal.IntText(m) + tail == Decimal.IntText(n) + tail'
    requires tail != [] && !(48 <= tail[0] < 58) && tail' != [] && !(48 <= tail'[0] < 58)
    ensures m == n && tail == tail'
  {
    NumberEnds(m, n, tail, tail');
    NumberEnds(n, m, tail', tail);
    var a, b := Decimal.IntText(m), Decimal.IntText(n);
    assert a == (a + tail)[..|a|] && b == (b + tail')[..|b|];
    assert tail == (a + tail)[|a|..] && tail' == (b + tail')[|b|..];
    Decimal.ParseIntText(m);
    Decimal.ParseIntText(n);
  }

  function Suffix(epoch: Int64): (suffix: Bytes)
    ensures suffix != [] && !(48 <= suffix[0] < 58)
  {
    if epoch == NO_EPOCH then Ascii(".snapshot")
    else Ascii("-epoch-") + (Decimal.IntText(epoch) + Ascii(".snapshot"))
  }

  lemma {:induction false} SuffixIsInjective(epoch: Int64, epoch': Int64)
    requires Suffix(epoch) == Suffix(epoch')
    ensures epoch == epoch'
  {
    var dash, dot := Ascii("-epoch-"), Ascii(".snapshot");
    assert dot[0] == 46 && dash[0] == 45;
    if epoch != NO_EPOCH && epoch' != NO_EPOCH {
      var a, b := Decimal.IntText(epoch) + dot, Decimal.IntText(epoch') + dot;
      assert a == (dash + a)[|dash|..] && b == (dash + b)[|dash|..];
      NumberIsDelimited(epoch, epoch', dot, dot);
    }
  }

  /** Every partition and epoch has a file of its own. */
  lemma {:induction false} FileNameIsInjective(partition: int, epoch: Int64, partition': int, epoch': Int64)
    ensures FileName(partition, epoch) == FileName(partition', epoch') <==> partition == partition' && epoch == epoch'
  {
    if FileName(partition, epoch) == FileName(partition', epoch') {
      var head := Ascii("partition-");
      var a, b := Decimal.IntText(partition) + Suffix(epoch), Decimal.IntText(partition') + Suffix(epoch');
      NameParts(partition, epoch);
      NameParts(partition', epoch');
      assert a == (head + a)[|head|..] && b == (head + b)[|head|..];
      NumberIsDelimited(partition, partition', Suffix(epoch), Suffix(epoch'));
      SuffixIsInjective(epoch, epoch');
    }
  }

  lemma {:induction false} NameParts(partition: int, epoch: Int64)
    ensures FileName(partition, epoch) == Ascii("partition-") + (Decimal.IntText(partition) + Suffix(epoch))
  {
    var dash, number, dot := Ascii("-epoch-"), Decimal.IntText(epoch), Ascii(".snapshot");
    assert dash + number + dot == dash + (number + dot);
  }

  // ------------------------------------------------------------------- store

  function Loaded(files: map<Bytes, Bytes>, partition: int, epoch: Int64): Result<Snapshot, ParseError> {
    var file := FileName(partition, epoch);
    if file in files then LoadedFrom(files[file]) else Ok(map[])
  }

  function Saved(files: map<Bytes, Bytes>, partition: int, epoch: Int64, snapshot: Snapshot): map<Bytes, Bytes> {
    files[FileName(partition, epoch) := Contained(snapshot)]
  }

  /** The store is a map from partition and epoch to snapshot: a save is seen by a
      later load of its key, and by no other. */
  lemma {:induction false} StoreIsMap(files: map<Bytes, Bytes>, partition: int, epoch: Int64, snapshot: Snapshot, p: int, e: Int64)
    requires |Contained(snapshot)| < TWO_32
    ensures Loaded(Saved(files, partition, epoch, snapshot), p, e)
            == if p == partition && e == epoch then Ok(snapshot) else Loaded(files, p, e)
  {
    FileNameIsInjective(partition, epoch, p, e);
    LoadContained(snapshot);
  }

  class FileStateStore {
    var files: map<Bytes, Bytes>

    constructor ()
      ensures files == map[]
    {
      files := map[];
    }

    method Load(partition: int, epoch: Int64) returns (r: Result<Snapshot, ParseError>)
      ensures r == Loaded(files, partition, epoch)
    {
      var file := FileName(partition, epoch);
      if file !in files { return Ok(map[]); }
      var reader := new ValueReader(files[file]);
      var version := reader.Uint(4);
      if version.Err? || version.value != VERSION { return Err(BadVersion); }
      r := LoadBody(reader);
    }

    method LoadBody(reader: ValueReader) returns (r: Result<Snapshot, ParseError>)
      modifies reader
      ensures r == LoadedBody(old(reader.data))
    {
      var count :- reader.Uint(4);
      var entries :- LoadEntries(reader, count);
      if |reader.data| != 0 { return Err(TrailingBytes); }
      r := Ok(entries);
    }

    method LoadEntry(reader: ValueReader) returns (r: Result<Entry, ParseError>)
      modifies reader
      ensures Reads(r, GetEntry(old(reader.data)), reader.data)
    {
      var name :- reader.Sized();
      var value :- reader.Sized();
      r := Ok((name, value));
    }

    method LoadEntries(reader: ValueReader, count: nat) returns (r: Result<Snapshot, ParseError>)
      modifies reader
      ensures match GetEach(GetEntry, old(reader.data), count)
              case Done(entries, rest) => r == Ok(Collect(entries)) && reader.data == rest
              case Failed(error) => r == Err(error)
    {
      ghost var entries: seq<Entry> := [];
      var result: Snapshot := map[];
      ListCodec.PrependNothing(GetEach(GetEntry, reader.data, count));
      for i := 0 to count
        invariant result == Collect(entries)
        invariant GetEach(GetEntry, old(reader.data), count)
                  == ListCodec.Prepend(entries, GetEach(GetEntry, reader.data, count - i))
      {
        ghost var before := reader.data;
        var entry :- LoadEntry(reader);
        ListCodec.PrependNext(entries, GetEntry, before, count - i);
        assert (entries + [entry])[..|entries|] == entries;
        entries := entries + [entry];
        result := result[entry.0 := entry.1];
      }
      assert entries + [] == entries;
      r := Ok(result);
    }

    method Save(partition: int, epoch: Int64, snapshot: Snapshot)
      modifies this
      ensures files == Saved(old(files), partition, epoch, snapshot)
    {
      var buffer := PutUint(VERSION, 4);
      var entries := AppendEntries(snapshot, Sorted(snapshot.Keys));
      buffer := buffer + (PutUint(|snapshot|, 4) + entries);
      files := files[FileName(partition, epoch) := buffer];
    }

    method AppendEntries(snapshot: Snapshot, names: seq<Bytes>) returns (buffer: Bytes)
      requires forall name :: name in names ==> name in snapshot
      ensures buffer == PutEach(PutEntry, EntriesOf(snapshot, names))
    {
      ghost var entries := EntriesOf(snapshot, names);
      buffer := [];
      for i := 0 to |names|
        invariant buffer == PutEach(PutEntry, entries[..i])
      {
        PutEachNext(PutEntry, entries, i);
        buffer := buffer + (PutSized(names[i]) + PutSized(snapshot[names[i]]));
      }
      assert entries[..|names|] == entries;
    }
  }
}
