/** The join as it runs, and the snapshot it writes and reads. */
module JoinProcessors {
  import opened Wrappers
  import opened Machine
  import opened ByteCodec
  import opened ValueReaders
  import opened Joins
  import opened Sequences

  const SNAPSHOT_VERSION: nat := 1

  function EncodeTimed(b: TimedBatch): Bytes { PutInt64(b.maxTimestamp) + PutSized(b.data) }

  function EncodeEach(batches: seq<TimedBatch>): (bytes: Bytes)
    ensures |batches| <= |bytes|
  {
    if batches == [] then [] else EncodeTimed(batches[0]) + EncodeEach(batches[1..])
  }

  function EncodeTimedBatches(batches: seq<TimedBatch>): Bytes {
    PutUint(|batches|, 4) + EncodeEach(batches)
  }

  function SnapshotBytes(s: State): Bytes {
    PutUint(SNAPSHOT_VERSION, 4) + PutInt64(s.streamTime) + EncodeTimedBatches(s.left) + EncodeTimedBatches(s.right)
  }

  function DecodeTimed(data: Bytes): (r: Parse<TimedBatch>)
    ensures r.Done? ==> |r.rest| < |data|
  {
    var (maxTimestamp, rest) :- ReadInt64(data);
    var (bytes, rest') :- ReadSized(rest);
    Done(TimedBatch(maxTimestamp, bytes), rest')
  }

  function DecodeEach(data: Bytes, count: nat): (r: Parse<seq<TimedBatch>>)
    ensures r.Done? ==> |r.value| == count && |r.rest| <= |data|
    decreases count
  {
    if count == 0 then Done([], data)
    else
      var (first, rest) :- DecodeTimed(data);
      var (others, rest') :- DecodeEach(rest, count - 1);
      Done([first] + others, rest')
  }

  function DecodeTimedBatches(data: Bytes): Parse<seq<TimedBatch>> {
    var (count, rest) :- ReadUint(data, 4);
    DecodeEach(rest, count)
  }

  function RestoreState(snapshot: Bytes): Result<State, ParseError> {
    match ReadUint(snapshot, 4)
    case Failed(error) => Err(BadVersion)
    case Done(version, rest) =>
      if version != SNAPSHOT_VERSION then Err(BadVersion)
      else
        match DecodeContent(rest)
        case Failed(error) => Err(error)
        case Done(s, rest') => if rest' != [] then Err(TrailingBytes) else Ok(s)
  }

  function DecodeContent(data: Bytes): Parse<State> {
    var (streamTime, rest) :- ReadInt64(data);
    var (left, rest') :- DecodeTimedBatches(rest);
    var (right, rest'') :- DecodeTimedBatches(rest');
    Done(State(left, right, streamTime), rest'')
  }

  lemma {:induction false} DecodeEncodeTimed(b: TimedBatch, rest: Bytes)
    requires |b.data| + |rest| < TWO_32
    ensures DecodeTimed(EncodeTimed(b) + rest) == Done(b, rest)
  {
    Regroup(PutInt64(b.maxTimestamp), PutSized(b.data), rest);
    ReadPutInt64(b.maxTimestamp, PutSized(b.data) + rest);
    ReadPutSized(b.data, rest);
  }

  lemma {:induction false} DecodeEncodeEach(batches: seq<TimedBatch>, rest: Bytes)
    requires |EncodeEach(batches)| + |rest| < TWO_32
    ensures DecodeEach(EncodeEach(batches) + rest, |batches|) == Done(batches, rest)
  {
    if batches == [] {
      assert EncodeEach(batches) + rest == rest;
    } else {
      var first, tail := batches[0], EncodeEach(batches[1..]) + rest;
      Regroup(EncodeTimed(first), EncodeEach(batches[1..]), rest);
      DecodeEncodeTimed(first, tail);
      DecodeEncodeEach(batches[1..], rest);
      assert batches == [first] + batches[1..];
    }
  }

  lemma {:induction false} DecodeEncodeTimedBatches(batches: seq<TimedBatch>, rest: Bytes)
    requires |EncodeTimedBatches(batches)| + |rest| < TWO_32
    ensures DecodeTimedBatches(EncodeTimedBatches(batches) + rest) == Done(batches, rest)
  {
    BaseValues();
    Regroup(PutUint(|batches|, 4), EncodeEach(batches), rest);
    ReadPutUint(|batches|, 4, EncodeEach(batches) + rest);
    DecodeEncodeEach(batches, rest);
  }

  /** A restored join has exactly the state that was saved, so its future outputs
      and snapshots are those of the original. */
  lemma {:induction false} RestoreSnapshot(s: State)
    requires |SnapshotBytes(s)| < TWO_32
    ensures RestoreState(SnapshotBytes(s)) == Ok(s)
  {
    var body := PutInt64(s.streamTime) + EncodeTimedBatches(s.left) + EncodeTimedBatches(s.right);
    Regroup(PutUint(SNAPSHOT_VERSION, 4), PutInt64(s.streamTime), EncodeTimedBatches(s.left));
    Regroup(PutUint(SNAPSHOT_VERSION, 4), PutInt64(s.streamTime) + EncodeTimedBatches(s.left), EncodeTimedBatches(s.right));
    ReadVersion(body);
    ContentRoundTrip(s);
  }

  lemma {:induction false} ReadVersion(rest: Bytes)
    ensures ReadUint(PutUint(SNAPSHOT_VERSION, 4) + rest, 4) == Done(SNAPSHOT_VERSION, rest)
  {
    BaseValues();
    ReadPutUint(SNAPSHOT_VERSION, 4, rest);
  }

  lemma {:induction false} ContentRoundTrip(s: State)
    requires |EncodeTimedBatches(s.left)| + |EncodeTimedBatches(s.right)| < TWO_32
    ensures DecodeContent(PutInt64(s.streamTime) + EncodeTimedBatches(s.left) + EncodeTimedBatches(s.right)) == Done(s, [])
  {
    var left, right := EncodeTimedBatches(s.left), EncodeTimedBatches(s.right);
    Regroup(PutInt64(s.streamTime), left, right);
    ReadPutInt64(s.streamTime, left + right);
    DecodeEncodeTimedBatches(s.left, right);
    DecodeEncodeTimedBatches(s.right, []);
    assert right + [] == right;
  }

  lemma {:induction false} TimedInverse(data: Bytes)
    requires DecodeTimed(data).Done?
    ensures data == EncodeTimed(DecodeTimed(data).value) + DecodeTimed(data).rest
  {
    var b, rest := DecodeTimed(data).value, DecodeTimed(data).rest;
    ReadInt64Inverse(data);
    SizedInverse(ReadInt64(data).rest);
    Regroup(PutInt64(b.maxTimestamp), PutSized(b.data), rest);
  }

  lemma {:induction false} EncodeDecodeEach(data: Bytes, count: nat)
    requires DecodeEach(data, count).Done?
    ensures data == EncodeEach(DecodeEach(data, count).value) + DecodeEach(data, count).rest
    decreases count
  {
    if count > 0 {
      var first := DecodeTimed(data);
      TimedInverse(data);
      EncodeDecodeEach(first.rest, count - 1);
      var others := DecodeEach(first.rest, count - 1);
      Regroup(EncodeTimed(first.value), EncodeEach(others.value), others.rest);
    }
  }

  lemma {:induction false} SizedInverse(data: Bytes)
    requires ReadSized(data).Done?
    ensures data == PutSized(ReadSized(data).value) + ReadSized(data).rest
  {
    ReadUintInverse(data, 4);
    var length, rest := ReadUint(data, 4).value, ReadUint(data, 4).rest;
    assert rest == rest[..length] + rest[length..];
  }

  lemma {:induction false} TimedBatchesInverse(data: Bytes)
    requires DecodeTimedBatches(data).Done?
    ensures data == EncodeTimedBatches(DecodeTimedBatches(data).value) + DecodeTimedBatches(data).rest
  {
    ReadUintInverse(data, 4);
    var count, rest := ReadUint(data, 4).value, ReadUint(data, 4).rest;
    EncodeDecodeEach(rest, count);
    var each := DecodeEach(rest, count);
    Regroup(PutUint(count, 4), EncodeEach(each.value), each.rest);
  }

  /** The reader is strict: it accepts only what the writer writes. */
  lemma {:induction false} SnapshotRestored(snapshot: Bytes)
    requires RestoreState(snapshot).Ok?
    ensures SnapshotBytes(RestoreState(snapshot).value) == snapshot
  {
    var s, body := RestoreState(snapshot).value, ReadUint(snapshot, 4).rest;
    ReadUintInverse(snapshot, 4);
    ContentInverse(body);
    var version := PutUint(SNAPSHOT_VERSION, 4);
    Regroup(version, PutInt64(s.streamTime), EncodeTimedBatches(s.left));
    Regroup(version, PutInt64(s.streamTime) + EncodeTimedBatches(s.left), EncodeTimedBatches(s.right));
  }

  lemma {:induction false} ContentInverse(data: Bytes)
    requires DecodeContent(data).Done? && DecodeContent(data).rest == []
    ensures var s := DecodeContent(data).value;
            data == PutInt64(s.streamTime) + EncodeTimedBatches(s.left) + EncodeTimedBatches(s.right)
  {
    var s, sides := DecodeContent(data).value, ReadInt64(data).rest;
    ReadInt64Inverse(data);
    TimedBatchesInverse(sides);
    TimedBatchesInverse(DecodeTimedBatches(sides).rest);
    assert EncodeTimedBatches(s.right) + [] == EncodeTimedBatches(s.right);
    Regroup(PutInt64(s.streamTime), EncodeTimedBatches(s.left), EncodeTimedBatches(s.right));
  }

  // ------------------------------------------------------------ prefix steps

  lemma {:induction false} JoinStoredFails(c: Config, outputs: Outputs, batch: JoinBatch, stored: seq<TimedBatch>, n: nat, batchIsLeft: bool)
    requires n <= |stored| && JoinStored(c, outputs, batch, stored[..n], batchIsLeft).Err?
    ensures JoinStored(c, outputs, batch, stored, batchIsLeft) == JoinStored(c, outputs, batch, stored[..n], batchIsLeft)
  {
    if n < |stored| {
      assert stored[..|stored| - 1][..n] == stored[..n];
      JoinStoredFails(c, outputs, batch, stored[..|stored| - 1], n, batchIsLeft);
    } else {
      assert stored[..n] == stored;
    }
  }

  lemma {:induction false} JoinNewFails(c: Config, outputs: Outputs, batch: JoinBatch, others: seq<JoinBatch>, n: nat)
    requires n <= |others| && JoinNew(c, outputs, batch, others[..n]).Err?
    ensures JoinNew(c, outputs, batch, others) == JoinNew(c, outputs, batch, others[..n])
  {
    if n < |others| {
      assert others[..|others| - 1][..n] == others[..n];
      JoinNewFails(c, outputs, batch, others[..|others| - 1], n);
    } else {
      assert others[..n] == others;
    }
  }

  lemma {:induction false} JoinLeftsFails(c: Config, newLeft: seq<JoinBatch>, n: nat, right: seq<TimedBatch>, newRight: seq<JoinBatch>)
    requires n <= |newLeft| && JoinLefts(c, newLeft[..n], right, newRight).Err?
    ensures JoinLefts(c, newLeft, right, newRight) == JoinLefts(c, newLeft[..n], right, newRight)
  {
    if n < |newLeft| {
      assert newLeft[..|newLeft| - 1][..n] == newLeft[..n];
      JoinLeftsFails(c, newLeft[..|newLeft| - 1], n, right, newRight);
    } else {
      assert newLeft[..n] == newLeft;
    }
  }

  lemma {:induction false} JoinRightsFails(c: Config, outputs: Outputs, newRight: seq<JoinBatch>, n: nat, left: seq<TimedBatch>)
    requires n <= |newRight| && JoinRights(c, outputs, newRight[..n], left).Err?
    ensures JoinRights(c, outputs, newRight, left) == JoinRights(c, outputs, newRight[..n], left)
  {
    if n < |newRight| {
      assert newRight[..|newRight| - 1][..n] == newRight[..n];
      JoinRightsFails(c, outputs, newRight[..|newRight| - 1], n, left);
    } else {
      assert newRight[..n] == newRight;
    }
  }

  lemma {:induction false} AdvanceFails(from: Int64, batches: seq<JoinBatch>, n: nat)
    requires n <= |batches| && AdvanceAll(from, batches[..n]).Err?
    ensures AdvanceAll(from, batches) == AdvanceAll(from, batches[..n])
  {
    if n < |batches| {
      assert batches[..|batches| - 1][..n] == batches[..n];
      AdvanceFails(from, batches[..|batches| - 1], n);
    } else {
      assert batches[..n] == batches;
    }
  }

  lemma {:induction false} StoreFails(c: Config, stored: seq<TimedBatch>, batches: seq<JoinBatch>, n: nat)
    requires n <= |batches| && StoreAll(c, stored, batches[..n]).Err?
    ensures StoreAll(c, stored, batches) == StoreAll(c, stored, batches[..n])
  {
    if n < |batches| {
      assert batches[..|batches| - 1][..n] == batches[..n];
      StoreFails(c, stored, batches[..|batches| - 1], n);
    } else {
      assert batches[..n] == batches;
    }
  }

  class JoinProcessor {
    const config: Config
    var left: seq<TimedBatch>
    var right: seq<TimedBatch>
    var streamTime: Int64

    function Content(): State
      reads this
    {
      State(left, right, streamTime)
    }

    constructor (config: Config)
      ensures this.config == config && Content() == INITIAL
    {
      this.config := config;
      left, right, streamTime := [], [], MIN_INT64;
    }

    method AdvanceStreamTime(batches: seq<JoinBatch>) returns (failure: Option<JoinError>)
      modifies `streamTime
      ensures AdvanceAll(old(streamTime), batches)
              == match failure case None => Ok(streamTime) case Some(error) => Err(error)
    {
      for i := 0 to |batches|
        invariant AdvanceAll(old(streamTime), batches[..i]) == Ok(streamTime)
      {
        assert batches[..i + 1][..i] == batches[..i];
        if !batches[i].hasTimestamp {
          AdvanceFails(old(streamTime), batches, i + 1);
          return Some(MissingTimestamp);
        }
        var rows := batches[i].rows;
        ghost var before := streamTime;
        for row := 0 to |rows|
          invariant streamTime == MaxTimestamp(before, rows[..row])
        {
          assert rows[..row + 1][..row] == rows[..row];
          streamTime := Later(streamTime, rows[row].timestamp);
        }
        assert rows[..|rows|] == rows;
      }
      assert batches[..|batches|] == batches;
      failure := None;
    }

    method Pruned(batches: seq<TimedBatch>) returns (kept: seq<TimedBatch>)
      ensures kept == Prune(batches, Clamp(streamTime - config.window)) == Prune(batches, Cutoff(config, streamTime))
    {
      CutoffIsClamped(config, streamTime);
      var cutoff := SaturatingSubtract(streamTime, config.window);
      kept := [];
      for i := 0 to |batches|
        invariant kept == Prune(batches[..i], cutoff)
      {
        assert batches[..i + 1][..i] == batches[..i];
        if batches[i].maxTimestamp >= cutoff {
          kept := kept + [batches[i]];
        }
      }
      assert batches[..|batches|] == batches;
    }

    method Matched(a: JoinBatch, b: JoinBatch, outputs: Outputs) returns (r: Result<Outputs, JoinError>)
      ensures r == AddMatches(config.matches, outputs, a, b)
    {
      if !a.hasKey { return Err(MissingKey); }
      if !b.hasKey { return Err(MissingKey); }
      if !a.hasTimestamp { return Err(MissingTimestamp); }
      if !b.hasTimestamp { return Err(MissingTimestamp); }
      var pairs: seq<Pair> := [];
      for i := 0 to |a.rows|
        invariant pairs == BatchPairs(config.matches, a.rows[..i], b.rows)
      {
        ghost var before := pairs;
        for j := 0 to |b.rows|
          invariant pairs == before + RowPairs(config.matches, a.rows[i], b.rows[..j])
        {
          assert b.rows[..j + 1][..j] == b.rows[..j];
          if config.matches(a.rows[i], b.rows[j]) {
            pairs := pairs + [(a.rows[i], b.rows[j])];
          }
        }
        assert b.rows[..|b.rows|] == b.rows;
        assert a.rows[..i + 1][..i] == a.rows[..i];
      }
      assert a.rows[..|a.rows|] == a.rows;
      r := Ok(if |pairs| > 0 then outputs + [pairs] else outputs);
    }

    method JoinedWithStored(batch: JoinBatch, stored: seq<TimedBatch>, batchIsLeft: bool, outputs: Outputs)
      returns (r: Result<Outputs, JoinError>)
      ensures r == JoinStored(config, outputs, batch, stored, batchIsLeft)
    {
      var joined := outputs;
      for i := 0 to |stored|
        invariant JoinStored(config, outputs, batch, stored[..i], batchIsLeft) == Ok(joined)
      {
        assert stored[..i + 1][..i] == stored[..i];
        var decoded := config.serde.deserialize(stored[i].data);
        if decoded.None? {
          JoinStoredFails(config, outputs, batch, stored, i + 1, batchIsLeft);
          return Err(SerdeFailed);
        }
        if batchIsLeft {
          r := Matched(batch, decoded.value, joined);
        } else {
          r := Matched(decoded.value, batch, joined);
        }
        if r.Err? {
          JoinStoredFails(config, outputs, batch, stored, i + 1, batchIsLeft);
          return;
        }
        joined := r.value;
      }
      assert stored[..|stored|] == stored;
      r := Ok(joined);
    }

    method JoinedWithNew(batch: JoinBatch, others: seq<JoinBatch>, outputs: Outputs) returns (r: Result<Outputs, JoinError>)
      ensures r == JoinNew(config, outputs, batch, others)
    {
      var joined := outputs;
      for i := 0 to |others|
        invariant JoinNew(config, outputs, batch, others[..i]) == Ok(joined)
      {
        assert others[..i + 1][..i] == others[..i];
        r := Matched(batch, others[i], joined);
        if r.Err? {
          JoinNewFails(config, outputs, batch, others, i + 1);
          return;
        }
        joined := r.value;
      }
      assert others[..|others|] == others;
      r := Ok(joined);
    }

    method Appended(stored: seq<TimedBatch>, batches: seq<JoinBatch>) returns (r: Result<seq<TimedBatch>, JoinError>)
      ensures r == StoreAll(config, stored, batches)
    {
      var kept := stored;
      for i := 0 to |batches|
        invariant StoreAll(config, stored, batches[..i]) == Ok(kept)
      {
        assert batches[..i + 1][..i] == batches[..i];
        var last := Store(config, batches[i]);
        if last.Err? {
          StoreFails(config, stored, batches, i + 1);
          return Err(last.error);
        }
        kept := kept + [last.value];
      }
      assert batches[..|batches|] == batches;
      r := Ok(kept);
    }

    /** One round of both sides. When it fails the content is whatever the failing
        part left. */
    method ProcessSides(newLeft: seq<JoinBatch>, newRight: seq<JoinBatch>) returns (r: Result<Outputs, JoinError>)
      modifies this
      ensures r.Ok? ==> Step(config, old(Content()), Round(newLeft, newRight)) == Ok((Content(), r.value))
      ensures r.Err? ==> Step(config, old(Content()), Round(newLeft, newRight)) == Err(r.error)
    {
      var failure := AdvanceStreamTime(newLeft);
      if failure.Some? { return Err(failure.value); }
      failure := AdvanceStreamTime(newRight);
      if failure.Some? { return Err(failure.value); }
      left := Pruned(left);
      right := Pruned(right);
      ghost var l, s := left, right;
      var outputs: Outputs := [];
      for i := 0 to |newLeft|
        invariant left == l && right == s && streamTime == StreamTimeAfter(old(Content()), Round(newLeft, newRight)).value
        invariant JoinLefts(config, newLeft[..i], s, newRight) == Ok(outputs)
      {
        assert newLeft[..i + 1][..i] == newLeft[..i];
        var stored := JoinedWithStored(newLeft[i], right, true, outputs);
        if stored.Err? {
          JoinLeftsFails(config, newLeft, i + 1, s, newRight);
          return stored;
        }
        r := JoinedWithNew(newLeft[i], newRight, stored.value);
        if r.Err? {
          JoinLeftsFails(config, newLeft, i + 1, s, newRight);
          return;
        }
        outputs := r.value;
      }
      assert newLeft[..|newLeft|] == newLeft;
      r := WithNewRight(newRight, outputs);
      if r.Err? { return; }
      var kept := Appended(left, newLeft);
      if kept.Err? { return Err(kept.error); }
      left := kept.value;
      kept := Appended(right, newRight);
      if kept.Err? { return Err(kept.error); }
      right := kept.value;
    }

    method WithNewRight(newRight: seq<JoinBatch>, outputs: Outputs) returns (r: Result<Outputs, JoinError>)
      ensures r == JoinRights(config, outputs, newRight, left)
    {
      var joined := outputs;
      for i := 0 to |newRight|
        invariant JoinRights(config, outputs, newRight[..i], left) == Ok(joined)
      {
        assert newRight[..i + 1][..i] == newRight[..i];
        r := JoinedWithStored(newRight[i], left, false, joined);
        if r.Err? {
          JoinRightsFails(config, outputs, newRight, i + 1, left);
          return;
        }
        joined := r.value;
      }
      assert newRight[..|newRight|] == newRight;
      r := Ok(joined);
    }

    method Snapshot() returns (buffer: Bytes)
      ensures buffer == SnapshotBytes(Content())
    {
      buffer := PutUint(SNAPSHOT_VERSION, 4) + PutInt64(streamTime);
      buffer := AppendTimedBatches(buffer, left);
      buffer := AppendTimedBatches(buffer, right);
    }

    /** A snapshot that cannot be read leaves the join as it was. */
    method Restore(snapshot: Bytes) returns (r: Result<(), ParseError>)
      modifies this
      ensures match RestoreState(snapshot)
              case Ok(s) => r == Ok(()) && Content() == s
              case Err(error) => r == Err(error) && Content() == old(Content())
    {
      var reader := new ValueReader(snapshot);
      var version := reader.Uint(4);
      if version.Err? || version.value != SNAPSHOT_VERSION { return Err(BadVersion); }
      var time :- reader.Int64();
      var newLeft :- ReadTimedBatches(reader);
      var newRight :- ReadTimedBatches(reader);
      if reader.data != [] { return Err(TrailingBytes); }
      streamTime, left, right := time, newLeft, newRight;
      r := Ok(());
    }
  }

  method AppendTimedBatches(buffer: Bytes, batches: seq<TimedBatch>) returns (r: Bytes)
    ensures r == buffer + EncodeTimedBatches(batches)
  {
    r := buffer + PutUint(|batches|, 4);
    ghost var header := r;
    assert batches[0..] == batches;
    for i := 0 to |batches|
      invariant r + EncodeEach(batches[i..]) == header + EncodeEach(batches)
    {
      assert batches[i..][1..] == batches[i + 1..];
      Regroup(r, EncodeTimed(batches[i]), EncodeEach(batches[i + 1..]));
      Regroup(r, PutInt64(batches[i].maxTimestamp), PutSized(batches[i].data));
      r := r + PutInt64(batches[i].maxTimestamp);
      r := r + PutSized(batches[i].data);
    }
    assert r + [] == r;
    Regroup(buffer, PutUint(|batches|, 4), EncodeEach(batches));
  }

  /** What reading the batches still missing adds to the ones already read. */
  function PrependBatches(read: seq<TimedBatch>, p: Parse<seq<TimedBatch>>): Parse<seq<TimedBatch>> {
    match p
    case Done(more, rest) => Done(read + more, rest)
    case Failed(error) => Failed(error)
  }

  lemma {:induction false} PrependNextBatch(read: seq<TimedBatch>, data: Bytes, count: nat)
    requires count > 0 && DecodeTimed(data).Done?
    ensures var next := DecodeTimed(data);
            PrependBatches(read, DecodeEach(data, count))
            == PrependBatches(read + [next.value], DecodeEach(next.rest, count - 1))
  {
    var next := DecodeTimed(data);
    var more := DecodeEach(next.rest, count - 1);
    if more.Done? {
      assert read + [next.value] + more.value == read + ([next.value] + more.value);
    }
  }

  lemma {:induction false} PrependNoBatches(p: Parse<seq<TimedBatch>>)
    ensures PrependBatches([], p) == p
  {
    assert p.Done? ==> [] + p.value == p.value;
  }

  method ReadTimed(reader: ValueReader) returns (r: Result<TimedBatch, ParseError>)
    modifies reader
    ensures Reads(r, DecodeTimed(old(reader.data)), reader.data)
  {
    var maxTimestamp :- reader.Int64();
    var data :- reader.Sized();
    r := Ok(TimedBatch(maxTimestamp, data));
  }

  method ReadEach(reader: ValueReader, count: nat) returns (r: Result<seq<TimedBatch>, ParseError>)
    modifies reader
    ensures Reads(r, DecodeEach(old(reader.data), count), reader.data)
  {
    var batches: seq<TimedBatch> := [];
    PrependNoBatches(DecodeEach(reader.data, count));
    for i := 0 to count
      invariant DecodeEach(old(reader.data), count) == PrependBatches(batches, DecodeEach(reader.data, count - i))
    {
      ghost var data := reader.data;
      var batch :- ReadTimed(reader);
      PrependNextBatch(batches, data, count - i);
      batches := batches + [batch];
    }
    assert batches + [] == batches;
    r := Ok(batches);
  }

  method ReadTimedBatches(reader: ValueReader) returns (r: Result<seq<TimedBatch>, ParseError>)
    modifies reader
    ensures Reads(r, DecodeTimedBatches(old(reader.data)), reader.data)
  {
    var count :- reader.Uint(4);
    r := ReadEach(reader, count);
  }
}
