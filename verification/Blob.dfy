/** Arrow blobs: rows are cut into chunks that fit a byte cap and share one record
    envelope. */
module Blobs {
  import opened Wrappers
  import opened Machine
  import opened ByteCodec
  import opened Records

  type Payload = Bytes

  datatype Row = Row(key: Option<Bytes>, timestamp: Option<Int64>, headers: seq<Header>, payload: Payload)

  datatype BlobError = RowExceedsCap | SerdeFailed

  /** Serialising fails or gives bytes of some size, whatever the serialiser is. */
  datatype Codec = Codec(cap: nat, serialize: seq<Payload> -> Option<Bytes>)

  function PlainKey(key: Option<Bytes>): Bytes {
    match key case Some(bytes) => bytes case None => []
  }

  function TimestampOf(row: Row): Int64 {
    match row.timestamp case Some(t) => t case None => 0
  }

  function PlainHeaders(headers: seq<Header>): (r: seq<(Bytes, Bytes)>)
    ensures |r| == |headers|
  {
    seq(|headers|, i requires 0 <= i < |headers| => (headers[i].key, PlainKey(headers[i].value)))
  }

  /** What rows of one record have in common; null and empty bytes are equal. */
  datatype Envelope = Envelope(key: Bytes, timestamp: Int64, headers: seq<(Bytes, Bytes)>)

  function EnvelopeOf(row: Row): Envelope {
    Envelope(PlainKey(row.key), TimestampOf(row), PlainHeaders(row.headers))
  }

  function Payloads(rows: seq<Row>): (r: seq<Payload>)
    ensures |r| == |rows|
  {
    seq(|rows|, i requires 0 <= i < |rows| => rows[i].payload)
  }

  /** The rows from `s` to `e` share an envelope. */
  predicate Shares(rows: seq<Row>, s: nat, e: nat)
    requires e <= |rows|
  {
    forall i :: s <= i < e ==> EnvelopeOf(rows[i]) == EnvelopeOf(rows[s])
  }

  predicate Fits(c: Codec, rows: seq<Row>, s: nat, e: nat)
    requires s <= e <= |rows|
  {
    var bytes := c.serialize(Payloads(rows)[s..e]);
    bytes.Some? && |bytes.value| <= c.cap
  }

  predicate RowExceeds(c: Codec, rows: seq<Row>, i: nat) {
    i < |rows| && !Fits(c, rows, i, i + 1)
  }

  predicate SerdeFails(c: Codec, rows: seq<Row>, s: nat, e: nat) {
    s < e <= |rows| && c.serialize(Payloads(rows)[s..e]).None?
  }

  /** A chunk that one record can carry. */
  predicate IsChunk(c: Codec, rows: seq<Row>, s: nat, e: nat) {
    s < e <= |rows| && Shares(rows, s, e) && Fits(c, rows, s, e)
  }

  /** The ends of chunks that lie side by side from the first row to the last. */
  ghost predicate IsCover(c: Codec, rows: seq<Row>, ends: seq<nat>, upTo: nat) {
    && (forall k :: 0 <= k < |ends| ==> IsChunk(c, rows, StartOf(ends, k), ends[k]))
    && upTo == LastEnd(ends)
  }

  function StartOf(ends: seq<nat>, k: nat): nat
    requires k <= |ends|
  {
    if k == 0 then 0 else ends[k - 1]
  }

  function LastEnd(ends: seq<nat>): nat { if ends == [] then 0 else ends[|ends| - 1] }

  /** The record of a chunk has the envelope of its last row. */
  ghost predicate IsRecordOf(c: Codec, rows: seq<Row>, s: nat, e: nat, record: Outgoing) {
    && IsChunk(c, rows, s, e)
    && c.serialize(Payloads(rows)[s..e]) == Some(record.value)
    && record.key == rows[e - 1].key && record.timestamp == TimestampOf(rows[e - 1]) && record.headers == rows[e - 1].headers
  }

  // ------------------------------------------------------------ binary search

  /** The rows from `start` on that share its envelope. */
  method EnvelopeRows(rows: seq<Row>, start: nat) returns (n: nat)
    requires start < |rows|
    ensures 0 < n <= |rows| - start && Shares(rows, start, start + n)
    ensures start + n < |rows| ==> EnvelopeOf(rows[start + n]) != EnvelopeOf(rows[start])
  {
    var end := start + 1;
    while end < |rows| && EnvelopeOf(rows[end]) == EnvelopeOf(rows[start])
      invariant start < end <= |rows| && Shares(rows, start, end)
    {
      end := end + 1;
    }
    n := end - start;
  }

  /** Searches for the largest fitting chunk by halving, without relying on sizes
      that grow: what it finds always fits, it fails on size only when the single
      row does not fit, and one more row fits only if the sizes do not grow. */
  method LargestChunk(c: Codec, rows: seq<Row>, start: nat, available: nat) returns (r: Result<(nat, Bytes), BlobError>)
    requires start < |rows| && 0 < available <= |rows| - start
    ensures r.Ok? ==>
              && 0 < r.value.0 <= available
              && c.serialize(Payloads(rows)[start..start + r.value.0]) == Some(r.value.1) && |r.value.1| <= c.cap
              && (r.value.0 < available ==> !Fits(c, rows, start, start + r.value.0 + 1))
    ensures r == Err(RowExceedsCap) ==> !Fits(c, rows, start, start + 1)
    ensures r == Err(SerdeFailed) ==> exists e :: SerdeFails(c, rows, start, e)
  {
    var low, high := 1, available;
    var best, bestBytes := 0, [];
    while low <= high
      invariant 1 <= low <= high + 1 <= available + 1 && low == best + 1
      invariant best > 0 ==>
                  c.serialize(Payloads(rows)[start..start + best]) == Some(bestBytes) && |bestBytes| <= c.cap
      invariant high < available ==> !Fits(c, rows, start, start + high + 1)
      decreases high + 1 - low
    {
      var candidate := low + (high - low) / 2;
      var encoded := c.serialize(Payloads(rows)[start..start + candidate]);
      if encoded.None? {
        assert SerdeFails(c, rows, start, start + candidate);
        return Err(SerdeFailed);
      }
      if |encoded.value| <= c.cap {
        best, bestBytes := candidate, encoded.value;
        low := candidate + 1;
      } else {
        high := candidate - 1;
      }
    }
    if best == 0 { return Err(RowExceedsCap); }
    r := Ok((best, bestBytes));
  }

  /** One more row would overflow the chunk or change its envelope. */
  predicate IsMaximal(c: Codec, rows: seq<Row>, s: nat, e: nat)
    requires s < e <= |rows|
  {
    e < |rows| ==> EnvelopeOf(rows[e]) != EnvelopeOf(rows[s]) || !Fits(c, rows, s, e + 1)
  }

  ghost predicate AllMaximal(c: Codec, rows: seq<Row>, ends: seq<nat>) {
    forall k :: 0 <= k < |ends| ==> StartOf(ends, k) < ends[k] <= |rows| && IsMaximal(c, rows, StartOf(ends, k), ends[k])
  }

  ghost predicate AreRecords(c: Codec, rows: seq<Row>, ends: seq<nat>, records: seq<Outgoing>) {
    |records| == |ends| && forall k :: 0 <= k < |ends| ==> IsRecordOf(c, rows, StartOf(ends, k), ends[k], records[k])
  }

  /** The records of maximal chunks of the rows before `upTo`. */
  ghost predicate IsGreedy(c: Codec, rows: seq<Row>, ends: seq<nat>, records: seq<Outgoing>, upTo: nat) {
    IsCover(c, rows, ends, upTo) && AreRecords(c, rows, ends, records) && AllMaximal(c, rows, ends)
  }

  method NextRecord(c: Codec, rows: seq<Row>, start: nat) returns (r: Result<(nat, Outgoing), BlobError>)
    requires start < |rows|
    ensures r.Ok? ==> IsRecordOf(c, rows, start, r.value.0, r.value.1) && IsMaximal(c, rows, start, r.value.0)
    ensures r == Err(RowExceedsCap) ==> RowExceeds(c, rows, start)
    ensures r == Err(SerdeFailed) ==> exists e :: SerdeFails(c, rows, start, e)
  {
    var available := EnvelopeRows(rows, start);
    var chunk :- LargestChunk(c, rows, start, available);
    var end := start + chunk.0;
    var last := rows[end - 1];
    r := Ok((end, Outgoing(last.key, chunk.1, TimestampOf(last), last.headers)));
  }

  /** Encoding is an exact, capped cover: the chunks are all rows in order, each
      fits and shares one envelope, and each ends where one more row would not do. */
  method Encode(c: Codec, rows: seq<Row>) returns (r: Result<seq<Outgoing>, BlobError>, ghost ends: seq<nat>)
    ensures r.Ok? ==> IsGreedy(c, rows, ends, r.value, |rows|)
    ensures r == Err(RowExceedsCap) ==> exists i :: RowExceeds(c, rows, i)
    ensures r == Err(SerdeFailed) ==> exists s, e :: SerdeFails(c, rows, s, e)
  {
    var result: seq<Outgoing> := [];
    var start := 0;
    ends := [];
    while start < |rows|
      invariant start <= |rows| && IsGreedy(c, rows, ends, result, start)
      decreases |rows| - start
    {
      var next := NextRecord(c, rows, start);
      if next.Err? { return Err(next.error), ends; }
      var (end, record) := next.value;
      GreedyNext(c, rows, ends, result, start, end, record);
      result := result + [record];
      ends := ends + [end];
      start := end;
    }
    r := Ok(result);
  }

  lemma {:induction false} GreedyNext(c: Codec, rows: seq<Row>, ends: seq<nat>, records: seq<Outgoing>, start: nat, end: nat, record: Outgoing)
    requires IsGreedy(c, rows, ends, records, start)
    requires IsRecordOf(c, rows, start, end, record) && IsMaximal(c, rows, start, end)
    ensures IsGreedy(c, rows, ends + [end], records + [record], end)
    ensures start < end <= |rows|
  {
    CoverNext(c, rows, ends, start, end);
    RecordsNext(c, rows, ends, end, records, record);
    MaximalNext(c, rows, ends, end);
  }

  lemma {:induction false} RecordsNext(c: Codec, rows: seq<Row>, ends: seq<nat>, end: nat, records: seq<Outgoing>, record: Outgoing)
    requires AreRecords(c, rows, ends, records) && IsRecordOf(c, rows, LastEnd(ends), end, record)
    ensures AreRecords(c, rows, ends + [end], records + [record])
  {
    var more := ends + [end];
    forall k | 0 <= k < |more| ensures IsRecordOf(c, rows, StartOf(more, k), more[k], (records + [record])[k]) {
      StartOfNext(ends, end, k);
      if k < |ends| {
        assert IsRecordOf(c, rows, StartOf(ends, k), ends[k], records[k]);
        assert more[k] == ends[k] && (records + [record])[k] == records[k];
      } else {
        assert more[k] == end && (records + [record])[k] == record;
      }
    }
  }

  lemma {:induction false} StartOfNext(ends: seq<nat>, end: nat, k: nat)
    requires k <= |ends|
    ensures StartOf(ends + [end], k) == (if k < |ends| then StartOf(ends, k) else LastEnd(ends))
  {
  }

  lemma {:induction false} MaximalNext(c: Codec, rows: seq<Row>, ends: seq<nat>, end: nat)
    requires AllMaximal(c, rows, ends) && LastEnd(ends) < end <= |rows| && IsMaximal(c, rows, LastEnd(ends), end)
    ensures AllMaximal(c, rows, ends + [end])
  {
    var more := ends + [end];
    forall k | 0 <= k < |more| ensures StartOf(more, k) < more[k] <= |rows| && IsMaximal(c, rows, StartOf(more, k), more[k]) {
      StartOfNext(ends, end, k);
      if k < |ends| {
        assert more[k] == ends[k];
      } else {
        assert more[k] == end;
      }
    }
  }

  lemma {:induction false} CoverNext(c: Codec, rows: seq<Row>, ends: seq<nat>, start: nat, end: nat)
    requires IsCover(c, rows, ends, start) && IsChunk(c, rows, start, end)
    ensures IsCover(c, rows, ends + [end], end)
    ensures forall k :: 0 <= k < |ends| ==> StartOf(ends + [end], k) == StartOf(ends, k)
    ensures StartOf(ends + [end], |ends|) == start
  {
    var more := ends + [end];
    forall k | 0 <= k < |more| ensures IsChunk(c, rows, StartOf(more, k), more[k]) {
      if k < |ends| {
        assert more[k] == ends[k] && StartOf(more, k) == StartOf(ends, k);
      }
    }
  }

  // ------------------------------------------------------------- the greedy law

  /** Adding rows to a chunk at either end never makes it smaller. */
  ghost predicate SizesGrow(c: Codec, rows: seq<Row>) {
    forall s: nat, s': nat, e': nat, e: nat ::
      s <= s' < e' <= e <= |rows| && Fits(c, rows, s, e) ==> Fits(c, rows, s', e')
  }

  lemma {:induction false} PartOfChunkIsChunk(c: Codec, rows: seq<Row>, s: nat, s': nat, e': nat, e: nat)
    requires SizesGrow(c, rows) && IsChunk(c, rows, s, e) && s <= s' < e' <= e
    ensures IsChunk(c, rows, s', e')
  {
    assert EnvelopeOf(rows[s']) == EnvelopeOf(rows[s]);
  }

  /** A chunk that starts no later than another and ends after it shows that the
      other could have taken one more row. */
  lemma {:induction false} LongerChunkLeavesRoom(c: Codec, rows: seq<Row>, s: nat, e: nat, t: nat, u: nat)
    requires SizesGrow(c, rows) && IsChunk(c, rows, t, u) && t <= s < e < u
    ensures EnvelopeOf(rows[e]) == EnvelopeOf(rows[s]) && Fits(c, rows, s, e + 1)
  {
    assert EnvelopeOf(rows[s]) == EnvelopeOf(rows[t]) == EnvelopeOf(rows[e]);
  }

  lemma {:induction false} ChunkAt(c: Codec, rows: seq<Row>, ends: seq<nat>, k: nat)
    requires IsCover(c, rows, ends, |rows|) && k < |ends|
    ensures IsChunk(c, rows, StartOf(ends, k), StartOf(ends, k + 1))
  {
    assert IsChunk(c, rows, StartOf(ends, k), ends[k]);
  }

  lemma {:induction false} MaximalAt(c: Codec, rows: seq<Row>, ends: seq<nat>, k: nat)
    requires AllMaximal(c, rows, ends) && k < |ends|
    ensures StartOf(ends, k) < StartOf(ends, k + 1) <= |rows|
    ensures IsMaximal(c, rows, StartOf(ends, k), StartOf(ends, k + 1))
  {
    assert IsMaximal(c, rows, StartOf(ends, k), ends[k]);
  }

  lemma {:induction false} MaximalEndsLater(c: Codec, rows: seq<Row>, s: nat, e: nat, t: nat, u: nat)
    requires SizesGrow(c, rows) && IsChunk(c, rows, t, u) && t <= s < e <= |rows| && IsMaximal(c, rows, s, e)
    ensures u <= e
  {
    if e < u { LongerChunkLeavesRoom(c, rows, s, e, t, u); }
  }

  /** What the greedy cover needs for a cover to stay behind it by one more record. */
  ghost predicate StaysAhead(greedy: seq<nat>, other: seq<nat>) {
    forall k: nat :: k < |greedy| && k < |other| && StartOf(other, k) <= StartOf(greedy, k) ==> other[k] <= greedy[k]
  }

  lemma {:induction false} OneRecordFurther(c: Codec, rows: seq<Row>, greedy: seq<nat>, other: seq<nat>, k: nat)
    requires SizesGrow(c, rows) && IsCover(c, rows, greedy, |rows|) && AllMaximal(c, rows, greedy)
    requires IsCover(c, rows, other, |rows|) && k < |greedy| && k < |other| && StartOf(other, k) <= StartOf(greedy, k)
    ensures other[k] <= greedy[k]
  {
    ChunkAt(c, rows, other, k);
    MaximalAt(c, rows, greedy, k);
    MaximalEndsLater(c, rows, StartOf(greedy, k), greedy[k], StartOf(other, k), other[k]);
  }

  lemma {:induction false} AheadThroughout(greedy: seq<nat>, other: seq<nat>, k: nat)
    requires StaysAhead(greedy, other) && k <= |greedy| && k <= |other|
    ensures StartOf(other, k) <= StartOf(greedy, k)
  {
    if k > 0 { AheadThroughout(greedy, other, k - 1); }
  }

  /** The greedy cover is ahead of any other cover, record by record. */
  lemma {:induction false} GreedyIsAhead(c: Codec, rows: seq<Row>, greedy: seq<nat>, other: seq<nat>, k: nat)
    requires SizesGrow(c, rows) && IsCover(c, rows, greedy, |rows|) && AllMaximal(c, rows, greedy)
    requires IsCover(c, rows, other, |rows|) && k <= |greedy| && k <= |other|
    ensures StartOf(other, k) <= StartOf(greedy, k)
  {
    forall j: nat | j < |greedy| && j < |other| && StartOf(other, j) <= StartOf(greedy, j) ensures other[j] <= greedy[j] {
      OneRecordFurther(c, rows, greedy, other, j);
    }
    AheadThroughout(greedy, other, k);
  }

  /** If sizes grow with the range, no other cover uses fewer records. */
  lemma {:induction false} GreedyIsOptimal(c: Codec, rows: seq<Row>, greedy: seq<nat>, other: seq<nat>)
    requires SizesGrow(c, rows) && IsCover(c, rows, greedy, |rows|) && AllMaximal(c, rows, greedy)
    requires IsCover(c, rows, other, |rows|)
    ensures |greedy| <= |other|
  {
    if |other| < |greedy| {
      GreedyIsAhead(c, rows, greedy, other, |other|);
      ChunkAt(c, rows, greedy, |other|);
    }
  }

  /** And encoding fails on size exactly when some single row exceeds the cap. */
  lemma {:induction false} SizeFailureIsExact(c: Codec, rows: seq<Row>, ends: seq<nat>, i: nat)
    requires SizesGrow(c, rows) && IsCover(c, rows, ends, |rows|) && i < |rows|
    ensures Fits(c, rows, i, i + 1)
  {
    var k := ChunkOf(c, rows, ends, i);
    PartOfChunkIsChunk(c, rows, StartOf(ends, k), i, i + 1, ends[k]);
  }

  lemma {:induction false} CoverPrefix(c: Codec, rows: seq<Row>, ends: seq<nat>)
    requires ends != [] && IsCover(c, rows, ends, LastEnd(ends))
    ensures var n := |ends| - 1;
            && IsCover(c, rows, ends[..n], StartOf(ends, n)) && LastEnd(ends[..n]) == StartOf(ends, n)
            && (forall m :: 0 <= m < n ==> StartOf(ends[..n], m) == StartOf(ends, m))
            && IsChunk(c, rows, StartOf(ends, n), ends[n])
  {
    var n := |ends| - 1;
    forall m | 0 <= m < n ensures IsChunk(c, rows, StartOf(ends[..n], m), ends[..n][m]) {
      assert IsChunk(c, rows, StartOf(ends, m), ends[m]);
    }
  }

  lemma {:induction false} ChunkOf(c: Codec, rows: seq<Row>, ends: seq<nat>, i: nat) returns (k: nat)
    requires IsCover(c, rows, ends, LastEnd(ends)) && i < LastEnd(ends)
    ensures k < |ends| && StartOf(ends, k) <= i < ends[k]
  {
    var n := |ends| - 1;
    CoverPrefix(c, rows, ends);
    if StartOf(ends, n) <= i {
      k := n;
    } else {
      k := ChunkOf(c, rows, ends[..n], i);
    }
  }

  // -------------------------------------------------------------- round trip

  /** The payload rows of some records, one record after the other. */
  function Unpacked(deserialize: Bytes -> Option<seq<Payload>>, records: seq<Outgoing>): Option<seq<Payload>> {
    if records == [] then Some([])
    else
      match (Unpacked(deserialize, records[..|records| - 1]), deserialize(records[|records| - 1].value))
      case (Some(before), Some(last)) => Some(before + last)
      case _ => None
  }

  /** Decoding what was encoded gives every row back, in order. */
  lemma {:induction false} DecodeEncode(c: Codec, deserialize: Bytes -> Option<seq<Payload>>, rows: seq<Row>, ends: seq<nat>, records: seq<Outgoing>)
    requires forall ps: seq<Payload> :: c.serialize(ps).Some? ==> deserialize(c.serialize(ps).value) == Some(ps)
    requires IsCover(c, rows, ends, LastEnd(ends)) && AreRecords(c, rows, ends, records)
    ensures LastEnd(ends) <= |rows| && Unpacked(deserialize, records) == Some(Payloads(rows)[..LastEnd(ends)])
  {
    if ends != [] {
      var n := |ends| - 1;
      CoverPrefix(c, rows, ends);
      RecordsPrefix(c, rows, ends, records);
      DecodeEncode(c, deserialize, rows, ends[..n], records[..n]);
      UnpackedNext(c, deserialize, rows, StartOf(ends, n), ends[n], records);
    }
  }

  lemma {:induction false} RecordsPrefix(c: Codec, rows: seq<Row>, ends: seq<nat>, records: seq<Outgoing>)
    requires ends != [] && AreRecords(c, rows, ends, records)
    ensures var n := |ends| - 1;
            && AreRecords(c, rows, ends[..n], records[..n])
            && IsRecordOf(c, rows, StartOf(ends, n), ends[n], records[n])
  {
    var n := |ends| - 1;
    forall k | 0 <= k < n ensures IsRecordOf(c, rows, StartOf(ends[..n], k), ends[..n][k], records[..n][k]) {
      assert IsRecordOf(c, rows, StartOf(ends, k), ends[k], records[k]);
    }
  }

  lemma {:induction false} UnpackedNext(c: Codec, deserialize: Bytes -> Option<seq<Payload>>, rows: seq<Row>, s: nat, e: nat, records: seq<Outgoing>)
    requires forall ps: seq<Payload> :: c.serialize(ps).Some? ==> deserialize(c.serialize(ps).value) == Some(ps)
    requires records != [] && IsRecordOf(c, rows, s, e, records[|records| - 1])
    requires Unpacked(deserialize, records[..|records| - 1]) == Some(Payloads(rows)[..s])
    ensures Unpacked(deserialize, records) == Some(Payloads(rows)[..e])
  {
    assert Payloads(rows)[..e] == Payloads(rows)[..s] + Payloads(rows)[s..e];
  }
}
