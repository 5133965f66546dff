/** Lists of encoded items: the items one after the other, read back one by one. */
module ListCodec {
  import opened ByteCodec

  function PutEach<T>(put: T -> Bytes, items: seq<T>): Bytes {
    if items == [] then [] else PutEach(put, items[..|items| - 1]) + put(items[|items| - 1])
  }

  function GetEach<T>(get: Bytes -> Parse<T>, data: Bytes, count: nat): Parse<seq<T>>
    decreases count
  {
    if count == 0 then Done([], data)
    else
      var (item, rest) :- get(data);
      var (others, rest') :- GetEach(get, rest, count - 1);
      Done([item] + others, rest')
  }

  lemma {:induction false} PutEachNext<T>(put: T -> Bytes, items: seq<T>, i: nat)
    requires i < |items|
    ensures PutEach(put, items[..i + 1]) == PutEach(put, items[..i]) + put(items[i])
  {
    assert items[..i + 1][..i] == items[..i];
  }

  /** Appending one more item to a buffer that ends with the items before it. */
  lemma {:induction false} AppendedNext<T>(put: T -> Bytes, items: seq<T>, i: nat, start: Bytes, before: Bytes, after: Bytes)
    requires i < |items| && before == start + PutEach(put, items[..i]) && after == before + put(items[i])
    ensures after == start + PutEach(put, items[..i + 1])
  {
    PutEachNext(put, items, i);
    assert start + PutEach(put, items[..i]) + put(items[i]) == start + (PutEach(put, items[..i]) + put(items[i]));
  }

  lemma {:induction false} PutEachHead<T>(put: T -> Bytes, items: seq<T>)
    requires items != []
    ensures PutEach(put, items) == put(items[0]) + PutEach(put, items[1..])
  {
    var n := |items| - 1;
    if n > 0 {
      PutEachHead(put, items[..n]);
      assert items[..n][1..] == items[1..][..n - 1];
    }
  }

  /** What reading the rest adds to the items already read. */
  function Prepend<T>(items: seq<T>, p: Parse<seq<T>>): Parse<seq<T>> {
    match p
    case Done(more, rest) => Done(items + more, rest)
    case Failed(error) => Failed(error)
  }

  lemma {:induction false} PrependNothing<T>(p: Parse<seq<T>>)
    ensures Prepend([], p) == p
  {
    assert p.Done? ==> [] + p.value == p.value;
  }

  lemma {:induction false} PrependNext<T>(items: seq<T>, get: Bytes -> Parse<T>, data: Bytes, count: nat)
    requires count > 0 && get(data).Done?
    ensures Prepend(items, GetEach(get, data, count))
            == Prepend(items + [get(data).value], GetEach(get, get(data).rest, count - 1))
  {
    var next := get(data);
    var more := GetEach(get, next.rest, count - 1);
    if more.Done? {
      assert items + [next.value] + more.value == items + ([next.value] + more.value);
    }
  }

  /** The items read back, if each does whatever bytes follow it, up to a size. */
  ghost predicate ReadsBack<T>(put: T -> Bytes, get: Bytes -> Parse<T>, item: T, limit: nat) {
    forall rest: Bytes :: |put(item)| + |rest| <= limit ==> get(put(item) + rest) == Done(item, rest)
  }

  lemma {:induction false} GetEachStep<T>(get: Bytes -> Parse<T>, data: Bytes, count: nat, item: T, rest: Bytes, others: seq<T>, end: Bytes)
    requires get(data) == Done(item, rest) && GetEach(get, rest, count) == Done(others, end)
    ensures GetEach(get, data, count + 1) == Done([item] + others, end)
  {
  }

  lemma {:induction false} ReadBack<T>(put: T -> Bytes, get: Bytes -> Parse<T>, item: T, rest: Bytes, limit: nat)
    requires ReadsBack(put, get, item, limit) && |put(item)| + |rest| <= limit
    ensures get(put(item) + rest) == Done(item, rest)
  {
  }

  ghost predicate AllReadBack<T>(put: T -> Bytes, get: Bytes -> Parse<T>, items: seq<T>, limit: nat) {
    forall i :: 0 <= i < |items| ==> ReadsBack(put, get, items[i], limit)
  }

  lemma {:induction false} AllReadBackHead<T>(put: T -> Bytes, get: Bytes -> Parse<T>, items: seq<T>, limit: nat)
    requires items != [] && AllReadBack(put, get, items, limit)
    ensures ReadsBack(put, get, items[0], limit) && AllReadBack(put, get, items[1..], limit)
  {
  }

  lemma {:induction false} GetPutStep<T>(put: T -> Bytes, get: Bytes -> Parse<T>, first: T, later: seq<T>, rest: Bytes)
    requires var tail := PutEach(put, later) + rest;
             get(put(first) + tail) == Done(first, tail) && GetEach(get, tail, |later|) == Done(later, rest)
    ensures GetEach(get, PutEach(put, [first] + later) + rest, |later| + 1) == Done([first] + later, rest)
  {
    var tail := PutEach(put, later) + rest;
    PutEachHead(put, [first] + later);
    assert ([first] + later)[1..] == later;
    assert PutEach(put, [first] + later) + rest == put(first) + tail;
    GetEachStep(get, put(first) + tail, |later|, first, tail, later, rest);
  }

  lemma {:induction false} PutEachSize<T>(put: T -> Bytes, items: seq<T>)
    requires items != []
    ensures |PutEach(put, items)| == |put(items[0])| + |PutEach(put, items[1..])|
  {
    PutEachHead(put, items);
  }

  lemma {:induction false} GetPutEach<T>(put: T -> Bytes, get: Bytes -> Parse<T>, items: seq<T>, rest: Bytes, limit: nat)
    requires AllReadBack(put, get, items, limit) && |PutEach(put, items)| + |rest| <= limit
    ensures GetEach(get, PutEach(put, items) + rest, |items|) == Done(items, rest)
    decreases |items|
  {
    if items == [] {
      assert PutEach(put, items) + rest == rest;
    } else {
      AllReadBackHead(put, get, items, limit);
      PutEachSize(put, items);
      ReadBack(put, get, items[0], PutEach(put, items[1..]) + rest, limit);
      GetPutEach(put, get, items[1..], rest, limit);
      GetPutStep(put, get, items[0], items[1..], rest);
      assert items == [items[0]] + items[1..];
    }
  }

  /** If a reader accepts only what the writer writes, so does the list reader. */
  lemma {:induction false} GetEachInverse<T(!new)>(put: T -> Bytes, get: Bytes -> Parse<T>, data: Bytes, count: nat)
    requires forall bytes: Bytes :: get(bytes).Done? ==> bytes == put(get(bytes).value) + get(bytes).rest
    requires GetEach(get, data, count).Done?
    ensures var r := GetEach(get, data, count); |r.value| == count && data == PutEach(put, r.value) + r.rest
    decreases count
  {
    if count > 0 {
      var next := get(data);
      GetEachInverse(put, get, next.rest, count - 1);
      var others := GetEach(get, next.rest, count - 1);
      assert ([next.value] + others.value)[1..] == others.value;
      PutEachHead(put, [next.value] + others.value);
    }
  }
}
