/** Keys in ascending order, as a sorted list of the keys of a map. */
module Orders {
  import opened ByteCodec

  ghost predicate Ascends(texts: seq<Bytes>) {
    forall i, j :: 0 <= i < j < |texts| ==> Less(texts[i], texts[j])
  }

  lemma {:induction false} LessTransitive(a: Bytes, b: Bytes, c: Bytes)
    requires Less(a, b) && Less(b, c)
    ensures Less(a, c)
  {
    if |a| > 0 && a[0] == b[0] && b[0] == c[0] {
      LessTransitive(a[1..], b[1..], c[1..]);
    }
  }

  /** The text that comes before every other one of a set. */
  predicate IsLeast(text: Bytes, texts: set<Bytes>) {
    text in texts && forall other :: other in texts && other != text ==> Less(text, other)
  }

  lemma {:induction false} LeastExists(texts: set<Bytes>)
    requires texts != {}
    ensures exists text :: IsLeast(text, texts)
    decreases |texts|
  {
    var some :| some in texts;
    if texts == {some} {
      assert IsLeast(some, texts);
    } else {
      var rest := texts - {some};
      LeastExists(rest);
      var least :| IsLeast(least, rest);
      LessTotal(some, least);
      if Less(some, least) {
        forall other | other in texts && other != some ensures Less(some, other) {
          if other != least {
            LessTransitive(some, least, other);
          }
        }
        assert IsLeast(some, texts);
      } else {
        assert IsLeast(least, texts);
      }
    }
  }

  lemma {:induction false} LeastIsUnique(texts: set<Bytes>)
    ensures forall a, b :: IsLeast(a, texts) && IsLeast(b, texts) ==> a == b
  {
    forall a, b | IsLeast(a, texts) && IsLeast(b, texts) ensures a == b {
      if a != b {
        LessAsymmetric(a, b);
      }
    }
  }

  function Sorted(texts: set<Bytes>): (sorted: seq<Bytes>)
    ensures |sorted| == |texts|
    ensures forall text :: text in sorted <==> text in texts
    ensures Ascends(sorted)
    decreases |texts|
  {
    if texts == {} then []
    else
      LeastExists(texts);
      LeastIsUnique(texts);
      var least :| IsLeast(least, texts);
      [least] + Sorted(texts - {least})
  }

  /** There is one ascending list of a set of texts. */
  lemma {:induction false} AscendingIsUnique(a: seq<Bytes>, b: seq<Bytes>)
    requires Ascends(a) && Ascends(b) && forall text :: text in a <==> text in b
    ensures a == b
  {
    assert (a != [] ==> a[0] in b) && (b != [] ==> b[0] in a);
    if a != [] && b != [] {
      if a[0] != b[0] {
        assert Less(a[0], b[0]) && Less(b[0], a[0]);
        LessAsymmetric(a[0], b[0]);
      }
      TailMembers(a);
      TailMembers(b);
      AscendingIsUnique(a[1..], b[1..]);
      assert a == [a[0]] + a[1..] && b == [b[0]] + b[1..];
    }
  }

  lemma {:induction false} AscendsIsDistinct(texts: seq<Bytes>)
    requires Ascends(texts)
    ensures forall i, j :: 0 <= i < j < |texts| ==> texts[i] != texts[j]
  {
    forall i, j | 0 <= i < j < |texts| ensures texts[i] != texts[j] {
      LessAsymmetric(texts[i], texts[j]);
    }
  }

  lemma {:induction false} TailMembers(texts: seq<Bytes>)
    requires Ascends(texts) && texts != []
    ensures forall text :: text in texts[1..] <==> text in texts && text != texts[0]
  {
    AscendsIsDistinct(texts);
    assert texts == [texts[0]] + texts[1..];
  }
}
