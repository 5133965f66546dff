/** Partition numbers in ascending order. */
module IntOrders {

  predicate IsSmallest(n: int, ns: set<int>) { n in ns && forall other :: other in ns ==> n <= other }

  lemma {:induction false} SmallestExists(ns: set<int>)
    requires ns != {}
    ensures exists n :: IsSmallest(n, ns)
    decreases |ns|
  {
    assert (forall n: int :: n !in ns) ==> ns == {};
    var some: int :| some in ns;
    var rest := ns - {some};
    if rest == {} {
      assert ns == {some};
      assert IsSmallest(some, ns);
    } else {
      SmallestExists(rest);
      var least: int :| IsSmallest(least, rest);
      var smaller := if some < least then some else least;
      forall other | other in ns ensures smaller <= other {
        assert other == some || other in rest;
      }
      assert IsSmallest(smaller, ns);
    }
  }

  function SortedInts(ns: set<int>): (sorted: seq<int>)
    ensures |sorted| == |ns|
    ensures forall n :: n in sorted <==> n in ns
    ensures forall i, j :: 0 <= i < j < |sorted| ==> sorted[i] < sorted[j]
    decreases |ns|
  {
    if ns == {} then []
    else
      SmallestExists(ns);
      var least :| IsSmallest(least, ns);
      [least] + SortedInts(ns - {least})
  }
}
