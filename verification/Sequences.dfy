/** Laws of concatenation, kept apart so that a proof can name the one it uses. */
module Sequences {

  lemma {:induction false} Shift<T>(a: seq<T>, x: T, b: seq<T>)
    ensures a + [x] + b == a + ([x] + b)
  {
  }

  lemma {:induction false} Regroup<T>(a: seq<T>, b: seq<T>, c: seq<T>)
    ensures a + b + c == a + (b + c)
  {
  }

  lemma {:induction false} EmptyPrefix<T>(a: seq<T>)
    ensures [] + a == a
  {
  }

  lemma {:induction false} AppendInjective<T>(a: seq<T>, b: seq<T>, c: seq<T>, d: seq<T>)
    requires |a| == |c|
    ensures a + b == c + d <==> a == c && b == d
  {
    if a + b == c + d {
      assert a == (a + b)[..|a|] && b == (a + b)[|a|..];
      assert c == (c + d)[..|a|] && d == (c + d)[|a|..];
    }
  }

  // ------------------------------------------------------ blocks in a sequence

  /** How many elements the first `n` blocks have. */
  function Before<T>(blocks: seq<seq<T>>, n: nat): nat
    requires n <= |blocks|
  {
    if n == 0 then 0 else Before(blocks, n - 1) + |blocks[n - 1]|
  }

  /** The blocks one after the other: each stands at its place, and nothing else does. */
  ghost predicate IsConcatenation<T>(blocks: seq<seq<T>>, whole: seq<T>) {
    |whole| == Before(blocks, |blocks|) && forall b :: 0 <= b < |blocks| ==> InPlace(blocks, whole, b)
  }

  ghost predicate InPlace<T>(blocks: seq<seq<T>>, whole: seq<T>, b: nat)
    requires b < |blocks|
  {
    var start := Before(blocks, b);
    start + |blocks[b]| <= |whole| && whole[start..start + |blocks[b]|] == blocks[b]
  }

  lemma {:induction false} BeforeOfMore<T>(blocks: seq<seq<T>>, last: seq<T>, n: nat)
    requires n <= |blocks|
    ensures Before(blocks + [last], n) == Before(blocks, n)
  {
    if n > 0 {
      BeforeOfMore(blocks, last, n - 1);
    }
  }

  lemma {:induction false} NoBlocks<T>()
    ensures IsConcatenation<T>([], [])
  {
  }

  lemma {:induction false} OneMoreBlock<T>(blocks: seq<seq<T>>, whole: seq<T>, last: seq<T>)
    requires IsConcatenation(blocks, whole)
    ensures IsConcatenation(blocks + [last], whole + last)
  {
    var more, longer := blocks + [last], whole + last;
    BeforeOfMore(blocks, last, |blocks|);
    assert Before(more, |more|) == Before(more, |blocks|) + |last|;
    forall b: nat | b < |more| ensures InPlace(more, longer, b) {
      BeforeOfMore(blocks, last, if b < |blocks| then b else |blocks|);
      if b < |blocks| {
        assert InPlace(blocks, whole, b) && more[b] == blocks[b];
        var start := Before(blocks, b);
        assert longer[start..start + |blocks[b]|] == whole[start..start + |blocks[b]|];
      }
    }
  }

  lemma {:induction false} MoreBlocks<T>(a: seq<seq<T>>, x: seq<T>, b: seq<seq<T>>, y: seq<T>)
    requires IsConcatenation(a, x) && IsConcatenation(b, y)
    ensures IsConcatenation(a + b, x + y)
  {
    if b == [] {
      assert a + b == a && x + y == x;
    } else {
      var n := |b| - 1;
      var z := y[..Before(b, n)];
      assert InPlace(b, y, n);
      FewerBlocks(b, y);
      MoreBlocks(a, x, b[..n], z);
      OneMoreBlock(a + b[..n], x + z, b[n]);
      assert a + b == a + b[..n] + [b[n]];
      assert y == z + b[n] && x + y == x + z + b[n];
    }
  }

  lemma {:induction false} FewerBlocks<T>(blocks: seq<seq<T>>, whole: seq<T>)
    requires blocks != [] && IsConcatenation(blocks, whole)
    ensures var n := |blocks| - 1; Before(blocks, n) <= |whole| && IsConcatenation(blocks[..n], whole[..Before(blocks, n)])
  {
    var n := |blocks| - 1;
    var fewer, z := blocks[..n], whole[..Before(blocks, n)];
    assert blocks == fewer + [blocks[n]];
    forall b: nat | b <= n ensures Before(fewer, b) == Before(blocks, b) {
      BeforeOfMore(fewer, blocks[n], b);
    }
    forall b: nat | b < n ensures InPlace(fewer, z, b) {
      assert InPlace(blocks, whole, b);
      BeforeGrows(blocks, b + 1, n);
    }
  }

  lemma {:induction false} BeforeGrows<T>(blocks: seq<seq<T>>, m: nat, n: nat)
    requires m <= n <= |blocks|
    ensures Before(blocks, m) <= Before(blocks, n)
  {
    if m < n { BeforeGrows(blocks, m, n - 1); }
  }

  /** Blocks have one concatenation. */
  lemma {:induction false} ConcatenationIsUnique<T>(blocks: seq<seq<T>>, a: seq<T>, b: seq<T>)
    requires IsConcatenation(blocks, a) && IsConcatenation(blocks, b)
    ensures a == b
  {
    forall i | 0 <= i < |a| ensures a[i] == b[i] {
      var (n, k) := BlockOf(blocks, |blocks|, i);
      var start := Before(blocks, n);
      assert InPlace(blocks, a, n) && InPlace(blocks, b, n);
      assert a[start..start + |blocks[n]|][k] == b[start..start + |blocks[n]|][k];
    }
  }

  /** The block an element is in, and its place there. */
  function BlockOf<T>(blocks: seq<seq<T>>, n: nat, i: nat): (at: (nat, nat))
    requires n <= |blocks| && i < Before(blocks, n)
    ensures at.0 < n && at.1 < |blocks[at.0]| && i == Before(blocks, at.0) + at.1
  {
    if i >= Before(blocks, n - 1) then (n - 1, i - Before(blocks, n - 1)) else BlockOf(blocks, n - 1, i)
  }
}
