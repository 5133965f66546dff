/** Graphs of named types that contain one another, their endless unfolding, and the
    finite tree that cuts it off where a name is inside itself. */
module Unfoldings {
  import opened Wrappers
  import opened ByteCodec
  import opened ArrowTypes

  /** What is right inside a node, with no care for cycles, and the name of the type
      that the node opens, if it opens one. */
  datatype Graph<!N> = Graph(inside: N -> seq<N>, opens: N -> Option<Bytes>)

  function Named(name: Option<Bytes>): seq<Bytes> {
    match name case None => [] case Some(n) => [n]
  }

  /** The node at a position of the unfolding, which cycles make endless. */
  function At<N>(g: Graph<N>, s: N, pos: seq<nat>): Option<N>
    decreases |pos|
  {
    if pos == [] then Some(s)
    else if pos[0] < |g.inside(s)| then At(g, g.inside(s)[pos[0]], pos[1..])
    else None
  }

  /** The names opened on the way to a position. */
  function Opened<N>(g: Graph<N>, s: N, pos: seq<nat>): seq<Bytes>
    decreases |pos|
  {
    if pos == [] then []
    else Named(g.opens(s)) + if pos[0] < |g.inside(s)| then Opened(g, g.inside(s)[pos[0]], pos[1..]) else []
  }

  predicate NoRepeats(names: seq<Bytes>) { forall i, j :: 0 <= i < j < |names| ==> names[i] != names[j] }

  /** Positions above which no name is inside itself. */
  predicate IsReached<N>(g: Graph<N>, s: N, path: seq<Bytes>, pos: seq<nat>) {
    At(g, s, pos).Some? && NoRepeats(path + Opened(g, s, pos))
  }

  /** Positions at which one is: the node opens a name that is open already. */
  predicate IsBackEdge<N>(g: Graph<N>, s: N, path: seq<Bytes>, pos: seq<nat>) {
    && IsReached(g, s, path, pos)
    && !IsOpen(g, At(g, s, pos).value, path + Opened(g, s, pos))
  }

  predicate IsOpen<N>(g: Graph<N>, s: N, path: seq<Bytes>) {
    g.opens(s).Some? ==> g.opens(s).value !in path
  }

  // ------------------------------------------------------------------ repeats

  lemma {:induction false} PrefixOf(a: seq<Bytes>, b: seq<Bytes>, c: seq<Bytes>)
    requires NoRepeats(a + (b + c))
    ensures NoRepeats(a + b)
  {
    assert forall i :: 0 <= i < |a + b| ==> (a + (b + c))[i] == (a + b)[i];
  }

  lemma {:induction false} NewNameDoesNotRepeat(names: seq<Bytes>, name: Bytes)
    requires NoRepeats(names)
    ensures NoRepeats(names + [name]) <==> name !in names
  {
    if NoRepeats(names + [name]) {
      forall i | 0 <= i < |names| ensures names[i] != name {
        assert (names + [name])[i] == names[i] && (names + [name])[|names|] == name;
      }
    }
  }

  lemma {:induction false} OpenIff<N>(g: Graph<N>, s: N, path: seq<Bytes>)
    requires NoRepeats(path)
    ensures IsOpen(g, s, path) <==> NoRepeats(path + Named(g.opens(s)))
  {
    assert path + [] == path;
    if g.opens(s).Some? { NewNameDoesNotRepeat(path, g.opens(s).value); }
  }

  lemma {:induction false} NothingBelowCut<N>(g: Graph<N>, s: N, path: seq<Bytes>, pos: seq<nat>)
    requires NoRepeats(path) && pos != [] && IsReached(g, s, path, pos)
    ensures IsOpen(g, s, path)
  {
    OpenIff(g, s, path);
    var rest := if pos[0] < |g.inside(s)| then Opened(g, g.inside(s)[pos[0]], pos[1..]) else [];
    PrefixOf(path, Named(g.opens(s)), rest);
  }

  lemma {:induction false} AtTop<N>(g: Graph<N>, s: N, path: seq<Bytes>)
    requires NoRepeats(path)
    ensures IsReached(g, s, path, []) && (IsBackEdge(g, s, path, []) <==> !IsOpen(g, s, path))
  {
    assert path + [] == path;
  }

  /** Positions below the top are positions of what is inside. */
  lemma {:induction false} BelowTop<N>(g: Graph<N>, s: N, path: seq<Bytes>, pos: seq<nat>)
    requires pos != [] && pos[0] < |g.inside(s)|
    ensures var inner, longer := g.inside(s)[pos[0]], path + Named(g.opens(s));
            && At(g, s, pos) == At(g, inner, pos[1..])
            && (IsReached(g, s, path, pos) <==> IsReached(g, inner, longer, pos[1..]))
            && (IsBackEdge(g, s, path, pos) <==> IsBackEdge(g, inner, longer, pos[1..]))
  {
    var inner, opens := g.inside(s)[pos[0]], Named(g.opens(s));
    assert path + Opened(g, s, pos) == path + opens + Opened(g, inner, pos[1..]);
  }

  // ----------------------------------------------------------------- cut trees

  /** One level of a translation: a node open already becomes a text; any other gets
      a type of its shape, with what is inside it translated inside the type, and
      fields tagged JSON where a text stands for a structure. */
  ghost predicate OneLevel<N(!new)>(g: Graph<N>, shape: (N, Type) -> bool, json: N -> bool,
                                    gives: (N, seq<Bytes>, Type) -> bool, s: N, path: seq<Bytes>, t: Type) {
    if IsOpen(g, s, path) then
      var longer := path + Named(g.opens(s));
      && shape(s, t) && |TypesInside(t)| == |g.inside(s)|
      && (forall k :: 0 <= k < |g.inside(s)| ==> gives(g.inside(s)[k], longer, TypesInside(t)[k]))
      && forall k :: 0 <= k < |FieldsInside(t)| ==>
                       && k < |g.inside(s)|
                       && (FieldsInside(t)[k].tag == Json <==> json(g.inside(s)[k]) || !IsOpen(g, g.inside(s)[k], longer))
    else t == TEXT
  }

  /** The level of a list or a map: one node inside, no name opened. */
  lemma {:induction false} OneInside<N(!new)>(g: Graph<N>, shape: (N, Type) -> bool, json: N -> bool, gives: (N, seq<Bytes>, Type) -> bool,
                                              s: N, path: seq<Bytes>, t: Type, inner: N, fields: seq<Field>)
    requires g.inside(s) == [inner] && g.opens(s) == None && shape(s, t)
    requires |TypesInside(t)| == 1 && gives(inner, path, TypesInside(t)[0])
    requires FieldsInside(t) == fields && |fields| <= 1
    requires fields != [] ==> (fields[0].tag == Json <==> json(inner) || !IsOpen(g, inner, path))
    ensures OneLevel(g, shape, json, gives, s, path, t)
  {
    assert path + [] == path;
  }

  ghost predicate IsTranslation<N(!new)>(g: Graph<N>, shape: (N, Type) -> bool, json: N -> bool,
                                         gives: (N, seq<Bytes>, Type) -> bool) {
    forall s: N, path: seq<Bytes>, t: Type ::
      gives(s, path, t) && NoRepeats(path) ==> OneLevel(g, shape, json, gives, s, path, t)
  }

  /** What a cut tree has at a position. */
  ghost predicate TypeIsExact<N>(g: Graph<N>, shape: (N, Type) -> bool, s: N, path: seq<Bytes>, t: Type, pos: seq<nat>) {
    && (TypeAt(t, pos).Some? <==> IsReached(g, s, path, pos))
    && (TypeAt(t, pos).Some? ==>
          if IsBackEdge(g, s, path, pos) then TypeAt(t, pos).value == TEXT
          else shape(At(g, s, pos).value, TypeAt(t, pos).value))
  }

  /** A translation that does one level right gives the endless unfolding cut exactly
      at the back edges: a node at each position that no name inside itself lies
      above, a text where a name is inside itself, the node's own type elsewhere. */
  lemma {:induction false} TreeIsCutUnfolding<N(!new)>(
      g: Graph<N>, shape: (N, Type) -> bool, json: N -> bool, gives: (N, seq<Bytes>, Type) -> bool,
      s: N, path: seq<Bytes>, t: Type, pos: seq<nat>)
    requires IsTranslation(g, shape, json, gives) && gives(s, path, t) && NoRepeats(path)
    ensures TypeIsExact(g, shape, s, path, t, pos)
    decreases |pos|
  {
    assert OneLevel(g, shape, json, gives, s, path, t);
    AtTop(g, s, path);
    OpenIff(g, s, path);
    if pos != [] {
      if !IsOpen(g, s, path) {
        if IsReached(g, s, path, pos) { NothingBelowCut(g, s, path, pos); }
      } else if pos[0] < |g.inside(s)| {
        var inner, longer := g.inside(s)[pos[0]], path + Named(g.opens(s));
        BelowTop(g, s, path, pos);
        TreeIsCutUnfolding(g, shape, json, gives, inner, longer, TypesInside(t)[pos[0]], pos[1..]);
      }
    }
  }

  /** A field of a struct or a list is tagged JSON exactly where the node is a JSON
      value of its own or a back edge. */
  lemma {:induction false} TagsAreExact<N(!new)>(
      g: Graph<N>, shape: (N, Type) -> bool, json: N -> bool, gives: (N, seq<Bytes>, Type) -> bool,
      s: N, path: seq<Bytes>, t: Type, pos: seq<nat>, k: nat)
    requires IsTranslation(g, shape, json, gives) && gives(s, path, t) && NoRepeats(path)
    requires TypeAt(t, pos).Some? && k < |FieldsInside(TypeAt(t, pos).value)|
    ensures At(g, s, pos + [k]).Some?
    ensures FieldsInside(TypeAt(t, pos).value)[k].tag == Json
            <==> json(At(g, s, pos + [k]).value) || IsBackEdge(g, s, path, pos + [k])
    decreases |pos|
  {
    assert OneLevel(g, shape, json, gives, s, path, t);
    OpenIff(g, s, path);
    var longer := path + Named(g.opens(s));
    if pos == [] {
      AtTop(g, g.inside(s)[k], longer);
      assert (pos + [k])[1..] == [];
    } else {
      assert (pos + [k])[1..] == pos[1..] + [k];
      TagsAreExact(g, shape, json, gives, g.inside(s)[pos[0]], longer, TypesInside(t)[pos[0]], pos[1..], k);
    }
    BelowTop(g, s, path, pos + [k]);
  }

  /** Without cycles nothing is cut off: the tree is the whole unfolding. */
  lemma {:induction false} AcyclicIsWhole<N(!new)>(
      g: Graph<N>, shape: (N, Type) -> bool, json: N -> bool, gives: (N, seq<Bytes>, Type) -> bool, s: N, t: Type, pos: seq<nat>)
    requires IsTranslation(g, shape, json, gives) && gives(s, [], t)
    requires forall p :: At(g, s, p).Some? ==> NoRepeats(Opened(g, s, p) + Named(g.opens(At(g, s, p).value)))
    ensures TypeAt(t, pos).Some? <==> At(g, s, pos).Some?
    ensures TypeAt(t, pos).Some? ==> shape(At(g, s, pos).value, TypeAt(t, pos).value)
  {
    TreeIsCutUnfolding(g, shape, json, gives, s, [], t, pos);
    var path := Opened(g, s, pos);
    assert [] + path == path && path + [] == path;
    if At(g, s, pos).Some? {
      PrefixOf([], path, Named(g.opens(At(g, s, pos).value)));
      assert [] + (path + Named(g.opens(At(g, s, pos).value))) == path + Named(g.opens(At(g, s, pos).value));
      OpenIff(g, At(g, s, pos).value, path);
    }
  }

  // ------------------------------------------------------------------ failures

  /** Every node that the cut tree reaches and does not cut off is usable. */
  ghost predicate AllUsable<N>(g: Graph<N>, usable: N -> bool, s: N, path: seq<Bytes>) {
    forall pos :: IsReached(g, s, path, pos) && !IsBackEdge(g, s, path, pos) ==> usable(At(g, s, pos).value)
  }

  lemma {:induction false} AllUsableAtCut<N>(g: Graph<N>, usable: N -> bool, s: N, path: seq<Bytes>)
    requires NoRepeats(path) && !IsOpen(g, s, path)
    ensures AllUsable(g, usable, s, path)
  {
    forall pos | IsReached(g, s, path, pos) ensures IsBackEdge(g, s, path, pos) {
      AtTop(g, s, path);
      if pos != [] { NothingBelowCut(g, s, path, pos); }
    }
  }

  lemma {:induction false} AllUsableByLevel<N>(g: Graph<N>, usable: N -> bool, s: N, path: seq<Bytes>)
    requires NoRepeats(path) && IsOpen(g, s, path)
    ensures AllUsable(g, usable, s, path)
            <==> usable(s) && forall k :: 0 <= k < |g.inside(s)| ==>
                   AllUsable(g, usable, g.inside(s)[k], path + Named(g.opens(s)))
  {
    var inside, longer := g.inside(s), path + Named(g.opens(s));
    AtTop(g, s, path);
    if AllUsable(g, usable, s, path) {
      forall k | 0 <= k < |inside| ensures AllUsable(g, usable, inside[k], longer) {
        forall pos | IsReached(g, inside[k], longer, pos) && !IsBackEdge(g, inside[k], longer, pos)
          ensures usable(At(g, inside[k], pos).value)
        {
          assert ([k] + pos)[1..] == pos;
          BelowTop(g, s, path, [k] + pos);
        }
      }
    }
    if usable(s) && forall k :: 0 <= k < |inside| ==> AllUsable(g, usable, inside[k], longer) {
      forall pos | IsReached(g, s, path, pos) && !IsBackEdge(g, s, path, pos) ensures usable(At(g, s, pos).value) {
        if pos != [] {
          BelowTop(g, s, path, pos);
          assert AllUsable(g, usable, inside[pos[0]], longer);
        }
      }
    }
  }
}
