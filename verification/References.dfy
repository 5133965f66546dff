/** Resolving the references of a registered schema, whose subject versions may
    refer to one another in cycles. */
module References {
  import opened Wrappers
  import opened ByteCodec
  import Decimal

  const AT: Byte := 64

  /** A subject and one of its version numbers. */
  datatype Version = Version(subject: Bytes, number: int)

  datatype Reference = Reference(name: Bytes, version: Version)

  datatype Registered = Registered(schema: Bytes, references: seq<Reference>)

  /** The versions that a fetch finds. */
  type Registry = map<Version, Registered>

  /** The texts of the schemas referred to, by reference name. */
  type Resolved = map<Bytes, Bytes>

  datatype RegistryError = NotFound(version: Version)

  function Key(version: Version): Bytes { version.subject + [AT] + Decimal.IntText(version.number) }

  lemma {:induction false} NumberHasNoAt(n: int)
    ensures AT !in Decimal.IntText(n)
  {
    Decimal.ParseOfDigits(if n < 0 then -n else n);
  }

  lemma {:induction false} NoAtAfter(v: Version, i: nat)
    ensures |v.subject| < i < |Key(v)| ==> Key(v)[i] != AT
  {
    NumberHasNoAt(v.number);
    assert |v.subject| < i < |Key(v)| ==> Key(v)[i] == Decimal.IntText(v.number)[i - |v.subject| - 1];
  }

  /** The last separator of a key is the one before the number. */
  lemma {:induction false} SeparatorIsLast(a: Version, b: Version)
    requires Key(a) == Key(b)
    ensures |a.subject| <= |b.subject|
  {
    NoAtAfter(b, |a.subject|);
    assert Key(a)[|a.subject|] == AT;
  }

  lemma {:induction false} KeyIsInjective(a: Version, b: Version)
    requires Key(a) == Key(b)
    ensures a == b
  {
    SeparatorIsLast(a, b);
    SeparatorIsLast(b, a);
    var n := |a.subject|;
    assert a.subject == Key(a)[..n] && b.subject == Key(b)[..n];
    assert Decimal.IntText(a.number) == Key(a)[n + 1..] && Decimal.IntText(b.number) == Key(b)[n + 1..];
    Decimal.ParseIntText(a.number);
    Decimal.ParseIntText(b.number);
  }

  // ---------------------------------------------------------------- resolving

  /** The versions whose keys are not on the path. */
  function Free(registry: Registry, ancestors: set<Bytes>): set<Version> {
    set v | v in registry && Key(v) !in ancestors
  }

  function Resolve(registry: Registry, refs: seq<Reference>, ancestors: set<Bytes>, resolved: Resolved): Result<Resolved, RegistryError>
    decreases |Free(registry, ancestors)|, |refs|, 1
  {
    if refs == [] then Ok(resolved)
    else
      var next :- ResolveOne(registry, refs[0], ancestors, resolved);
      Resolve(registry, refs[1..], ancestors, next)
  }

  function ResolveOne(registry: Registry, ref: Reference, ancestors: set<Bytes>, resolved: Resolved): Result<Resolved, RegistryError>
    decreases |Free(registry, ancestors)|, 0, 0
  {
    var key := Key(ref.version);
    if key in ancestors then Ok(resolved)
    else if ref.version !in registry then Err(NotFound(ref.version))
    else
      PathShrinks(registry, ref.version, ancestors);
      var value := registry[ref.version];
      var inner :- Resolve(registry, value.references, ancestors + {key}, resolved);
      Ok(inner[ref.name := value.schema])
  }

  /** A version put on the path is one less to put there: the recursion ends, however
      the references run in circles. */
  lemma {:induction false} PathShrinks(registry: Registry, version: Version, ancestors: set<Bytes>)
    requires version in registry && Key(version) !in ancestors
    ensures |Free(registry, ancestors + {Key(version)})| < |Free(registry, ancestors)|
  {
    var less, more := Free(registry, ancestors + {Key(version)}), Free(registry, ancestors);
    assert version in more - less;
    Smaller(less, more, version);
  }

  lemma {:induction false} Smaller<T>(less: set<T>, more: set<T>, x: T)
    requires less <= more && x in more && x !in less
    ensures |less| < |more|
  {
    assert more == less + (more - less);
    assert x in more - less;
  }

  /** The path and the texts found so far. */
  class Resolver {
    const registry: Registry
    var ancestors: set<Bytes>
    var resolved: Resolved

    constructor (registry: Registry)
      ensures this.registry == registry && ancestors == {} && resolved == map[]
    {
      this.registry := registry;
      ancestors := {};
      resolved := map[];
    }

    /** Leaves the path as it found it unless a fetch fails. */
    method ResolveReferences(refs: seq<Reference>) returns (error: Option<RegistryError>)
      modifies this
      ensures match Resolve(registry, refs, old(ancestors), old(resolved))
              case Ok(all) => error == None && resolved == all && ancestors == old(ancestors)
              case Err(e) => error == Some(e)
      decreases |Free(registry, ancestors)|
    {
      for i := 0 to |refs|
        invariant ancestors == old(ancestors)
        invariant Resolve(registry, refs, old(ancestors), old(resolved)) == Resolve(registry, refs[i..], ancestors, resolved)
      {
        var reference := refs[i];
        assert refs[i..][0] == reference && refs[i..][1..] == refs[i + 1..];
        var key := Key(reference.version);
        if key in ancestors { continue; }
        if reference.version !in registry { return Some(NotFound(reference.version)); }
        PathShrinks(registry, reference.version, ancestors);
        ancestors := ancestors + {key};
        var value := registry[reference.version];
        var inner := ResolveReferences(value.references);
        if inner.Some? { return inner; }
        resolved := resolved[reference.name := value.schema];
        ancestors := ancestors - {key};
        assert ancestors == old(ancestors);
      }
      error := None;
    }
  }

  // ------------------------------------------------------------ what it finds

  /** References that lead from one of `refs` to the last one of the path, each from
      a version off the path to the next. */
  predicate Chain(registry: Registry, refs: seq<Reference>, ancestors: set<Bytes>, path: seq<Reference>)
    decreases |path|
  {
    && path != [] && path[0] in refs && Key(path[0].version) !in ancestors
    && (|path| > 1 ==>
          && path[0].version in registry
          && Chain(registry, registry[path[0].version].references, ancestors + {Key(path[0].version)}, path[1..]))
  }

  function Last(path: seq<Reference>): Reference
    requires path != []
  {
    path[|path| - 1]
  }

  ghost predicate AllRegistered(registry: Registry, refs: seq<Reference>, ancestors: set<Bytes>) {
    forall path :: Chain(registry, refs, ancestors, path) ==> Last(path).version in registry
  }

  lemma {:induction false} ChainSplits(registry: Registry, refs: seq<Reference>, ancestors: set<Bytes>, path: seq<Reference>)
    requires refs != []
    ensures Chain(registry, refs, ancestors, path)
            <==> Chain(registry, [refs[0]], ancestors, path) || Chain(registry, refs[1..], ancestors, path)
  {
    assert refs == [refs[0]] + refs[1..];
  }

  lemma {:induction false} ChainThrough(registry: Registry, ref: Reference, ancestors: set<Bytes>, path: seq<Reference>)
    requires Key(ref.version) !in ancestors && ref.version in registry
    ensures Chain(registry, [ref], ancestors, path)
            <==> path == [ref] || (|path| > 1 && path[0] == ref
                                   && Chain(registry, registry[ref.version].references, ancestors + {Key(ref.version)}, path[1..]))
  {
  }

  /** A name is resolved exactly when it was before or a chain ends in it. */
  lemma {:induction false} NamesAreExact(registry: Registry, refs: seq<Reference>, ancestors: set<Bytes>, resolved: Resolved, name: Bytes)
    requires Resolve(registry, refs, ancestors, resolved).Ok?
    ensures name in Resolve(registry, refs, ancestors, resolved).value
            <==> name in resolved || exists path :: Chain(registry, refs, ancestors, path) && Last(path).name == name
    decreases |Free(registry, ancestors)|, |refs|, 1
  {
    if refs != [] {
      var next := ResolveOne(registry, refs[0], ancestors, resolved).value;
      NamesOfOne(registry, refs[0], ancestors, resolved, name);
      NamesAreExact(registry, refs[1..], ancestors, next, name);
      forall path ensures Chain(registry, refs, ancestors, path)
                          <==> Chain(registry, [refs[0]], ancestors, path) || Chain(registry, refs[1..], ancestors, path)
      {
        ChainSplits(registry, refs, ancestors, path);
      }
    }
  }

  lemma {:induction false} NamesOfOne(registry: Registry, ref: Reference, ancestors: set<Bytes>, resolved: Resolved, name: Bytes)
    requires ResolveOne(registry, ref, ancestors, resolved).Ok?
    ensures name in ResolveOne(registry, ref, ancestors, resolved).value
            <==> name in resolved || exists path :: Chain(registry, [ref], ancestors, path) && Last(path).name == name
    decreases |Free(registry, ancestors)|, 0, 0
  {
    var key := Key(ref.version);
    if key !in ancestors {
      var references := registry[ref.version].references;
      PathShrinks(registry, ref.version, ancestors);
      NamesAreExact(registry, references, ancestors + {key}, resolved, name);
      if name == ref.name {
        ChainThrough(registry, ref, ancestors, [ref]);
        assert Last([ref]).name == name;
      } else if path :| Chain(registry, references, ancestors + {key}, path) && Last(path).name == name {
        ChainThrough(registry, ref, ancestors, [ref] + path);
        assert ([ref] + path)[1..] == path && Last([ref] + path) == Last(path);
      } else {
        forall path | Chain(registry, [ref], ancestors, path) ensures Last(path).name != name {
          ChainThrough(registry, ref, ancestors, path);
          assert |path| > 1 ==> Last(path[1..]) == Last(path);
        }
      }
    }
  }

  /** A resolved text is the schema of the version some chain ends in. */
  ghost predicate Justified(registry: Registry, refs: seq<Reference>, ancestors: set<Bytes>, name: Bytes, schema: Bytes) {
    exists path :: Chain(registry, refs, ancestors, path) && Last(path).name == name
                   && Last(path).version in registry && registry[Last(path).version].schema == schema
  }

  lemma {:induction false} TextsAreJustified(registry: Registry, refs: seq<Reference>, ancestors: set<Bytes>, resolved: Resolved, name: Bytes)
    requires Resolve(registry, refs, ancestors, resolved).Ok? && name in Resolve(registry, refs, ancestors, resolved).value
    ensures var schema := Resolve(registry, refs, ancestors, resolved).value[name];
            (name in resolved && resolved[name] == schema) || Justified(registry, refs, ancestors, name, schema)
    decreases |Free(registry, ancestors)|, |refs|, 1
  {
    if refs != [] {
      var next := ResolveOne(registry, refs[0], ancestors, resolved).value;
      var schema := Resolve(registry, refs, ancestors, resolved).value[name];
      TextsAreJustified(registry, refs[1..], ancestors, next, name);
      if !(name in next && next[name] == schema) {
        JustifiedByMore(registry, refs[1..], refs, ancestors, name, schema);
      } else {
        TextOfOne(registry, refs[0], ancestors, resolved, name);
        if Justified(registry, [refs[0]], ancestors, name, schema) {
          JustifiedByMore(registry, [refs[0]], refs, ancestors, name, schema);
        }
      }
    }
  }

  lemma {:induction false} JustifiedByMore(registry: Registry, some: seq<Reference>, refs: seq<Reference>, ancestors: set<Bytes>, name: Bytes, schema: Bytes)
    requires Justified(registry, some, ancestors, name, schema) && forall r :: r in some ==> r in refs
    ensures Justified(registry, refs, ancestors, name, schema)
  {
    var path :| Chain(registry, some, ancestors, path) && Last(path).name == name
                && Last(path).version in registry && registry[Last(path).version].schema == schema;
    assert Chain(registry, refs, ancestors, path);
  }

  lemma {:induction false} TextOfOne(registry: Registry, ref: Reference, ancestors: set<Bytes>, resolved: Resolved, name: Bytes)
    requires ResolveOne(registry, ref, ancestors, resolved).Ok? && name in ResolveOne(registry, ref, ancestors, resolved).value
    ensures var schema := ResolveOne(registry, ref, ancestors, resolved).value[name];
            (name in resolved && resolved[name] == schema) || Justified(registry, [ref], ancestors, name, schema)
    decreases |Free(registry, ancestors)|, 0, 0
  {
    var key := Key(ref.version);
    if key !in ancestors {
      var references := registry[ref.version].references;
      var schema := ResolveOne(registry, ref, ancestors, resolved).value[name];
      if name == ref.name {
        ChainThrough(registry, ref, ancestors, [ref]);
        assert Last([ref]) == ref;
      } else {
        PathShrinks(registry, ref.version, ancestors);
        TextsAreJustified(registry, references, ancestors + {key}, resolved, name);
        if Justified(registry, references, ancestors + {key}, name, schema) {
          var path :| Chain(registry, references, ancestors + {key}, path) && Last(path).name == name
                      && Last(path).version in registry && registry[Last(path).version].schema == schema;
          ChainThrough(registry, ref, ancestors, [ref] + path);
          assert ([ref] + path)[1..] == path && Last([ref] + path) == Last(path);
        }
      }
    }
  }

  // ------------------------------------------------------------ when it works

  lemma {:induction false} SuccessOnChains(registry: Registry, refs: seq<Reference>, ancestors: set<Bytes>, resolved: Resolved)
    ensures Resolve(registry, refs, ancestors, resolved).Ok? <==> AllRegistered(registry, refs, ancestors)
    decreases |Free(registry, ancestors)|, |refs|, 1
  {
    if refs != [] {
      var one := ResolveOne(registry, refs[0], ancestors, resolved);
      SuccessOfOne(registry, refs[0], ancestors, resolved);
      if one.Ok? { SuccessOnChains(registry, refs[1..], ancestors, one.value); }
      forall path ensures Chain(registry, refs, ancestors, path)
                          <==> Chain(registry, [refs[0]], ancestors, path) || Chain(registry, refs[1..], ancestors, path)
      {
        ChainSplits(registry, refs, ancestors, path);
      }
    }
  }

  lemma {:induction false} SuccessOfOne(registry: Registry, ref: Reference, ancestors: set<Bytes>, resolved: Resolved)
    ensures ResolveOne(registry, ref, ancestors, resolved).Ok? <==> AllRegistered(registry, [ref], ancestors)
    decreases |Free(registry, ancestors)|, 0, 0
  {
    var key := Key(ref.version);
    if key !in ancestors {
      if ref.version !in registry {
        assert Chain(registry, [ref], ancestors, [ref]) && Last([ref]) == ref;
      } else {
        PathShrinks(registry, ref.version, ancestors);
        SuccessOnChains(registry, registry[ref.version].references, ancestors + {key}, resolved);
        RegisteredThrough(registry, ref, ancestors);
      }
    }
  }

  lemma {:induction false} RegisteredThrough(registry: Registry, ref: Reference, ancestors: set<Bytes>)
    requires Key(ref.version) !in ancestors && ref.version in registry
    ensures AllRegistered(registry, [ref], ancestors)
            <==> AllRegistered(registry, registry[ref.version].references, ancestors + {Key(ref.version)})
  {
    var references, inner := registry[ref.version].references, ancestors + {Key(ref.version)};
    if AllRegistered(registry, [ref], ancestors) {
      forall path | Chain(registry, references, inner, path) ensures Last(path).version in registry {
        ChainThrough(registry, ref, ancestors, [ref] + path);
        assert ([ref] + path)[1..] == path && Last([ref] + path) == Last(path);
      }
    }
    if AllRegistered(registry, references, inner) {
      forall path | Chain(registry, [ref], ancestors, path) ensures Last(path).version in registry {
        ChainThrough(registry, ref, ancestors, path);
        assert |path| > 1 ==> Last(path[1..]) == Last(path);
      }
    }
  }

  /** References one after the other, with no care for repeats. */
  predicate Walk(registry: Registry, refs: seq<Reference>, path: seq<Reference>) {
    && path != [] && path[0] in refs
    && forall i :: 0 <= i < |path| - 1 ==>
                     path[i].version in registry && path[i + 1] in registry[path[i].version].references
  }

  ghost predicate Distinct(path: seq<Reference>) {
    forall i, j :: 0 <= i < j < |path| ==> path[i].version != path[j].version
  }

  lemma {:induction false} DistinctWalkIsChain(registry: Registry, refs: seq<Reference>, ancestors: set<Bytes>, path: seq<Reference>)
    requires Walk(registry, refs, path) && Distinct(path)
    requires forall i :: 0 <= i < |path| ==> Key(path[i].version) !in ancestors
    ensures Chain(registry, refs, ancestors, path)
    decreases |path|
  {
    if |path| > 1 {
      forall i | 0 <= i < |path[1..]| ensures Key(path[1..][i].version) !in ancestors + {Key(path[0].version)} {
        if Key(path[i + 1].version) == Key(path[0].version) {
          KeyIsInjective(path[i + 1].version, path[0].version);
        }
      }
      DistinctWalkIsChain(registry, registry[path[0].version].references, ancestors + {Key(path[0].version)}, path[1..]);
    }
  }

  /** Whatever a walk reaches is reached without meeting a version twice. */
  lemma {:induction false} WalkShortens(registry: Registry, refs: seq<Reference>, path: seq<Reference>) returns (chain: seq<Reference>)
    requires Walk(registry, refs, path)
    ensures Chain(registry, refs, {}, chain) && Last(chain).version == Last(path).version
    decreases |path|
  {
    if i, j :| 0 <= i < j < |path| && path[i].version == path[j].version {
      var shorter := path[..i + 1] + path[j + 1..];
      assert j == |path| - 1 ==> Last(shorter) == path[i];
      assert j < |path| - 1 ==> Last(shorter) == Last(path);
      CutOut(registry, refs, path, i, j);
      chain := WalkShortens(registry, refs, shorter);
    } else {
      DistinctWalkIsChain(registry, refs, {}, path);
      chain := path;
    }
  }

  lemma {:induction false} CutOut(registry: Registry, refs: seq<Reference>, path: seq<Reference>, i: nat, j: nat)
    requires Walk(registry, refs, path) && i < j < |path| && path[i].version == path[j].version
    ensures Walk(registry, refs, path[..i + 1] + path[j + 1..])
  {
    var shorter := path[..i + 1] + path[j + 1..];
    forall k | 0 <= k < |shorter| - 1
      ensures shorter[k].version in registry && shorter[k + 1] in registry[shorter[k].version].references
    {
      if k > i {
        assert shorter[k] == path[k - i + j] && shorter[k + 1] == path[k - i + j + 1];
      } else if k == i {
        assert shorter[k + 1] == path[j + 1] && shorter[k] == path[i];
      } else {
        assert shorter[k] == path[k] && shorter[k + 1] == path[k + 1];
      }
    }
  }

  lemma {:induction false} ChainIsWalk(registry: Registry, refs: seq<Reference>, ancestors: set<Bytes>, path: seq<Reference>)
    requires Chain(registry, refs, ancestors, path)
    ensures Walk(registry, refs, path)
    decreases |path|
  {
    if |path| > 1 {
      ChainIsWalk(registry, registry[path[0].version].references, ancestors + {Key(path[0].version)}, path[1..]);
      forall i | 0 <= i < |path| - 1
        ensures path[i].version in registry && path[i + 1] in registry[path[i].version].references
      {
        assert i > 0 ==> path[i] == path[1..][i - 1] && path[i + 1] == path[1..][i];
      }
    }
  }

  /** Resolution succeeds exactly when every version that any walk of references
      reaches, in circles or not, is registered. */
  lemma {:induction false} SuccessIsExact(registry: Registry, refs: seq<Reference>)
    ensures Resolve(registry, refs, {}, map[]).Ok?
            <==> forall path :: Walk(registry, refs, path) ==> Last(path).version in registry
  {
    SuccessOnChains(registry, refs, {}, map[]);
    if AllRegistered(registry, refs, {}) {
      forall path | Walk(registry, refs, path) ensures Last(path).version in registry {
        var chain := WalkShortens(registry, refs, path);
      }
    } else {
      var path :| Chain(registry, refs, {}, path) && Last(path).version !in registry;
      ChainIsWalk(registry, refs, {}, path);
    }
  }

  /** Every version reached is reached by a chain, so its schema is fetched and stands
      under the name of the reference the chain ends in. */
  lemma {:induction false} ReachedIsResolved(registry: Registry, refs: seq<Reference>, path: seq<Reference>) returns (end: Reference)
    requires Resolve(registry, refs, {}, map[]).Ok? && Walk(registry, refs, path)
    ensures end.version == Last(path).version && end.name in Resolve(registry, refs, {}, map[]).value
  {
    var chain := WalkShortens(registry, refs, path);
    end := Last(chain);
    NamesAreExact(registry, refs, {}, map[], end.name);
  }

  /** If every name refers to one version, its resolved text is that version's. */
  lemma {:induction false} ConsistentNamesResolve(registry: Registry, refs: seq<Reference>, names: map<Bytes, Version>, name: Bytes)
    requires Resolve(registry, refs, {}, map[]).Ok? && name in Resolve(registry, refs, {}, map[]).value
    requires forall path :: Walk(registry, refs, path) ==> Last(path).name in names && names[Last(path).name] == Last(path).version
    ensures name in names && names[name] in registry
    ensures Resolve(registry, refs, {}, map[]).value[name] == registry[names[name]].schema
  {
    TextsAreJustified(registry, refs, {}, map[], name);
    var path :| Chain(registry, refs, {}, path) && Last(path).name == name && Last(path).version in registry
                && registry[Last(path).version].schema == Resolve(registry, refs, {}, map[]).value[name];
    ChainIsWalk(registry, refs, {}, path);
  }

  /** A name that only closes a cycle is not resolved: a version that refers to
      itself under another name leaves that name out. */
  lemma {:induction false} CycleNameIsMissing(outer: Bytes, inner: Bytes, version: Version, schema: Bytes)
    requires outer != inner
    ensures var registry := map[version := Registered(schema, [Reference(inner, version)])];
            Resolve(registry, [Reference(outer, version)], {}, map[]) == Ok(map[outer := schema])
  {
    var back := Reference(inner, version);
    var registry := map[version := Registered(schema, [back])];
    var root := Reference(outer, version);
    assert ResolveOne(registry, back, {Key(version)}, map[]) == Ok(map[]);
    assert Resolve(registry, [back], {Key(version)}, map[]) == Ok(map[]);
    assert {} + {Key(version)} == {Key(version)};
    assert ResolveOne(registry, root, {}, map[]) == Ok(map[outer := schema]);
  }
}
