/** Avro schemas become Arrow fields. Named records may contain one another in
    cycles; a record already open on the path becomes a JSON text column. */
module AvroSchemas {
  import opened Wrappers
  import opened ByteCodec
  import opened ArrowTypes
  import opened Unfoldings

  /** A column of a scalar type, with the metadata the type carries. */
  datatype Column = Column(kind: Bytes, metadata: Option<Bytes>)

  /** A named schema stands for its definition wherever it is written or referred to. */
  datatype Schema =
    | Null
    | Scalar(kind: Bytes, column: Option<Column>)
    | Defined(fullName: Bytes)
    | Union(branches: seq<Schema>)
    | Array(items: Schema)
    | Map(values: Schema)

  datatype Member = Member(name: Bytes, schema: Schema)

  datatype Definition = Record(members: seq<Member>) | Plain(column: Option<Column>)

  type Definitions = map<Bytes, Definition>

  datatype SchemaError = OnlyNull | IsNull | Unsupported | NamesCollide | Undefined

  type Outcome = Result<Field, SchemaError>
  type Outcomes = Result<seq<Field>, SchemaError>

  const ITEM: Bytes := [105, 116, 101, 109]
  const VALUE: Bytes := [118, 97, 108, 117, 101]

  // ------------------------------------------------------------- translation

  function Size(s: Schema): (size: nat)
    ensures size > 0
  {
    match s
    case Union(branches) => 1 + SizeAll(branches)
    case Array(items) => 1 + Size(items)
    case Map(values) => 1 + Size(values)
    case _ => 1
  }

  function SizeAll(branches: seq<Schema>): nat {
    if branches == [] then 0 else Size(branches[0]) + SizeAll(branches[1..])
  }

  function SizeOfMembers(members: seq<Member>): nat {
    if members == [] then 0 else Size(members[0].schema) + SizeOfMembers(members[1..])
  }

  function NonNull(branches: seq<Schema>): (some: seq<Schema>)
    ensures SizeAll(some) <= SizeAll(branches)
    ensures |some| <= |branches|
  {
    if branches == [] then []
    else
      var rest := NonNull(branches[1..]);
      if branches[0].Null? then rest
      else
        assert ([branches[0]] + rest)[1..] == rest;
        [branches[0]] + rest
  }

  function BranchName(s: Schema): Bytes {
    match s
    case Scalar(kind, _) => kind
    case Defined(fullName) => fullName
    case Null => [110, 117, 108, 108]
    case Union(_) => [117, 110, 105, 111, 110]
    case Array(_) => [97, 114, 114, 97, 121]
    case Map(_) => [109, 97, 112]
  }

  /** The records not open on the path. */
  function Closed(defs: Definitions, visiting: seq<Bytes>): set<Bytes> {
    set n | n in defs && n !in visiting
  }

  /** Opening a record leaves one less to open: the recursion ends, whatever cycles
      the definitions have. */
  lemma {:induction false} PathGrows(defs: Definitions, visiting: seq<Bytes>, fullName: Bytes)
    requires fullName in defs && fullName !in visiting
    ensures |Closed(defs, visiting + [fullName])| < |Closed(defs, visiting)|
  {
    var less, more := Closed(defs, visiting + [fullName]), Closed(defs, visiting);
    assert less == more - {fullName};
  }

  function ColumnField(name: Bytes, column: Option<Column>, nullable: bool): Outcome {
    match column
    case None => Err(Unsupported)
    case Some(c) =>
      Ok(Field(name, Leaf(c.kind), nullable, if c.metadata.Some? then Metadata(c.metadata.value) else Untagged))
  }

  function Translate(defs: Definitions, name: Bytes, s: Schema, nullable: bool, visiting: seq<Bytes>): (r: Outcome)
    decreases |Closed(defs, visiting)|, Size(s), 0
  {
    match s
    case Null => Err(IsNull)
    case Scalar(_, column) => ColumnField(name, column, nullable)
    case Defined(fullName) =>
      if fullName !in defs then Err(Undefined)
      else
        (match defs[fullName]
         case Plain(column) => ColumnField(name, column, nullable)
         case Record(members) =>
           if fullName in visiting then Ok(Field(name, TEXT, nullable, Json))
           else
             PathGrows(defs, visiting, fullName);
             var children :- TranslateMembers(defs, members, visiting + [fullName]);
             Ok(Field(name, Struct(children), nullable, Untagged)))
    case Union(branches) =>
      var some := NonNull(branches);
      if some == [] then Err(OnlyNull)
      else if |some| == 1 then Translate(defs, name, some[0], nullable || |some| < |branches|, visiting)
      else
        var children :- TranslateBranches(defs, some, {}, visiting);
        Ok(Field(name, Struct(children), nullable || |some| < |branches|, AvroUnion))
    case Array(items) =>
      var item :- Translate(defs, ITEM, items, false, visiting);
      Ok(Field(name, ListOf(item), nullable, Untagged))
    case Map(values) =>
      var value :- Translate(defs, VALUE, values, false, visiting);
      Ok(Field(name, MapOf(value.dataType), nullable, Untagged))
  }

  function TranslateMembers(defs: Definitions, members: seq<Member>, visiting: seq<Bytes>): (r: Outcomes)
    ensures r.Ok? ==> |r.value| == |members|
    decreases |Closed(defs, visiting)|, SizeOfMembers(members), 1
  {
    if members == [] then Ok([])
    else
      var first :- Translate(defs, members[0].name, members[0].schema, false, visiting);
      var others :- TranslateMembers(defs, members[1..], visiting);
      Ok([first] + others)
  }

  function TranslateBranches(defs: Definitions, branches: seq<Schema>, names: set<Bytes>, visiting: seq<Bytes>): (r: Outcomes)
    ensures r.Ok? ==> |r.value| == |branches|
    decreases |Closed(defs, visiting)|, SizeAll(branches), 1
  {
    if branches == [] then Ok([])
    else
      var first :- Translate(defs, BranchName(branches[0]), branches[0], true, visiting);
      if first.name in names then Err(NamesCollide)
      else
        var others :- TranslateBranches(defs, branches[1..], names + {first.name}, visiting);
        Ok([first] + others)
  }

  lemma {:induction false} SizeOfPart(branches: seq<Schema>, i: nat)
    requires i < |branches|
    ensures Size(branches[i]) <= SizeAll(branches)
  {
    if i > 0 { SizeOfPart(branches[1..], i - 1); }
  }

  /** What translating the rest adds to the fields already there. */
  function Prepend(fields: seq<Field>, r: Outcomes): Outcomes {
    match r
    case Ok(more) => Ok(fields + more)
    case Err(error) => Err(error)
  }

  lemma {:induction false} PrependNothing(r: Outcomes)
    ensures Prepend([], r) == r
  {
    assert r.Ok? ==> [] + r.value == r.value;
  }

  lemma {:induction false} MembersNext(defs: Definitions, members: seq<Member>, i: nat, visiting: seq<Bytes>, fields: seq<Field>)
    requires i < |members|
    ensures var first := Translate(defs, members[i].name, members[i].schema, false, visiting);
            Prepend(fields, TranslateMembers(defs, members[i..], visiting))
            == match first
               case Err(error) => Err(error)
               case Ok(field) => Prepend(fields + [field], TranslateMembers(defs, members[i + 1..], visiting))
  {
    var first := Translate(defs, members[i].name, members[i].schema, false, visiting);
    assert members[i..][1..] == members[i + 1..];
    var rest := TranslateMembers(defs, members[i + 1..], visiting);
    assert first.Ok? && rest.Ok? ==> fields + ([first.value] + rest.value) == fields + [first.value] + rest.value;
  }

  lemma {:induction false} BranchesNext(defs: Definitions, branches: seq<Schema>, i: nat, names: set<Bytes>, visiting: seq<Bytes>, fields: seq<Field>)
    requires i < |branches|
    ensures var first := Translate(defs, BranchName(branches[i]), branches[i], true, visiting);
            Prepend(fields, TranslateBranches(defs, branches[i..], names, visiting))
            == match first
               case Err(error) => Err(error)
               case Ok(field) =>
                 if field.name in names then Err(NamesCollide)
                 else Prepend(fields + [field], TranslateBranches(defs, branches[i + 1..], names + {field.name}, visiting))
  {
    var first := Translate(defs, BranchName(branches[i]), branches[i], true, visiting);
    assert branches[i..][1..] == branches[i + 1..];
    if first.Ok? {
      var rest := TranslateBranches(defs, branches[i + 1..], names + {first.value.name}, visiting);
      assert rest.Ok? ==> fields + ([first.value] + rest.value) == fields + [first.value] + rest.value;
    }
  }

  lemma {:induction false} NonNullNext(branches: seq<Schema>, i: nat, some: seq<Schema>)
    requires i < |branches|
    ensures some + NonNull(branches[i..])
            == if branches[i].Null? then some + NonNull(branches[i + 1..])
               else some + [branches[i]] + NonNull(branches[i + 1..])
  {
    assert branches[i..][1..] == branches[i + 1..];
    var rest := NonNull(branches[i + 1..]);
    assert some + ([branches[i]] + rest) == some + [branches[i]] + rest;
  }

  method SplitNull(branches: seq<Schema>) returns (some: seq<Schema>, hasNull: bool)
    ensures some == NonNull(branches) && hasNull == (|some| < |branches|)
  {
    some, hasNull := [], false;
    for i := 0 to |branches|
      invariant some + NonNull(branches[i..]) == NonNull(branches)
      invariant |some| <= i && hasNull == (|some| < i)
    {
      NonNullNext(branches, i, some);
      if branches[i].Null? {
        hasNull := true;
      } else {
        some := some + [branches[i]];
      }
    }
  }

  method AvroField(defs: Definitions, name: Bytes, s: Schema, nullable: bool, visiting: seq<Bytes>) returns (r: Outcome)
    ensures r == Translate(defs, name, s, nullable, visiting)
    decreases |Closed(defs, visiting)|, Size(s), 0
  {
    match s
    case Null => r := Err(IsNull);
    case Scalar(_, column) => r := ColumnField(name, column, nullable);
    case Defined(fullName) =>
      if fullName !in defs { return Err(Undefined); }
      match defs[fullName] {
        case Plain(column) => r := ColumnField(name, column, nullable);
        case Record(members) =>
          if fullName in visiting { return Ok(Field(name, TEXT, nullable, Json)); }
          PathGrows(defs, visiting, fullName);
          var children :- AvroMembers(defs, members, visiting + [fullName]);
          r := Ok(Field(name, Struct(children), nullable, Untagged));
      }
    case Union(branches) =>
      var some, hasNull := SplitNull(branches);
      if |some| == 0 { return Err(OnlyNull); }
      if |some| == 1 {
        SizeOfPart(some, 0);
        r := AvroField(defs, name, some[0], nullable || hasNull, visiting);
        return;
      }
      var children :- AvroBranches(defs, some, visiting);
      r := Ok(Field(name, Struct(children), nullable || hasNull, AvroUnion));
    case Array(items) =>
      var item :- AvroField(defs, ITEM, items, false, visiting);
      r := Ok(Field(name, ListOf(item), nullable, Untagged));
    case Map(values) =>
      var value :- AvroField(defs, VALUE, values, false, visiting);
      r := Ok(Field(name, MapOf(value.dataType), nullable, Untagged));
  }

  method AvroMembers(defs: Definitions, members: seq<Member>, visiting: seq<Bytes>) returns (r: Outcomes)
    ensures r == TranslateMembers(defs, members, visiting)
    decreases |Closed(defs, visiting)|, SizeOfMembers(members), 1
  {
    var children: seq<Field> := [];
    PrependNothing(TranslateMembers(defs, members, visiting));
    for i := 0 to |members|
      invariant TranslateMembers(defs, members, visiting) == Prepend(children, TranslateMembers(defs, members[i..], visiting))
    {
      MembersNext(defs, members, i, visiting, children);
      SizeOfMember(members, i);
      var child :- AvroField(defs, members[i].name, members[i].schema, false, visiting);
      children := children + [child];
    }
    assert children + [] == children;
    r := Ok(children);
  }

  lemma {:induction false} SizeOfMember(members: seq<Member>, i: nat)
    requires i < |members|
    ensures Size(members[i].schema) <= SizeOfMembers(members)
  {
    if i > 0 { SizeOfMember(members[1..], i - 1); }
  }

  method AvroBranches(defs: Definitions, branches: seq<Schema>, visiting: seq<Bytes>) returns (r: Outcomes)
    ensures r == TranslateBranches(defs, branches, {}, visiting)
    decreases |Closed(defs, visiting)|, SizeAll(branches), 1
  {
    var children: seq<Field>, names: set<Bytes> := [], {};
    PrependNothing(TranslateBranches(defs, branches, {}, visiting));
    for i := 0 to |branches|
      invariant TranslateBranches(defs, branches, {}, visiting)
                == Prepend(children, TranslateBranches(defs, branches[i..], names, visiting))
    {
      BranchesNext(defs, branches, i, names, visiting, children);
      SizeOfPart(branches, i);
      var child :- AvroField(defs, BranchName(branches[i]), branches[i], true, visiting);
      if child.name in names { return Err(NamesCollide); }
      names := names + {child.name};
      children := children + [child];
    }
    assert children + [] == children;
    r := Ok(children);
  }

  // ------------------------------------------------------------ the unfolding

  /** A union with one branch besides null is that branch. */
  function Core(s: Schema): Schema
    decreases Size(s)
  {
    if s.Union? && |NonNull(s.branches)| == 1 then
      SizeOfPart(NonNull(s.branches), 0);
      Core(NonNull(s.branches)[0])
    else s
  }

  predicate IsCore(s: Schema) { s.Union? ==> |NonNull(s.branches)| != 1 }

  function SchemasOf(members: seq<Member>): (r: seq<Schema>)
    ensures |r| == |members|
    ensures forall i :: 0 <= i < |members| ==> r[i] == members[i].schema
  {
    seq(|members|, i requires 0 <= i < |members| => members[i].schema)
  }

  predicate IsRecord(defs: Definitions, s: Schema) { s.Defined? && s.fullName in defs && defs[s.fullName].Record? }

  function InsideCore(defs: Definitions, s: Schema): seq<Schema> {
    match s
    case Defined(n) => if IsRecord(defs, s) then SchemasOf(defs[n].members) else []
    case Union(branches) => NonNull(branches)
    case Array(items) => [items]
    case Map(values) => [values]
    case _ => []
  }

  function Inside(defs: Definitions, s: Schema): seq<Schema> { InsideCore(defs, Core(s)) }

  /** Records are the types that a path opens. */
  function Opens(defs: Definitions, s: Schema): Option<Bytes> {
    if IsRecord(defs, Core(s)) then Some(Core(s).fullName) else None
  }

  function GraphOf(defs: Definitions): Graph<Schema> {
    Graph(s => Inside(defs, s), s => Opens(defs, s))
  }

  /** The Arrow type of a schema, apart from what is inside it. */
  predicate HasShape(defs: Definitions, s: Schema, t: Type) {
    match Core(s)
    case Null => false
    case Scalar(_, column) => column.Some? && t == Leaf(column.value.kind)
    case Defined(n) =>
      && n in defs
      && (match defs[n]
          case Plain(column) => column.Some? && t == Leaf(column.value.kind)
          case Record(members) =>
            t.Struct? && |t.fields| == |members| && forall i :: 0 <= i < |members| ==> t.fields[i].name == members[i].name)
    case Union(branches) =>
      && t.Struct? && |t.fields| == |NonNull(branches)|
      && forall i :: 0 <= i < |t.fields| ==> t.fields[i].name == BranchName(NonNull(branches)[i])
    case Array(_) => t.ListOf?
    case Map(_) => t.MapOf?
  }

  /** That a type is what a schema becomes below a path of open records. */
  ghost predicate IsTypeOf(defs: Definitions, s: Schema, path: seq<Bytes>, t: Type) {
    exists name, nullable :: IsTypeIn(Translate(defs, name, s, nullable, path), t)
  }

  predicate IsTypeIn(r: Outcome, t: Type) { r.Ok? && r.value.dataType == t }

  ghost function Gives(defs: Definitions): (Schema, seq<Bytes>, Type) -> bool {
    (s, path, t) => IsTypeOf(defs, s, path, t)
  }

  function ShapeOf(defs: Definitions): (Schema, Type) -> bool {
    (s, t) => HasShape(defs, s, t)
  }

  // ------------------------------------------------------------------- proofs

  lemma {:induction false} KeepsName(defs: Definitions, name: Bytes, s: Schema, nullable: bool, visiting: seq<Bytes>)
    requires Translate(defs, name, s, nullable, visiting).Ok?
    ensures Translate(defs, name, s, nullable, visiting).value.name == name
    decreases Size(s)
  {
    if !IsCore(s) {
      SizeOfPart(NonNull(s.branches), 0);
      KeepsName(defs, name, NonNull(s.branches)[0], nullable || 1 < |s.branches|, visiting);
    }
  }

  lemma {:induction false} TranslateCore(defs: Definitions, name: Bytes, s: Schema, nullable: bool, visiting: seq<Bytes>) returns (n: bool)
    ensures Translate(defs, name, s, nullable, visiting) == Translate(defs, name, Core(s), n, visiting)
    ensures IsCore(Core(s)) && Size(Core(s)) <= Size(s)
    decreases Size(s)
  {
    n := nullable;
    if !IsCore(s) {
      SizeOfPart(NonNull(s.branches), 0);
      n := TranslateCore(defs, name, NonNull(s.branches)[0], nullable || 1 < |s.branches|, visiting);
    }
  }

  lemma {:induction false} CoreOfCore(s: Schema)
    requires IsCore(s)
    ensures Core(s) == s
  {
  }

  lemma {:induction false} MemberAt(defs: Definitions, members: seq<Member>, visiting: seq<Bytes>, i: nat)
    requires TranslateMembers(defs, members, visiting).Ok? && i < |members|
    ensures Translate(defs, members[i].name, members[i].schema, false, visiting)
            == Ok(TranslateMembers(defs, members, visiting).value[i])
  {
    if i > 0 { MemberAt(defs, members[1..], visiting, i - 1); }
  }

  lemma {:induction false} BranchAt(defs: Definitions, branches: seq<Schema>, names: set<Bytes>, visiting: seq<Bytes>, i: nat)
    requires TranslateBranches(defs, branches, names, visiting).Ok? && i < |branches|
    ensures Translate(defs, BranchName(branches[i]), branches[i], true, visiting)
            == Ok(TranslateBranches(defs, branches, names, visiting).value[i])
  {
    if i > 0 {
      var first := Translate(defs, BranchName(branches[0]), branches[0], true, visiting).value;
      BranchAt(defs, branches[1..], names + {first.name}, visiting, i - 1);
    }
  }

  lemma {:induction false} RootTag(defs: Definitions, name: Bytes, s: Schema, nullable: bool, path: seq<Bytes>)
    requires Translate(defs, name, s, nullable, path).Ok?
    ensures Translate(defs, name, s, nullable, path).value.tag == Json <==> !IsOpen(GraphOf(defs), s, path)
  {
    var n := TranslateCore(defs, name, s, nullable, path);
  }

  /** What is inside a schema is translated inside its type, with the record that the
      schema opens added to the path. */
  lemma {:induction false} Inner(defs: Definitions, name: Bytes, s: Schema, nullable: bool, path: seq<Bytes>, k: nat)
    returns (innerName: Bytes, innerNullable: bool)
    requires IsCore(s) && Translate(defs, name, s, nullable, path).Ok? && IsOpen(GraphOf(defs), s, path)
    requires k < |InsideCore(defs, s)|
    ensures var t := Translate(defs, name, s, nullable, path).value.dataType;
            var inner := Translate(defs, innerName, InsideCore(defs, s)[k], innerNullable, path + Unfoldings.Named(Opens(defs, s)));
            && inner.Ok? && inner.value.name == innerName && |TypesInside(t)| == |InsideCore(defs, s)|
            && inner.value.dataType == TypesInside(t)[k]
            && (t.MapOf? || (|FieldsInside(t)| == |TypesInside(t)| && FieldsInside(t)[k] == inner.value))
    ensures s.Defined? ==> innerName == defs[s.fullName].members[k].name
    ensures s.Union? ==> innerName == BranchName(NonNull(s.branches)[k])
  {
    assert path + [] == path;
    CoreOfCore(s);
    innerName, innerNullable := if s.Array? then ITEM else VALUE, false;
    if s.Defined? {
      var members := defs[s.fullName].members;
      MemberAt(defs, members, path + [s.fullName], k);
      innerName := members[k].name;
    } else if s.Union? {
      BranchAt(defs, NonNull(s.branches), {}, path, k);
      innerName, innerNullable := BranchName(NonNull(s.branches)[k]), true;
    }
    KeepsName(defs, innerName, InsideCore(defs, s)[k], innerNullable, path + Unfoldings.Named(Opens(defs, s)));
  }

  lemma {:induction false} ShapeOfCore(defs: Definitions, name: Bytes, s: Schema, nullable: bool, path: seq<Bytes>)
    requires IsCore(s) && Translate(defs, name, s, nullable, path).Ok? && IsOpen(GraphOf(defs), s, path)
    ensures var t := Translate(defs, name, s, nullable, path).value.dataType;
            HasShape(defs, s, t) && |TypesInside(t)| == |InsideCore(defs, s)|
  {
    CoreOfCore(s);
    forall k | 0 <= k < |InsideCore(defs, s)|
      ensures s.Defined? ==>
                FieldsInside(Translate(defs, name, s, nullable, path).value.dataType)[k].name == defs[s.fullName].members[k].name
      ensures s.Union? ==>
                FieldsInside(Translate(defs, name, s, nullable, path).value.dataType)[k].name == BranchName(NonNull(s.branches)[k])
    {
      var innerName, innerNullable := Inner(defs, name, s, nullable, path, k);
    }
  }

  lemma {:induction false} TranslatesOneLevel(defs: Definitions, name: Bytes, s: Schema, nullable: bool, path: seq<Bytes>)
    requires Translate(defs, name, s, nullable, path).Ok?
    ensures OneLevel(GraphOf(defs), ShapeOf(defs), _ => false, Gives(defs), s, path,
                     Translate(defs, name, s, nullable, path).value.dataType)
  {
    var g, core, longer := GraphOf(defs), Core(s), path + Unfoldings.Named(Opens(defs, s));
    var n := TranslateCore(defs, name, s, nullable, path);
    var t := Translate(defs, name, core, n, path).value.dataType;
    CoreOfCore(core);
    if IsOpen(g, s, path) {
      ShapeOfCore(defs, name, core, n, path);
      forall k | 0 <= k < |g.inside(s)|
        ensures Gives(defs)(g.inside(s)[k], longer, TypesInside(t)[k])
        ensures !t.MapOf? ==> (FieldsInside(t)[k].tag == Json <==> !IsOpen(g, g.inside(s)[k], longer))
      {
        var innerName, innerNullable := Inner(defs, name, core, n, path, k);
        assert IsTypeIn(Translate(defs, innerName, g.inside(s)[k], innerNullable, longer), TypesInside(t)[k]);
        RootTag(defs, innerName, g.inside(s)[k], innerNullable, longer);
      }
      FieldsOrTypes(t);
    }
  }

  lemma {:induction false} FieldsOrTypes(t: Type)
    ensures |FieldsInside(t)| == if t.MapOf? then 0 else |TypesInside(t)|
  {
  }

  lemma {:induction false} AvroIsTranslation(defs: Definitions)
    ensures IsTranslation(GraphOf(defs), ShapeOf(defs), _ => false, Gives(defs))
  {
    forall s: Schema, path: seq<Bytes>, t: Type | Gives(defs)(s, path, t) && NoRepeats(path)
      ensures OneLevel(GraphOf(defs), ShapeOf(defs), _ => false, Gives(defs), s, path, t)
    {
      var name, nullable :| IsTypeIn(Translate(defs, name, s, nullable, path), t);
      TranslatesOneLevel(defs, name, s, nullable, path);
    }
  }

  /** The finite tree of an Avro schema is its endless unfolding, cut exactly where a
      record is inside itself. */
  lemma {:induction false} TreeIsExact(defs: Definitions, name: Bytes, s: Schema, nullable: bool, path: seq<Bytes>, pos: seq<nat>)
    requires NoRepeats(path) && Translate(defs, name, s, nullable, path).Ok?
    ensures TypeIsExact(GraphOf(defs), ShapeOf(defs), s, path, Translate(defs, name, s, nullable, path).value.dataType, pos)
  {
    var t := Translate(defs, name, s, nullable, path).value.dataType;
    assert IsTypeIn(Translate(defs, name, s, nullable, path), t);
    AvroIsTranslation(defs);
    TreeIsCutUnfolding(GraphOf(defs), ShapeOf(defs), _ => false, Gives(defs), s, path, t, pos);
  }

  /** A field of a struct or a list says it is JSON exactly at a back edge. */
  lemma {:induction false} JsonIsBackEdge(defs: Definitions, name: Bytes, s: Schema, nullable: bool, path: seq<Bytes>, pos: seq<nat>, k: nat)
    requires NoRepeats(path) && Translate(defs, name, s, nullable, path).Ok?
    requires var t := TypeAt(Translate(defs, name, s, nullable, path).value.dataType, pos);
             t.Some? && k < |FieldsInside(t.value)|
    ensures var t := TypeAt(Translate(defs, name, s, nullable, path).value.dataType, pos).value;
            FieldsInside(t)[k].tag == Json <==> IsBackEdge(GraphOf(defs), s, path, pos + [k])
  {
    var t := Translate(defs, name, s, nullable, path).value.dataType;
    assert IsTypeIn(Translate(defs, name, s, nullable, path), t);
    AvroIsTranslation(defs);
    Unfoldings.TagsAreExact(GraphOf(defs), ShapeOf(defs), _ => false, Gives(defs), s, path, t, pos, k);
  }

  /** Without cycles nothing is cut off. */
  lemma {:induction false} AcyclicIsWhole(defs: Definitions, name: Bytes, s: Schema, nullable: bool, pos: seq<nat>)
    requires forall p :: At(GraphOf(defs), s, p).Some? ==>
                           NoRepeats(Opened(GraphOf(defs), s, p) + Unfoldings.Named(Opens(defs, At(GraphOf(defs), s, p).value)))
    requires Translate(defs, name, s, nullable, []).Ok?
    ensures var t := TypeAt(Translate(defs, name, s, nullable, []).value.dataType, pos);
            && (t.Some? <==> At(GraphOf(defs), s, pos).Some?)
            && (t.Some? ==> HasShape(defs, At(GraphOf(defs), s, pos).value, t.value))
  {
    var t := Translate(defs, name, s, nullable, []).value.dataType;
    assert IsTypeIn(Translate(defs, name, s, nullable, []), t);
    AvroIsTranslation(defs);
    Unfoldings.AcyclicIsWhole(GraphOf(defs), ShapeOf(defs), _ => false, Gives(defs), s, t, pos);
  }

  /** A record reached again as a map value is a text without the JSON tag, because
      the map keeps the type of its values and drops their metadata. */
  lemma {:induction false} MapValueLosesTag(fullName: Bytes, member: Bytes, name: Bytes)
    ensures var defs := map[fullName := Record([Member(member, Map(Defined(fullName)))])];
            Translate(defs, name, Defined(fullName), false, [])
            == Ok(Field(name, Struct([Field(member, MapOf(TEXT), false, Untagged)]), false, Untagged))
  {
    var members := [Member(member, Map(Defined(fullName)))];
    var defs := map[fullName := Record(members)];
    var inner := Field(member, MapOf(TEXT), false, Untagged);
    assert [] + [fullName] == [fullName];
    assert Translate(defs, VALUE, Defined(fullName), false, [fullName]) == Ok(Field(VALUE, TEXT, false, Json));
    assert Translate(defs, member, Map(Defined(fullName)), false, [fullName]) == Ok(inner);
    assert TranslateMembers(defs, members[1..], [fullName]) == Ok([]);
    assert [inner] + [] == [inner];
    MembersNext(defs, members, 0, [fullName], []);
    PrependNothing(TranslateMembers(defs, members, [fullName]));
    assert members[0..] == members;
  }

  // ----------------------------------------------------------------- failures

  predicate DistinctNames(branches: seq<Schema>) {
    forall i, j :: 0 <= i < j < |branches| ==> BranchName(branches[i]) != BranchName(branches[j])
  }

  /** A schema that has an Arrow type of its own. */
  predicate Usable(defs: Definitions, s: Schema) {
    match Core(s)
    case Null => false
    case Scalar(_, column) => column.Some?
    case Defined(n) => n in defs && (defs[n].Plain? ==> defs[n].column.Some?)
    case Union(branches) => NonNull(branches) != [] && DistinctNames(NonNull(branches))
    case _ => true
  }

  function UsableIn(defs: Definitions): Schema -> bool { s => Usable(defs, s) }

  lemma {:induction false} MembersSucceed(defs: Definitions, members: seq<Member>, visiting: seq<Bytes>)
    ensures TranslateMembers(defs, members, visiting).Ok?
            <==> forall k :: 0 <= k < |members| ==> Translate(defs, members[k].name, members[k].schema, false, visiting).Ok?
  {
    if members != [] {
      MembersSucceed(defs, members[1..], visiting);
      assert forall k :: 0 < k < |members| ==> members[k] == members[1..][k - 1];
    }
  }

  lemma {:induction false} BranchesSucceed(defs: Definitions, branches: seq<Schema>, names: set<Bytes>, visiting: seq<Bytes>)
    ensures TranslateBranches(defs, branches, names, visiting).Ok?
            <==> && (forall k :: 0 <= k < |branches| ==>
                       Translate(defs, BranchName(branches[k]), branches[k], true, visiting).Ok?)
                 && DistinctNames(branches) && forall k :: 0 <= k < |branches| ==> BranchName(branches[k]) !in names
  {
    if branches != [] {
      var first := Translate(defs, BranchName(branches[0]), branches[0], true, visiting);
      assert forall k :: 0 < k < |branches| ==> branches[k] == branches[1..][k - 1];
      if first.Ok? {
        KeepsName(defs, BranchName(branches[0]), branches[0], true, visiting);
        BranchesSucceed(defs, branches[1..], names + {first.value.name}, visiting);
        DistinctHead(branches);
      }
    }
  }

  lemma {:induction false} DistinctHead(branches: seq<Schema>)
    requires branches != []
    ensures DistinctNames(branches)
            <==> DistinctNames(branches[1..])
                 && forall k :: 0 <= k < |branches[1..]| ==> BranchName(branches[1..][k]) != BranchName(branches[0])
  {
    assert forall k :: 0 < k < |branches| ==> branches[k] == branches[1..][k - 1];
  }

  /** Translation succeeds exactly when every schema that the cut tree reaches has an
      Arrow type of its own. */
  lemma {:induction false} SuccessIsExact(defs: Definitions, name: Bytes, s: Schema, nullable: bool, path: seq<Bytes>)
    requires NoRepeats(path)
    ensures Translate(defs, name, s, nullable, path).Ok? <==> AllUsable(GraphOf(defs), UsableIn(defs), s, path)
    decreases |Closed(defs, path)|, Size(s)
  {
    var g, usable, core := GraphOf(defs), UsableIn(defs), Core(s);
    var n := TranslateCore(defs, name, s, nullable, path);
    CoreOfCore(core);
    if !IsOpen(g, s, path) {
      AllUsableAtCut(g, usable, s, path);
    } else {
      AllUsableByLevel(g, usable, s, path);
      OpenIff(g, s, path);
      assert path + [] == path;
      match core {
        case Defined(fullName) =>
          if IsRecord(defs, core) {
            PathGrows(defs, path, fullName);
            var members := defs[fullName].members;
            MembersSucceed(defs, members, path + [fullName]);
            forall k | 0 <= k < |members|
              ensures Translate(defs, members[k].name, members[k].schema, false, path + [fullName]).Ok?
                      <==> AllUsable(g, usable, g.inside(s)[k], path + [fullName])
            {
              SuccessIsExact(defs, members[k].name, members[k].schema, false, path + [fullName]);
            }
          }
        case Union(branches) =>
          var some := NonNull(branches);
          BranchesSucceed(defs, some, {}, path);
          forall k | 0 <= k < |some|
            ensures Translate(defs, BranchName(some[k]), some[k], true, path).Ok? <==> AllUsable(g, usable, some[k], path)
          {
            SizeOfPart(some, k);
            SuccessIsExact(defs, BranchName(some[k]), some[k], true, path);
          }
        case Array(items) =>
          SuccessIsExact(defs, ITEM, items, false, path);
          assert g.inside(s)[0] == items;
        case Map(values) =>
          SuccessIsExact(defs, VALUE, values, false, path);
          assert g.inside(s)[0] == values;
        case _ =>
      }
    }
  }

  // ---------------------------------------------------------------- top level

  /** A record spreads its members over columns; anything else is one column. */
  method AvroTopLevelFields(defs: Definitions, s: Schema) returns (r: Outcomes)
    ensures IsRecord(defs, s) ==>
              var whole := Translate(defs, VALUE, s, false, []);
              r == if whole.Ok? then Ok(whole.value.dataType.fields) else Err(whole.error)
    ensures !IsRecord(defs, s) ==>
              var whole := Translate(defs, VALUE, s, false, []);
              r == if whole.Ok? then Ok([whole.value]) else Err(whole.error)
  {
    assert s.Defined? ==> [] + [s.fullName] == [s.fullName];
    if s.Defined? && s.fullName in defs && defs[s.fullName].Record? {
      r := AvroMembers(defs, defs[s.fullName].members, [s.fullName]);
    } else {
      var field :- AvroField(defs, VALUE, s, false, []);
      r := Ok([field]);
    }
  }
}
