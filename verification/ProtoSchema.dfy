/** Protobuf messages become Arrow fields. A message already open on the path becomes
    a JSON text column. */
module ProtoSchemas {
  import opened Wrappers
  import opened ByteCodec
  import opened ArrowTypes
  import opened Unfoldings

  datatype Element = Scalar(kind: Bytes) | Enum(fullName: Bytes) | Message(fullName: Bytes)

  /** One element, a list of them, or a map to them from a scalar key. */
  datatype Shape = Single(element: Element) | Repeated(element: Element) | Keyed(value: Element)

  datatype Member = Member(name: Bytes, shape: Shape, hasPresence: bool)

  datatype Column = Column(kind: Bytes, tag: Tag)

  /** The linked messages, those that are a single column (the timestamp and the
      wrappers), and those that are JSON by themselves. */
  datatype Descriptors = Descriptors(messages: map<Bytes, seq<Member>>, columns: map<Bytes, Column>, json: set<Bytes>)
  {
    ghost predicate Valid() { forall m :: m in columns ==> columns[m].tag != Json }

    predicate IsStruct(m: Bytes) { m !in columns && m !in json }

    function Members(m: Bytes): seq<Member> { if m in messages then messages[m] else [] }
  }

  const ITEM: Bytes := [105, 116, 101, 109]

  function Closed(d: Descriptors, visiting: seq<Bytes>): set<Bytes> {
    set m | m in d.messages && m !in visiting
  }

  lemma {:induction false} PathGrows(d: Descriptors, visiting: seq<Bytes>, m: Bytes)
    requires m in d.messages && m !in visiting
    ensures |Closed(d, visiting + [m])| < |Closed(d, visiting)|
  {
    assert Closed(d, visiting + [m]) == Closed(d, visiting) - {m};
  }

  function ElementField(d: Descriptors, name: Bytes, e: Element, visiting: seq<Bytes>): Field
    decreases |Closed(d, visiting)|, 0
  {
    match e
    case Scalar(kind) => Field(name, Leaf(kind), false, Untagged)
    case Enum(fullName) => Field(name, TEXT, false, Metadata(fullName))
    case Message(m) =>
      if m in d.columns then Field(name, Leaf(d.columns[m].kind), false, d.columns[m].tag)
      else if m in d.json || m in visiting then Field(name, TEXT, false, Json)
      else if m !in d.messages then Field(name, Struct([]), false, Untagged)
      else
        PathGrows(d, visiting, m);
        Field(name, Struct(MemberFields(d, d.messages[m], visiting + [m])), false, Untagged)
  }

  function MemberField(d: Descriptors, member: Member, visiting: seq<Bytes>): Field
    decreases |Closed(d, visiting)|, 1
  {
    match member.shape
    case Keyed(value) => Field(member.name, MapOf(ElementField(d, member.name, value, visiting).dataType), false, Untagged)
    case Repeated(e) => Field(member.name, ListOf(ElementField(d, ITEM, e, visiting)), false, Untagged)
    case Single(e) =>
      var element := ElementField(d, member.name, e, visiting);
      Field(member.name, element.dataType, member.hasPresence, element.tag)
  }

  function MemberFields(d: Descriptors, members: seq<Member>, visiting: seq<Bytes>): (fields: seq<Field>)
    ensures |fields| == |members|
    ensures forall i :: 0 <= i < |members| ==> fields[i] == MemberField(d, members[i], visiting)
    decreases |Closed(d, visiting)|, 2, |members|
  {
    if members == [] then []
    else MemberFields(d, members[..|members| - 1], visiting) + [MemberField(d, members[|members| - 1], visiting)]
  }

  method ProtoElement(d: Descriptors, name: Bytes, e: Element, visiting: seq<Bytes>) returns (field: Field)
    ensures field == ElementField(d, name, e, visiting)
    decreases |Closed(d, visiting)|, 0
  {
    match e
    case Scalar(kind) => field := Field(name, Leaf(kind), false, Untagged);
    case Enum(fullName) => field := Field(name, TEXT, false, Metadata(fullName));
    case Message(m) =>
      if m in d.columns { return Field(name, Leaf(d.columns[m].kind), false, d.columns[m].tag); }
      if m in d.json || m in visiting { return Field(name, TEXT, false, Json); }
      if m !in d.messages { return Field(name, Struct([]), false, Untagged); }
      PathGrows(d, visiting, m);
      var children := ProtoMembers(d, d.messages[m], visiting + [m]);
      field := Field(name, Struct(children), false, Untagged);
  }

  method ProtoField(d: Descriptors, member: Member, visiting: seq<Bytes>) returns (field: Field)
    ensures field == MemberField(d, member, visiting)
    decreases |Closed(d, visiting)|, 1
  {
    match member.shape
    case Keyed(value) =>
      var element := ProtoElement(d, member.name, value, visiting);
      field := Field(member.name, MapOf(element.dataType), false, Untagged);
    case Repeated(e) =>
      var item := ProtoElement(d, ITEM, e, visiting);
      field := Field(member.name, ListOf(item), false, Untagged);
    case Single(e) =>
      var element := ProtoElement(d, member.name, e, visiting);
      field := Field(member.name, element.dataType, member.hasPresence, element.tag);
  }

  /** The loop of nested messages and of the top level. */
  method ProtoMembers(d: Descriptors, members: seq<Member>, visiting: seq<Bytes>) returns (fields: seq<Field>)
    ensures fields == MemberFields(d, members, visiting)
    decreases |Closed(d, visiting)|, 2
  {
    fields := [];
    for i := 0 to |members|
      invariant fields == MemberFields(d, members[..i], visiting)
    {
      var field := ProtoField(d, members[i], visiting);
      fields := fields + [field];
    }
    assert members[..|members|] == members;
  }

  // ------------------------------------------------------------ the unfolding

  function ShapesOf(members: seq<Member>): (shapes: seq<Shape>)
    ensures |shapes| == |members|
    ensures forall i :: 0 <= i < |members| ==> shapes[i] == members[i].shape
  {
    seq(|members|, i requires 0 <= i < |members| => members[i].shape)
  }

  predicate IsStruct(d: Descriptors, s: Shape) { s.Single? && s.element.Message? && d.IsStruct(s.element.fullName) }

  function Inside(d: Descriptors, s: Shape): seq<Shape> {
    match s
    case Single(e) => if IsStruct(d, s) then ShapesOf(d.Members(e.fullName)) else []
    case Repeated(e) => [Single(e)]
    case Keyed(e) => [Single(e)]
  }

  /** Messages with fields of their own are the types that a path opens. */
  function Opens(d: Descriptors, s: Shape): Option<Bytes> {
    if IsStruct(d, s) then Some(s.element.fullName) else None
  }

  function GraphOf(d: Descriptors): Graph<Shape> {
    Graph(s => Inside(d, s), s => Opens(d, s))
  }

  /** Messages that are JSON by themselves, in a cycle or not. */
  function IsJson(d: Descriptors): Shape -> bool {
    (s: Shape) => s.Single? && s.element.Message? && s.element.fullName !in d.columns && s.element.fullName in d.json
  }

  /** The Arrow type of a shape, apart from what is inside it. */
  predicate HasShape(d: Descriptors, s: Shape, t: Type) {
    match s
    case Repeated(_) => t.ListOf?
    case Keyed(_) => t.MapOf?
    case Single(Scalar(kind)) => t == Leaf(kind)
    case Single(Enum(_)) => t == TEXT
    case Single(Message(m)) =>
      if m in d.columns then t == Leaf(d.columns[m].kind)
      else if m in d.json then t == TEXT
      else
        && t.Struct? && |t.fields| == |d.Members(m)|
        && forall i :: 0 <= i < |t.fields| ==>
                         t.fields[i].name == d.Members(m)[i].name
                         && t.fields[i].nullable == (d.Members(m)[i].shape.Single? && d.Members(m)[i].hasPresence)
  }

  function ShapeOf(d: Descriptors): (Shape, Type) -> bool { (s, t) => HasShape(d, s, t) }

  function TypeOf(d: Descriptors, s: Shape, path: seq<Bytes>): Type {
    match s
    case Single(e) => ElementField(d, [], e, path).dataType
    case Repeated(e) => ListOf(ElementField(d, ITEM, e, path))
    case Keyed(e) => MapOf(ElementField(d, [], e, path).dataType)
  }

  function Gives(d: Descriptors): (Shape, seq<Bytes>, Type) -> bool {
    (s, path, t) => t == TypeOf(d, s, path)
  }

  lemma {:induction false} NameIsOnlyName(d: Descriptors, name: Bytes, other: Bytes, e: Element, path: seq<Bytes>)
    ensures ElementField(d, name, e, path) == ElementField(d, other, e, path).(name := name)
  {
  }

  lemma {:induction false} NameIsNotInType(d: Descriptors, member: Member, path: seq<Bytes>)
    ensures MemberField(d, member, path).dataType == TypeOf(d, member.shape, path)
  {
    match member.shape {
      case Single(e) => NameIsOnlyName(d, member.name, [], e, path);
      case Keyed(e) => NameIsOnlyName(d, member.name, [], e, path);
      case Repeated(_) =>
    }
  }

  lemma {:induction false} TagOfElement(d: Descriptors, name: Bytes, e: Element, path: seq<Bytes>)
    requires d.Valid()
    ensures ElementField(d, name, e, path).tag == Json <==> IsJson(d)(Single(e)) || !IsOpen(GraphOf(d), Single(e), path)
  {
  }

  lemma {:induction false} TagOfMember(d: Descriptors, member: Member, path: seq<Bytes>)
    requires d.Valid()
    ensures MemberField(d, member, path).tag == Json <==> IsJson(d)(member.shape) || !IsOpen(GraphOf(d), member.shape, path)
  {
    if member.shape.Single? { TagOfElement(d, member.name, member.shape.element, path); }
  }

  lemma {:induction false} StructOf(d: Descriptors, m: Bytes, path: seq<Bytes>)
    requires d.IsStruct(m) && m !in path
    ensures TypeOf(d, Single(Message(m)), path) == Struct(MemberFields(d, d.Members(m), path + [m]))
  {
    assert d.Members(m) == [] ==> MemberFields(d, d.Members(m), path + [m]) == [];
  }

  lemma {:induction false} TranslatesStruct(d: Descriptors, m: Bytes, path: seq<Bytes>, fields: seq<Field>)
    requires d.Valid() && d.IsStruct(m) && m !in path && fields == MemberFields(d, d.Members(m), path + [m])
    ensures var s := Single(Message(m));
            OneLevel(GraphOf(d), ShapeOf(d), IsJson(d), Gives(d), s, path, Struct(fields))
  {
    var members, longer, t := d.Members(m), path + [m], Struct(fields);
    assert FieldsInside(t) == fields && GraphOf(d).inside(Single(Message(m))) == ShapesOf(members);
    forall k | 0 <= k < |members|
      ensures TypesInside(t)[k] == TypeOf(d, members[k].shape, longer)
      ensures fields[k].tag == Json <==> IsJson(d)(members[k].shape) || !IsOpen(GraphOf(d), members[k].shape, longer)
    {
      NameIsNotInType(d, members[k], longer);
      TagOfMember(d, members[k], longer);
    }
  }

  lemma {:induction false} TranslatesElement(d: Descriptors, e: Element, path: seq<Bytes>)
    requires d.Valid()
    ensures OneLevel(GraphOf(d), ShapeOf(d), IsJson(d), Gives(d), Single(e), path, TypeOf(d, Single(e), path))
  {
    if e.Message? && d.IsStruct(e.fullName) && e.fullName !in path {
      StructOf(d, e.fullName, path);
      TranslatesStruct(d, e.fullName, path, MemberFields(d, d.Members(e.fullName), path + [e.fullName]));
    } else {
      assert FieldsInside(TypeOf(d, Single(e), path)) == [] && TypesInside(TypeOf(d, Single(e), path)) == [];
    }
  }

  lemma {:induction false} TranslatesRepeated(d: Descriptors, e: Element, path: seq<Bytes>, item: Field)
    requires d.Valid() && item == ElementField(d, ITEM, e, path)
    ensures OneLevel(GraphOf(d), ShapeOf(d), IsJson(d), Gives(d), Repeated(e), path, ListOf(item))
  {
    NameIsOnlyName(d, ITEM, [], e, path);
    TagOfElement(d, ITEM, e, path);
    assert item.dataType == TypeOf(d, Single(e), path);
    assert Gives(d)(Single(e), path, item.dataType);
    OneInside(GraphOf(d), ShapeOf(d), IsJson(d), Gives(d), Repeated(e), path, ListOf(item), Single(e), [item]);
  }

  lemma {:induction false} TranslatesKeyed(d: Descriptors, e: Element, path: seq<Bytes>, value: Type)
    requires value == TypeOf(d, Single(e), path)
    ensures OneLevel(GraphOf(d), ShapeOf(d), IsJson(d), Gives(d), Keyed(e), path, MapOf(value))
  {
    OneInside(GraphOf(d), ShapeOf(d), IsJson(d), Gives(d), Keyed(e), path, MapOf(value), Single(e), []);
  }

  lemma {:induction false} TranslatesOneLevel(d: Descriptors, s: Shape, path: seq<Bytes>)
    requires d.Valid()
    ensures OneLevel(GraphOf(d), ShapeOf(d), IsJson(d), Gives(d), s, path, TypeOf(d, s, path))
  {
    match s {
      case Single(e) => TranslatesElement(d, e, path);
      case Repeated(e) => TranslatesRepeated(d, e, path, ElementField(d, ITEM, e, path));
      case Keyed(e) => TranslatesKeyed(d, e, path, TypeOf(d, Single(e), path));
    }
  }

  lemma {:induction false} ProtoIsTranslation(d: Descriptors)
    requires d.Valid()
    ensures IsTranslation(GraphOf(d), ShapeOf(d), IsJson(d), Gives(d))
  {
    forall s: Shape, path: seq<Bytes>, t: Type | Gives(d)(s, path, t) && NoRepeats(path)
      ensures OneLevel(GraphOf(d), ShapeOf(d), IsJson(d), Gives(d), s, path, t)
    {
      TranslatesOneLevel(d, s, path);
    }
  }

  /** The finite tree of a message field is its endless unfolding, cut exactly where a
      message is inside itself. */
  lemma {:induction false} TreeIsExact(d: Descriptors, member: Member, path: seq<Bytes>, pos: seq<nat>)
    requires d.Valid() && NoRepeats(path)
    ensures TypeIsExact(GraphOf(d), ShapeOf(d), member.shape, path, MemberField(d, member, path).dataType, pos)
  {
    NameIsNotInType(d, member, path);
    ProtoIsTranslation(d);
    TreeIsCutUnfolding(GraphOf(d), ShapeOf(d), IsJson(d), Gives(d), member.shape, path, TypeOf(d, member.shape, path), pos);
  }

  /** A field of a struct or a list says it is JSON exactly at a back edge or at a
      message that always is. */
  lemma {:induction false} JsonIsExact(d: Descriptors, member: Member, path: seq<Bytes>, pos: seq<nat>, k: nat)
    requires d.Valid() && NoRepeats(path)
    requires var t := TypeAt(MemberField(d, member, path).dataType, pos); t.Some? && k < |FieldsInside(t.value)|
    ensures At(GraphOf(d), member.shape, pos + [k]).Some?
    ensures FieldsInside(TypeAt(MemberField(d, member, path).dataType, pos).value)[k].tag == Json
            <==> IsJson(d)(At(GraphOf(d), member.shape, pos + [k]).value) || IsBackEdge(GraphOf(d), member.shape, path, pos + [k])
  {
    NameIsNotInType(d, member, path);
    ProtoIsTranslation(d);
    TagsAreExact(GraphOf(d), ShapeOf(d), IsJson(d), Gives(d), member.shape, path, TypeOf(d, member.shape, path), pos, k);
  }
}
