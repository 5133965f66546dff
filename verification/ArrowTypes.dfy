/** Arrow types and fields, as trees. */
module ArrowTypes {
  import opened Wrappers
  import opened ByteCodec

  /** The metadata of a field, of which only the kinds that matter here differ. */
  datatype Tag = Untagged | Json | AvroUnion | Metadata(text: Bytes)

  datatype Type = Leaf(kind: Bytes) | Struct(fields: seq<Field>) | ListOf(item: Field) | MapOf(value: Type)

  datatype Field = Field(name: Bytes, dataType: Type, nullable: bool, tag: Tag)

  const STRING: Bytes := [115, 116, 114, 105, 110, 103]

  /** The type of what is cut off: a string, of which the tag says that it is JSON. */
  const TEXT: Type := Leaf(STRING)

  function TypesInside(t: Type): seq<Type> {
    match t
    case Struct(fields) => seq(|fields|, i requires 0 <= i < |fields| => fields[i].dataType)
    case ListOf(item) => [item.dataType]
    case MapOf(value) => [value]
    case _ => []
  }

  /** The fields right inside a type. A map keeps only the type of its values. */
  function FieldsInside(t: Type): seq<Field> {
    match t
    case Struct(fields) => fields
    case ListOf(item) => [item]
    case _ => []
  }

  function TypeAt(t: Type, pos: seq<nat>): Option<Type>
    decreases |pos|
  {
    if pos == [] then Some(t)
    else if pos[0] < |TypesInside(t)| then TypeAt(TypesInside(t)[pos[0]], pos[1..])
    else None
  }
}
