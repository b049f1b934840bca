/** The values the pipeline reads: JSON payloads it only carries, and schema trees
    (TypeBox or plain JSON Schema) it inspects and rewrites. The source recognises a
    schema's form by duck typing; here each keyword it looks at is a field of a closed
    datatype, so a node may carry several keywords and dispatch order stays visible. */
module Schemas {
  import opened Wrappers

  /** A JSON value the pipeline passes through untouched (examples, info, servers, ...). */
  datatype Value =
    | Null
    | Bool(b: bool)
    | Num(n: int)
    | Str(s: string)
    | Arr(elems: seq<Value>)
    | Obj(fields: seq<(string, Value)>)

  /** A non-object value standing where a schema is expected (`typeof` is not "object"). */
  datatype Prim = PBool(b: bool) | PNum(n: int) | PStr(s: string)

  /** The annotations of a schema node that the pipeline reads or strips, plus the
      remaining keywords (`type`, `minimum`, ...) which it only copies. `optional` is
      TypeBox's optional-property marker. */
  datatype Meta = Meta(
    id: Option<string>,
    title: Option<string>,
    description: Option<string>,
    examples: Option<Value>,
    deprecated: Option<bool>,
    explode: Option<bool>,
    optional: bool,
    other: seq<(string, Value)>)

  /** The `items` keyword: absent, one schema, or a tuple of schemas. */
  datatype Items = NoItems | Single(item: Schema) | Tuple(elems: seq<Schema>)

  /** The `properties` keyword, in `Object.entries` order. */
  datatype Properties = NoProperties | Properties(entries: seq<(string, Schema)>)

  /** An `anyOf` or `allOf` keyword. */
  datatype Branches = NoBranches | Branches(list: seq<Schema>)

  datatype Schema =
    | Node(ref: Option<string>, items: Items, properties: Properties, anyOf: Branches, allOf: Branches, meta: Meta)
    | Literal(prim: Prim)

  const NoMeta := Meta(None, None, None, None, None, None, false, [])

  /** A node holding nothing but a `$ref`. */
  function RefOnly(ref: string): (s: Schema)
    ensures s.Node? && s.ref == Some(ref) && s.meta == NoMeta
  {
    Node(Some(ref), NoItems, NoProperties, NoBranches, NoBranches, NoMeta)
  }

  /** JavaScript truthiness of a value in a schema position. */
  predicate Truthy(s: Schema) {
    match s
    case Node(_, _, _, _, _, _) => true
    case Literal(PBool(b)) => b
    case Literal(PNum(n)) => n != 0
    case Literal(PStr(t)) => t != ""
  }
}
