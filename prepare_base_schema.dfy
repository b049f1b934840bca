/** `prepareBaseSchema`: the document skeleton built from the caller's base object and
    the application's shared schema registry. */
module BaseDocument {
  import opened Wrappers
  import opened Strings
  import opened Schemas
  import opened References
  import opened Operations

  /** A path item: the operation under each lower-case HTTP method. */
  type PathItem = map<string, Operation>

  /** The components object: its `schemas`, and the other component kinds it only carries. */
  datatype Components = Components(schemas: Option<map<string, Schema>>, other: seq<(string, Value)>)

  /** The caller-supplied base object. */
  datatype OpenApiBase = OpenApiBase(
    components: Option<Components>,
    externalDocs: Option<Value>,
    info: Value,
    jsonSchemaDialect: Option<string>,
    paths: Option<map<string, PathItem>>,
    security: Option<Value>,
    servers: Option<Value>,
    tags: Option<Value>,
    webhooks: Option<Value>)

  /** An OpenAPI document. */
  datatype Document = Document(
    components: Components,
    externalDocs: Option<Value>,
    info: Value,
    jsonSchemaDialect: Option<string>,
    openapi: string,
    paths: Option<map<string, PathItem>>,
    security: Option<Value>,
    servers: Option<Value>,
    tags: Option<Value>,
    webhooks: Option<Value>)

  const OpenApiVersion := "3.1.0"

  const EmptyComponents := Components(None, [])

  /** The error the `in` operator throws when a registry entry is not an object. */
  const NotAnObjectError := "TypeError: Cannot use 'in' operator to search for '$id'"

  /** The component schemas the document starts from: the caller's, else the registry. */
  function ChosenSchemas(base: OpenApiBase, registry: map<string, Schema>): map<string, Schema> {
    base.components.GetOr(EmptyComponents).schemas.GetOr(registry)
  }

  predicate AllNodes(schemas: map<string, Schema>) {
    forall k <- schemas :: schemas[k].Node?
  }

  /** One component schema: `$id` deleted, then references rewritten. */
  function Normalize(isUrl: string -> bool, s: Schema): (r: Schema)
    requires s.Node?
    ensures r.Node? && r.meta.id.None?
    ensures EraseRefs(r) == EraseRefs(s.(meta := s.meta.(id := None)))
    ensures UpdateReferences(isUrl, r) == r
  {
    var t := s.(meta := s.meta.(id := None));
    UpdateChangesOnlyRefs(isUrl, t);
    UpdateReferencesIdempotent(isUrl, t);
    UpdateReferences(isUrl, t)
  }

  function NormalizeAll(isUrl: string -> bool, schemas: map<string, Schema>): (r: map<string, Schema>)
    requires AllNodes(schemas)
  {
    map k | k in schemas :: Normalize(isUrl, schemas[k])
  }

  /** Preparing an already prepared set of components changes nothing. */
  lemma NormalizeAllIdempotent(isUrl: string -> bool, schemas: map<string, Schema>)
    requires AllNodes(schemas)
    ensures AllNodes(NormalizeAll(isUrl, schemas))
    ensures NormalizeAll(isUrl, NormalizeAll(isUrl, schemas)) == NormalizeAll(isUrl, schemas)
  {
    var once := NormalizeAll(isUrl, schemas);
    forall k <- once ensures Normalize(isUrl, once[k]) == once[k] {
      assert once[k].(meta := once[k].meta.(id := None)) == once[k];
    }
  }

  /** The document `prepareBaseSchema` returns, or the error it throws. */
  function BaseDocumentOf(base: OpenApiBase, registry: map<string, Schema>, isUrl: string -> bool): Result<Document> {
    var schemas := ChosenSchemas(base, registry);
    if !AllNodes(schemas) then Failure(NotAnObjectError)
    else
      var components := base.components.GetOr(EmptyComponents);
      Success(Document(components.(schemas := Some(NormalizeAll(isUrl, schemas))), base.externalDocs, base.info,
                       base.jsonSchemaDialect, OpenApiVersion, base.paths, base.security,
                       base.servers, base.tags, base.webhooks))
  }

  /** It fails exactly when a component schema is not an object. Otherwise the version is
      3.1.0, the component schemas are the prepared ones (the caller's, else the registry),
      and every other field of the base passes through. */
  lemma BaseDocumentShape(base: OpenApiBase, registry: map<string, Schema>, isUrl: string -> bool)
    ensures var r := BaseDocumentOf(base, registry, isUrl);
      r.Failure? <==> !AllNodes(ChosenSchemas(base, registry))
    ensures var r := BaseDocumentOf(base, registry, isUrl);
      r.Success? ==>
      && r.value.openapi == OpenApiVersion
      && r.value.components.schemas == Some(NormalizeAll(isUrl, ChosenSchemas(base, registry)))
      && r.value.components.other == base.components.GetOr(EmptyComponents).other
    ensures var r := BaseDocumentOf(base, registry, isUrl);
      r.Success? ==>
      && r.value.externalDocs == base.externalDocs && r.value.info == base.info
      && r.value.jsonSchemaDialect == base.jsonSchemaDialect && r.value.paths == base.paths
      && r.value.security == base.security && r.value.servers == base.servers
      && r.value.tags == base.tags && r.value.webhooks == base.webhooks
  {
  }

  /** After preparation no component schema has a top-level `$id`, and every one is
      already in final form for the reference rewrite. */
  lemma PreparedComponents(base: OpenApiBase, registry: map<string, Schema>, isUrl: string -> bool)
    requires BaseDocumentOf(base, registry, isUrl).Success?
    ensures var schemas := BaseDocumentOf(base, registry, isUrl).value.components.schemas.value;
      forall k <- schemas :: schemas[k].meta.id.None? && UpdateReferences(isUrl, schemas[k]) == schemas[k]
  {
  }

  /** `prepareBaseSchema`: a component schema that is not an object makes the `$id` test throw. */
  method PrepareBaseSchema(base: OpenApiBase, registry: map<string, Schema>, isUrl: string -> bool)
    returns (r: Result<Document>)
    ensures r == BaseDocumentOf(base, registry, isUrl)
  {
    var components := base.components.GetOr(EmptyComponents);
    var schemas := components.schemas.GetOr(registry);
    var pending := schemas.Keys;
    var prepared: map<string, Schema> := map[];
    while pending != {}
      invariant pending <= schemas.Keys
      invariant prepared.Keys == schemas.Keys - pending
      invariant forall k <- prepared :: schemas[k].Node? && prepared[k] == Normalize(isUrl, schemas[k])
      decreases |pending|
    {
      var key :| key in pending;
      var schema := schemas[key];
      if schema.Literal? {
        assert !AllNodes(schemas);
        return Failure(NotAnObjectError);
      }
      if schema.meta.id.Some? {
        schema := schema.(meta := schema.meta.(id := None));
      }
      schema := UpdateReferences(isUrl, schema);
      prepared := prepared[key := schema];
      pending := pending - {key};
    }
    assert AllNodes(schemas);
    assert prepared == NormalizeAll(isUrl, schemas);
    r := Success(Document(components.(schemas := Some(prepared)), base.externalDocs, base.info,
                          base.jsonSchemaDialect, OpenApiVersion, base.paths, base.security,
                          base.servers, base.tags, base.webhooks));
  }

  /** The registry of the integration test: component `b` refers to `d` by bare name, and
      its `d` reference ends up pointing into the components. */
  lemma ComponentReferenceExample(isUrl: string -> bool, meta: Meta, other: Schema)
    requires !isUrl("d")
    ensures var b := Node(None, NoItems, Properties([("a", RefOnly("d")), ("b", other)]), NoBranches, NoBranches, meta);
      Normalize(isUrl, b).properties.entries[0].1 == RefOnly("#/components/schemas/d")
  {
    assert "d"[..1][0] == 'd';
    assert !StartsWith("d", "#");
    assert ComponentPrefix + "d" == "#/components/schemas/d";
    assert RewriteRef(isUrl, "d") == "#/components/schemas/d";
    var b := Node(None, NoItems, Properties([("a", RefOnly("d")), ("b", other)]), NoBranches, NoBranches, meta);
    var t := b.(meta := b.meta.(id := None));
    assert UpdateReferences(isUrl, t).properties == UpdateProperties(isUrl, t.properties);
    assert UpdateProperties(isUrl, t.properties).entries[0].1 == UpdateReferences(isUrl, RefOnly("d"));
  }
}
