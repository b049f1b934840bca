/** `prepareSchemaOperation`: the OpenAPI operation object for one route schema. */
module Operations {
  import opened Wrappers
  import opened Schemas
  import opened Routes
  import opened References
  import opened Parameters
  import opened Slugs

  /** A response object: one media type entry per MIME type, and a description. */
  datatype Response = Response(content: map<string, Schema>, description: string)

  /** An OpenAPI operation object; `requestBody` is its `content` map. */
  datatype Operation = Operation(
    operationId: Option<string>,
    summary: Option<string>,
    tags: Option<seq<string>>,
    description: Option<string>,
    externalDocs: Option<Value>,
    parameters: Option<seq<Parameter>>,
    requestBody: Option<map<string, Schema>>,
    deprecated: Option<bool>,
    security: Option<Value>,
    responses: Option<map<string, Response>>)

  const EmptyOperation := Operation(None, None, None, None, None, None, None, None, None, None)

  /** The MIME types assumed when a route declares no `consumes` or `produces`. */
  const DefaultMediaTypes := ["application/json"]

  /** The text slugged for a route without an `operationId`. */
  function SlugLabel(rs: RouteSchema): string {
    rs.summary.GetOr("operation")
  }

  /** A response's description: its schema's own, else the status phrase, else a fixed text. */
  function ResponseDescription(s: Schema, status: string, statuses: map<string, string>): (r: string)
    ensures s.Node? && s.meta.description.Some? ==> r == s.meta.description.value
    ensures (s.Literal? || s.meta.description.None?) && status in statuses ==> r == statuses[status]
    ensures (s.Literal? || s.meta.description.None?) && status !in statuses ==> r == "Default Response"
  {
    if s.Node? && s.meta.description.Some? then s.meta.description.value
    else if status in statuses then statuses[status]
    else "Default Response"
  }

  /** The loop filling `requestBody.content`: one entry per consumed MIME type. */
  function BodyContent(consumes: seq<string>, body: Schema): (r: map<string, Schema>)
    ensures r.Keys == set c | c in consumes
    ensures forall c <- r :: r[c] == body
    decreases |consumes|
  {
    if consumes == [] then map[]
    else
      var n := |consumes| - 1;
      assert forall c :: c in consumes <==> c in consumes[..n] || c == consumes[n] by {
        assert consumes == consumes[..n] + [consumes[n]];
      }
      BodyContent(consumes[..n], body)[consumes[n] := body]
  }

  /** The inner loop over `produces`: the status entry is reassigned once per MIME type,
      so only the last one survives, and with no MIME type there is no entry. */
  function AssignProduces(prev: map<string, Response>, status: string, s: Schema, description: string,
                          produces: seq<string>): (r: map<string, Response>)
    ensures r == if produces == [] then prev
                 else prev[status := Response(map[produces[|produces| - 1] := s], description)]
    decreases |produces|
  {
    if produces == [] then prev
    else
      var n := |produces| - 1;
      AssignProduces(prev, status, s, description, produces[..n])[status := Response(map[produces[n] := s], description)]
  }

  /** The outer loop over `Object.entries(schema.response)`. */
  function ResponsesFrom(isUrl: string -> bool, statuses: map<string, string>, entries: seq<(string, Schema)>,
                         produces: seq<string>): (r: map<string, Response>)
    ensures produces == [] ==> r == map[]
    ensures produces != [] ==> r.Keys == set e | e in entries :: e.0
    ensures forall status <- r :: r[status].content.Keys == {produces[|produces| - 1]}
    decreases |entries|
  {
    if entries == [] then map[]
    else
      var n := |entries| - 1;
      assert entries == entries[..n] + [entries[n]];
      var s := UpdateReferences(isUrl, entries[n].1);
      AssignProduces(ResponsesFrom(isUrl, statuses, entries[..n], produces), entries[n].0, s,
                     ResponseDescription(s, entries[n].0, statuses), produces)
  }

  /** The operation object for a present route schema, given its `operationId`. */
  function OperationFor(isUrl: string -> bool, statuses: map<string, string>, rs: RouteSchema, operationId: string): Operation
  {
    var consumes := rs.consumes.GetOr(DefaultMediaTypes);
    var produces := rs.produces.GetOr(DefaultMediaTypes);
    var parameters := ParametersOf(isUrl, rs.querystring, Query) + ParametersOf(isUrl, rs.params, Path)
                      + ParametersOf(isUrl, rs.headers, Header) + ParametersOf(isUrl, rs.cookies, Cookie);
    var requestBody :=
      if rs.body.Some? && Truthy(rs.body.value) then Some(BodyContent(consumes, UpdateReferences(isUrl, rs.body.value)))
      else None;
    var responses :=
      if rs.response.Some? then Some(ResponsesFrom(isUrl, statuses, rs.response.value, produces)) else None;
    Operation(Some(operationId), rs.summary, rs.tags, rs.description, rs.externalDocs, Some(parameters),
              requestBody, rs.deprecated, rs.security, responses)
  }

  /** `prepareSchemaOperation`. The route schema is a value, so the source's deep copy
      before rewriting is implicit: the caller's schema cannot change. */
  method PrepareSchemaOperation(routeSchema: Option<RouteSchema>, slugger: Slugger, isUrl: string -> bool,
                                statuses: map<string, string>) returns (op: Operation)
    modifies slugger
    ensures routeSchema.None? ==> op == EmptyOperation && slugger.requests == old(slugger.requests)
    ensures routeSchema.Some? && routeSchema.value.operationId.Some? ==>
      op == OperationFor(isUrl, statuses, routeSchema.value, routeSchema.value.operationId.value)
      && slugger.requests == old(slugger.requests)
    ensures routeSchema.Some? && routeSchema.value.operationId.None? ==>
      op == OperationFor(isUrl, statuses, routeSchema.value,
                         slugger.slugOf(old(slugger.requests), SlugLabel(routeSchema.value)))
      && slugger.requests == old(slugger.requests) + [SlugLabel(routeSchema.value)]
  {
    op := EmptyOperation;
    if routeSchema.None? {
      return;
    }
    var schema := routeSchema.value;
    var operationId;
    if schema.operationId.Some? {
      operationId := schema.operationId.value;
    } else {
      operationId := slugger.Slug(schema.summary.GetOr("operation"));
    }
    var consumes := schema.consumes.GetOr(DefaultMediaTypes);
    var produces := schema.produces.GetOr(DefaultMediaTypes);
    var parameters := [];
    parameters := MapParameters(parameters, schema.querystring, Query, isUrl);
    assert parameters == ParametersOf(isUrl, schema.querystring, Query);
    parameters := MapParameters(parameters, schema.params, Path, isUrl);
    parameters := MapParameters(parameters, schema.headers, Header, isUrl);
    parameters := MapParameters(parameters, schema.cookies, Cookie, isUrl);
    var requestBody := None;
    if schema.body.Some? && Truthy(schema.body.value) {
      var content := FillBodyContent(consumes, UpdateReferences(isUrl, schema.body.value));
      requestBody := Some(content);
    }
    var responses := None;
    if schema.response.Some? {
      var result := FillResponses(isUrl, statuses, schema.response.value, produces);
      responses := Some(result);
    }
    op := Operation(Some(operationId), schema.summary, schema.tags, schema.description, schema.externalDocs,
                    Some(parameters), requestBody, schema.deprecated, schema.security, responses);
  }

  /** The loop over `consumes` that fills `requestBody.content`. */
  method FillBodyContent(consumes: seq<string>, paramSchema: Schema) returns (content: map<string, Schema>)
    ensures content == BodyContent(consumes, paramSchema)
  {
    content := map[];
    for i := 0 to |consumes|
      invariant content == BodyContent(consumes[..i], paramSchema)
    {
      assert consumes[..i + 1][..i] == consumes[..i];
      content := content[consumes[i] := paramSchema];
    }
    assert consumes[..|consumes|] == consumes;
  }

  /** The nested loops over the declared responses and the `produces` MIME types. */
  method FillResponses(isUrl: string -> bool, statuses: map<string, string>, entries: seq<(string, Schema)>,
                       produces: seq<string>) returns (result: map<string, Response>)
    ensures result == ResponsesFrom(isUrl, statuses, entries, produces)
  {
    result := map[];
    for i := 0 to |entries|
      invariant result == ResponsesFrom(isUrl, statuses, entries[..i], produces)
    {
      assert entries[..i + 1][..i] == entries[..i];
      var (status, resSchema) := entries[i];
      var s := UpdateReferences(isUrl, resSchema);
      var description := ResponseDescription(s, status, statuses);
      ghost var before := result;
      for j := 0 to |produces|
        invariant result == AssignProduces(before, status, s, description, produces[..j])
      {
        assert produces[..j + 1][..j] == produces[..j];
        result := result[status := Response(map[produces[j] := s], description)];
      }
      assert produces[..|produces|] == produces;
    }
    assert entries[..|entries|] == entries;
  }

  // ----- Properties of the operation object -----

  /** The operation object: the given `operationId`; the documentation fields copied
      verbatim; parameters in query, path, header, cookie order; a body entry per consumed
      MIME type exactly when the body is truthy; responses exactly when declared. */
  lemma OperationShape(isUrl: string -> bool, statuses: map<string, string>, rs: RouteSchema, operationId: string)
    ensures var op := OperationFor(isUrl, statuses, rs, operationId);
      op.operationId == Some(operationId)
    ensures var op := OperationFor(isUrl, statuses, rs, operationId);
      && op.summary == rs.summary && op.tags == rs.tags && op.description == rs.description
      && op.externalDocs == rs.externalDocs && op.deprecated == rs.deprecated && op.security == rs.security
    ensures var op := OperationFor(isUrl, statuses, rs, operationId);
      op.parameters == Some(ParametersOf(isUrl, rs.querystring, Query) + ParametersOf(isUrl, rs.params, Path)
                            + ParametersOf(isUrl, rs.headers, Header) + ParametersOf(isUrl, rs.cookies, Cookie))
    ensures var op := OperationFor(isUrl, statuses, rs, operationId);
      op.requestBody.Some? <==> rs.body.Some? && Truthy(rs.body.value)
    ensures var op := OperationFor(isUrl, statuses, rs, operationId);
      op.requestBody.Some? ==>
      && op.requestBody.value.Keys == (set c | c in rs.consumes.GetOr(DefaultMediaTypes))
      && forall c <- op.requestBody.value :: op.requestBody.value[c] == UpdateReferences(isUrl, rs.body.value)
    ensures var op := OperationFor(isUrl, statuses, rs, operationId);
      op.responses.Some? <==> rs.response.Some?
  {
  }

  /** With no `produces` declared, each declared status gets exactly one media type entry,
      `application/json`. */
  lemma DefaultResponses(isUrl: string -> bool, statuses: map<string, string>, rs: RouteSchema, operationId: string, status: string)
    requires rs.produces.None? && rs.response.Some?
    requires exists e :: e in rs.response.value && e.0 == status
    ensures var op := OperationFor(isUrl, statuses, rs, operationId);
      status in op.responses.value && op.responses.value[status].content.Keys == {"application/json"}
  {
  }

  /** An empty `produces` leaves every declared status without a response entry. */
  lemma EmptyProducesDropsResponses(isUrl: string -> bool, statuses: map<string, string>, rs: RouteSchema, operationId: string)
    requires rs.produces == Some([]) && rs.response.Some?
    ensures OperationFor(isUrl, statuses, rs, operationId).responses == Some(map[])
  {
  }

  /** The response a status ends up with: its last declaration's schema, references
      rewritten, under the last MIME type of `produces`, with the description chain of
      `ResponseDescription`. */
  lemma {:induction false} ResponseOfStatus(isUrl: string -> bool, statuses: map<string, string>,
                                           entries: seq<(string, Schema)>, produces: seq<string>, i: nat)
    requires i < |entries| && produces != []
    requires forall j | i < j < |entries| :: entries[j].0 != entries[i].0
    ensures var s := UpdateReferences(isUrl, entries[i].1);
      ResponsesFrom(isUrl, statuses, entries, produces)[entries[i].0]
        == Response(map[produces[|produces| - 1] := s], ResponseDescription(s, entries[i].0, statuses))
    decreases |entries|
  {
    var n := |entries| - 1;
    var prev := ResponsesFrom(isUrl, statuses, entries[..n], produces);
    var s := UpdateReferences(isUrl, entries[n].1);
    var last := Response(map[produces[|produces| - 1] := s], ResponseDescription(s, entries[n].0, statuses));
    assert ResponsesFrom(isUrl, statuses, entries, produces) == prev[entries[n].0 := last];
    if i < n {
      assert entries[..n][i] == entries[i];
      forall j | i < j < n
        ensures entries[..n][j].0 != entries[..n][i].0
      {
        assert entries[..n][j] == entries[j];
      }
      ResponseOfStatus(isUrl, statuses, entries[..n], produces, i);
    }
  }

  /** Every response schema is in final reference form. */
  lemma {:induction false} ResponseReferencesFinal(isUrl: string -> bool, statuses: map<string, string>,
                                                  entries: seq<(string, Schema)>, produces: seq<string>,
                                                  status: string, t: string)
    requires status in ResponsesFrom(isUrl, statuses, entries, produces)
    requires t in ResponsesFrom(isUrl, statuses, entries, produces)[status].content
    ensures var v := ResponsesFrom(isUrl, statuses, entries, produces)[status].content[t];
      UpdateReferences(isUrl, v) == v
    decreases |entries|
  {
    assert entries != [] && produces != [];
    var n := |entries| - 1;
    var r := ResponsesFrom(isUrl, statuses, entries, produces);
    var prev := ResponsesFrom(isUrl, statuses, entries[..n], produces);
    var s := UpdateReferences(isUrl, entries[n].1);
    var key := entries[n].0;
    assert r == prev[key := Response(map[produces[|produces| - 1] := s], ResponseDescription(s, key, statuses))];
    if status == key {
      UpdateReferencesIdempotent(isUrl, entries[n].1);
    } else {
      ResponseReferencesFinal(isUrl, statuses, entries[..n], produces, status, t);
    }
  }

  /** The body's references are in final form in every media type entry. */
  lemma BodyReferencesFinal(isUrl: string -> bool, statuses: map<string, string>, rs: RouteSchema, operationId: string)
    requires OperationFor(isUrl, statuses, rs, operationId).requestBody.Some?
    ensures var content := OperationFor(isUrl, statuses, rs, operationId).requestBody.value;
      forall c <- content :: UpdateReferences(isUrl, content[c]) == content[c]
  {
    UpdateReferencesIdempotent(isUrl, rs.body.value);
  }
}
