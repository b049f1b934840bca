/** What the web framework hands over for each registered route. */
module Routes {
  import opened Wrappers
  import opened Schemas

  /** The declarative schema of one route, with the documentation fields the
      framework's schema type is extended with. `response` is in `Object.entries` order. */
  datatype RouteSchema = RouteSchema(
    operationId: Option<string>,
    summary: Option<string>,
    description: Option<string>,
    tags: Option<seq<string>>,
    deprecated: Option<bool>,
    externalDocs: Option<Value>,
    security: Option<Value>,
    consumes: Option<seq<string>>,
    produces: Option<seq<string>>,
    querystring: Option<Schema>,
    params: Option<Schema>,
    headers: Option<Schema>,
    cookies: Option<Schema>,
    body: Option<Schema>,
    response: Option<seq<(string, Schema)>>)

  /** A route's `method`: one name, or a list of names. */
  datatype Methods = One(name: string) | Many(names: seq<string>)

  /** The route's `config.openapi` block; an absent block or flag reads as `false`. */
  datatype RouteConfig = RouteConfig(exposeHeadRoute: bool, hide: bool)

  datatype Route = Route(methods: Methods, url: string, schema: Option<RouteSchema>, config: RouteConfig)

  function MethodList(m: Methods): seq<string> {
    match m
    case One(name) => [name]
    case Many(names) => names
  }
}
