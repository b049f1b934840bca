/** The document assembler: the routes the hook recorded, the ready flag, the cached
    document, and `openapi()`, which builds the document once and then serves the cache. */
module Assembler {
  import opened Wrappers
  import opened Strings
  import opened Schemas
  import opened Routes
  import opened ParamUrl
  import opened Visibility
  import opened Operations
  import opened BaseDocument
  import opened RouteRecorder
  import opened Slugs

  /** The methods a path item has a slot for; any other method is ignored. */
  const OperationMethods: set<string> := {"delete", "get", "head", "options", "patch", "post", "put"}

  const NotReadyError := "openapi() can only be called after the application is ready."

  /** What the assembly needs besides the routes: the hide option, the URL test, the
      status phrases and the slugging algorithm. */
  datatype Settings = Settings(
    hideUntagged: bool,
    isUrl: string -> bool,
    statuses: map<string, string>,
    slugOf: (seq<string>, string) -> string)

  /** The operation for one route and the slug history after building it. */
  function OperationWithSlug(s: Settings, schema: Option<RouteSchema>, history: seq<string>): (Operation, seq<string>) {
    if schema.None? then (EmptyOperation, history)
    else if schema.value.operationId.Some? then
      (OperationFor(s.isUrl, s.statuses, schema.value, schema.value.operationId.value), history)
    else
      var text := SlugLabel(schema.value);
      (OperationFor(s.isUrl, s.statuses, schema.value, s.slugOf(history, text)), history + [text])
  }

  /** The loop over a route's methods: each recognised lower-cased method gets the operation. */
  function PutMethods(item: PathItem, methods: seq<string>, op: Operation): (r: PathItem)
    ensures forall m <- r :: m in item || (m in OperationMethods && r[m] == op)
    ensures forall m <- item :: m in r
    ensures forall i :: 0 <= i < |methods| && Lower(methods[i]) in OperationMethods ==>
      Lower(methods[i]) in r && r[Lower(methods[i])] == op
    ensures forall m <- item :: (forall i :: 0 <= i < |methods| ==> Lower(methods[i]) != m) ==> r[m] == item[m]
    decreases |methods|
  {
    if methods == [] then item
    else
      var n := |methods| - 1;
      var prev := PutMethods(item, methods[..n], op);
      assert forall i :: 0 <= i < n ==> methods[..n][i] == methods[i];
      var m := Lower(methods[n]);
      if m in OperationMethods then prev[m := op] else prev
  }

  /** One iteration of the route loop. */
  function RouteStep(s: Settings, paths: map<string, PathItem>, route: Route, history: seq<string>)
    : (map<string, PathItem>, seq<string>)
  {
    if ShouldRouteHide(route.schema, s.hideUntagged) then (paths, history)
    else
      var url := Translate(route.url);
      var item := if url in paths then paths[url] else map[];
      var built := OperationWithSlug(s, route.schema, history);
      (paths[url := PutMethods(item, MethodList(route.methods), built.0)], built.1)
  }

  /** The route loop, in registration order, from the initial paths and slug history. */
  function AssemblePaths(s: Settings, paths: map<string, PathItem>, routes: seq<Route>, history: seq<string>)
    : (r: (map<string, PathItem>, seq<string>))
    ensures forall url <- paths :: url in r.0
    ensures forall i :: 0 <= i < |routes| && !ShouldRouteHide(routes[i].schema, s.hideUntagged) ==> Translate(routes[i].url) in r.0
    decreases |routes|
  {
    if routes == [] then (paths, history)
    else
      var n := |routes| - 1;
      assert forall i :: 0 <= i < n ==> routes[..n][i] == routes[i];
      var prev := AssemblePaths(s, paths, routes[..n], history);
      RouteStep(s, prev.0, routes[n], prev.1)
  }

  // ----- Properties of the route loop -----

  /** A hidden route changes neither the paths nor the slug history. */
  lemma HiddenRouteAddsNothing(s: Settings, paths: map<string, PathItem>, route: Route, history: seq<string>)
    requires ShouldRouteHide(route.schema, s.hideUntagged)
    ensures RouteStep(s, paths, route, history) == (paths, history)
  {
  }

  /** A visible route writes its formatted path key and nothing else. Under that key, the
      methods it declares get its one operation, methods it does not declare keep what an
      earlier route or the caller put there, and nothing but the seven operation methods
      is added. */
  lemma RouteStepMerges(s: Settings, paths: map<string, PathItem>, route: Route, history: seq<string>)
    requires !ShouldRouteHide(route.schema, s.hideUntagged)
    ensures var url := Translate(route.url);
      var r := RouteStep(s, paths, route, history).0;
      && r.Keys == paths.Keys + {url}
      && (forall other <- paths :: other != url ==> r[other] == paths[other])
    ensures var url := Translate(route.url);
      var r := RouteStep(s, paths, route, history).0;
      var op := OperationWithSlug(s, route.schema, history).0;
      var ms := MethodList(route.methods);
      && (forall i :: 0 <= i < |ms| && Lower(ms[i]) in OperationMethods ==> r[url][Lower(ms[i])] == op)
      && (url in paths ==> forall m <- paths[url] :: (forall i :: 0 <= i < |ms| ==> Lower(ms[i]) != m) ==> r[url][m] == paths[url][m])
      && (forall m <- r[url] :: (url in paths && m in paths[url]) || m in OperationMethods)
  {
  }

  /** Paths come only from the caller or from visible routes. */
  lemma {:induction false} AssembledKeys(s: Settings, paths: map<string, PathItem>, routes: seq<Route>, history: seq<string>)
    ensures forall url <- AssemblePaths(s, paths, routes, history).0 ::
      url in paths || exists i :: 0 <= i < |routes| && !ShouldRouteHide(routes[i].schema, s.hideUntagged) && url == Translate(routes[i].url)
    decreases |routes|
  {
    if routes != [] {
      var n := |routes| - 1;
      AssembledKeys(s, paths, routes[..n], history);
      var prev := AssemblePaths(s, paths, routes[..n], history);
      forall url <- AssemblePaths(s, paths, routes, history).0
        ensures url in paths || exists i :: 0 <= i < |routes| && !ShouldRouteHide(routes[i].schema, s.hideUntagged) && url == Translate(routes[i].url)
      {
        if url !in prev.0 {
          assert !ShouldRouteHide(routes[n].schema, s.hideUntagged) && url == Translate(routes[n].url);
        } else if url !in paths {
          var i :| 0 <= i < n && !ShouldRouteHide(routes[..n][i].schema, s.hideUntagged) && url == Translate(routes[..n][i].url);
          assert routes[..n][i] == routes[i];
        }
      }
    }
  }

  /** The slug history only grows, by one label per visible route without an `operationId`. */
  lemma {:induction false} HistoryGrows(s: Settings, paths: map<string, PathItem>, routes: seq<Route>, history: seq<string>)
    ensures var h := AssemblePaths(s, paths, routes, history).1;
      |history| <= |h| <= |history| + |routes| && h[..|history|] == history
    decreases |routes|
  {
    if routes != [] {
      var n := |routes| - 1;
      HistoryGrows(s, paths, routes[..n], history);
      var prev := AssemblePaths(s, paths, routes[..n], history);
      var h := AssemblePaths(s, paths, routes, history).1;
      assert h == prev.1 || h == prev.1 + [SlugLabel(routes[n].schema.value)];
    }
  }

  class Assembler {
    const exposeHeadRoutes: bool
    const settings: Settings
    const base: OpenApiBase
    const slugger: Slugger
    /** The routes recorded by the hook, in registration order. */
    var routes: seq<Route>
    var ready: bool
    var cached: Option<Document>

    constructor (exposeHeadRoutes: bool, settings: Settings, base: OpenApiBase)
      ensures this.exposeHeadRoutes == exposeHeadRoutes && this.settings == settings && this.base == base
      ensures fresh(slugger) && slugger.slugOf == settings.slugOf && slugger.requests == []
      ensures routes == [] && !ready && cached.None?
    {
      this.exposeHeadRoutes := exposeHeadRoutes;
      this.settings := settings;
      this.base := base;
      slugger := new Slugger(settings.slugOf);
      routes := [];
      ready := false;
      cached := None;
    }

    /** The route hook. */
    method OnRoute(route: Route)
      modifies this
      ensures routes == RecordRoute(old(routes), route, exposeHeadRoutes)
      ensures ready == old(ready) && cached == old(cached)
    {
      if IsHead(route) && !exposeHeadRoutes && !route.config.exposeHeadRoute {
        return;
      }
      if route.config.hide {
        return;
      }
      if IsHead(route) && route.schema.Some? && route.schema.value.operationId.Some? {
        var schema := route.schema.value;
        routes := routes + [route.(schema := Some(schema.(operationId := Some(schema.operationId.value + HeadSuffix))))];
        return;
      }
      routes := routes + [route];
    }

    /** The ready hook. */
    method MarkReady()
      modifies this
      ensures ready
      ensures routes == old(routes) && cached == old(cached)
    {
      ready := true;
    }

    /** The loop over a route's methods. */
    static method InsertOperation(item: PathItem, methods: seq<string>, op: Operation) returns (r: PathItem)
      ensures r == PutMethods(item, methods, op)
    {
      r := item;
      for j := 0 to |methods|
        invariant r == PutMethods(item, methods[..j], op)
      {
        assert methods[..j + 1][..j] == methods[..j];
        var m := Lower(methods[j]);
        if m in OperationMethods {
          r := r[m := op];
        }
      }
      assert methods[..|methods|] == methods;
    }

    /** One iteration of the route loop. */
    method AddRoute(paths: map<string, PathItem>, route: Route) returns (r: map<string, PathItem>)
      requires slugger.slugOf == settings.slugOf
      modifies slugger
      ensures (r, slugger.requests) == RouteStep(settings, paths, route, old(slugger.requests))
    {
      r := paths;
      if ShouldRouteHide(route.schema, settings.hideUntagged) {
        return;
      }
      var url := FormatParamUrl(route.url);
      var schemaRoute := if url in paths then paths[url] else map[];
      ghost var built := OperationWithSlug(settings, route.schema, old(slugger.requests));
      var operation := PrepareSchemaOperation(route.schema, slugger, settings.isUrl, settings.statuses);
      assert operation == built.0 && slugger.requests == built.1;
      schemaRoute := InsertOperation(schemaRoute, MethodList(route.methods), operation);
      r := paths[url := schemaRoute];
    }

    /** The loop over the recorded routes, in registration order. */
    method AddRoutes(paths: map<string, PathItem>, all: seq<Route>) returns (r: map<string, PathItem>)
      requires slugger.slugOf == settings.slugOf
      modifies slugger
      ensures (r, slugger.requests) == AssemblePaths(settings, paths, all, old(slugger.requests))
    {
      r := paths;
      for i := 0 to |all|
        invariant (r, slugger.requests) == AssemblePaths(settings, paths, all[..i], old(slugger.requests))
      {
        assert all[..i + 1][..i] == all[..i];
        r := AddRoute(r, all[i]);
      }
      assert all[..|all|] == all;
    }

    /** `openapi()`: an error before the ready hook ran; the cached document once one was
        built; otherwise the document built from the base, the registry and the routes. */
    method OpenApi(registry: map<string, Schema>) returns (r: Result<Document>)
      requires slugger.slugOf == settings.slugOf
      modifies this, slugger
      ensures routes == old(routes) && ready == old(ready)
      ensures !old(ready) ==>
        r == Failure(NotReadyError) && cached == old(cached) && slugger.requests == old(slugger.requests)
      ensures old(ready) && old(cached).Some? ==>
        r == Success(old(cached).value) && cached == old(cached) && slugger.requests == old(slugger.requests)
      ensures old(ready) && old(cached).None? && BaseDocumentOf(base, registry, settings.isUrl).Failure? ==>
        r == Failure(NotAnObjectError) && cached == old(cached) && slugger.requests == old(slugger.requests)
      ensures old(ready) && old(cached).None? && BaseDocumentOf(base, registry, settings.isUrl).Success? ==>
        var doc := BaseDocumentOf(base, registry, settings.isUrl).value;
        var built := AssemblePaths(settings, doc.paths.GetOr(map[]), old(routes), old(slugger.requests));
        && r == Success(doc.(paths := Some(built.0)))
        && cached == Some(r.value)
        && slugger.requests == built.1
    {
      if !ready {
        return Failure(NotReadyError);
      }
      if cached.Some? {
        return Success(cached.value);
      }
      var prepared := PrepareBaseSchema(base, registry, settings.isUrl);
      if prepared.Failure? {
        return Failure(prepared.message);
      }
      var doc := prepared.value;
      var paths := AddRoutes(doc.paths.GetOr(map[]), routes);
      doc := doc.(paths := Some(paths));
      cached := Some(doc);
      r := Success(doc);
    }
  }

  /** The document is built once: after a successful call, the next call returns the
      same document and slugs nothing. */
  method CachedAfterFirstBuild(a: Assembler, registry: map<string, Schema>)
    returns (first: Result<Document>, second: Result<Document>)
    requires a.ready && a.slugger.slugOf == a.settings.slugOf
    modifies a, a.slugger
    ensures first.Success? ==> second == first
  {
    first := a.OpenApi(registry);
    second := a.OpenApi(registry);
  }
}
