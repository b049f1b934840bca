/** The route hook: which registered routes are kept for the document, and how. */
module RouteRecorder {
  import opened Wrappers
  import opened Routes

  const HeadSuffix := "-head"

  /** The hook compares `method` with the string "HEAD"; a list of methods never matches. */
  predicate IsHead(route: Route) {
    route.methods == One("HEAD")
  }

  /** Whether the hook keeps the route at all. */
  function ShouldRecord(route: Route, exposeHeadRoutes: bool): (r: bool)
    ensures r <==> !route.config.hide && (!IsHead(route) || exposeHeadRoutes || route.config.exposeHeadRoute)
  {
    if IsHead(route) && !exposeHeadRoutes && !route.config.exposeHeadRoute then false
    else if route.config.hide then false
    else true
  }

  /** The record kept for a route: a HEAD route with an `operationId` gets it suffixed. */
  function Recorded(route: Route): (r: Route)
    ensures r.methods == route.methods && r.url == route.url && r.config == route.config
    ensures r.schema.Some? == route.schema.Some?
    ensures r.schema.Some? ==> r.schema.value.(operationId := route.schema.value.operationId) == route.schema.value
    ensures IsHead(route) && route.schema.Some? && route.schema.value.operationId.Some? ==>
      r.schema.value.operationId == Some(route.schema.value.operationId.value + HeadSuffix)
    ensures !(IsHead(route) && route.schema.Some? && route.schema.value.operationId.Some?) ==> r == route
  {
    if IsHead(route) && route.schema.Some? && route.schema.value.operationId.Some? then
      var schema := route.schema.value;
      route.(schema := Some(schema.(operationId := Some(schema.operationId.value + HeadSuffix))))
    else route
  }

  /** The recorded list after the hook runs for `route`: at most one record appended. */
  function RecordRoute(records: seq<Route>, route: Route, exposeHeadRoutes: bool): (r: seq<Route>)
    ensures |records| <= |r| <= |records| + 1 && r[..|records|] == records
    ensures |r| == |records| + 1 <==> ShouldRecord(route, exposeHeadRoutes)
    ensures ShouldRecord(route, exposeHeadRoutes) ==> r == records + [Recorded(route)]
    ensures !ShouldRecord(route, exposeHeadRoutes) ==> r == records
  {
    if ShouldRecord(route, exposeHeadRoutes) then records + [Recorded(route)] else records
  }

  /** With the default settings a HEAD route is dropped unless it opts in itself. */
  lemma HeadHiddenByDefault(route: Route)
    requires IsHead(route) && !route.config.exposeHeadRoute
    ensures RecordRoute([], route, false) == []
  {
  }

  /** A HEAD route's `operationId` cannot collide with the GET route it shadows. */
  lemma HeadOperationIdDiffers(route: Route)
    requires IsHead(route) && route.schema.Some? && route.schema.value.operationId.Some?
    ensures Recorded(route).schema.value.operationId != route.schema.value.operationId
  {
    var id := route.schema.value.operationId.value;
    assert |id + HeadSuffix| == |id| + 5;
  }
}
