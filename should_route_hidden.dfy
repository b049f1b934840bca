/** `shouldRouteHide`: whether a route is left out of the document for lack of tags. */
module Visibility {
  import opened Wrappers
  import opened Routes

  /** The route's tags; an absent schema or absent `tags` reads as the empty list. */
  function TagsOf(schema: Option<RouteSchema>): seq<string> {
    if schema.Some? && schema.value.tags.Some? then schema.value.tags.value else []
  }

  function ShouldRouteHide(schema: Option<RouteSchema>, hideUntagged: bool): (r: bool)
    ensures r <==> hideUntagged && (schema.None? || schema.value.tags.None? || schema.value.tags.value == [])
  {
    |TagsOf(schema)| == 0 && hideUntagged
  }

  /** A route with at least one tag is never hidden. */
  lemma TaggedNeverHidden(schema: Option<RouteSchema>, hideUntagged: bool)
    requires TagsOf(schema) != []
    ensures !ShouldRouteHide(schema, hideUntagged)
  {
  }

  /** With the option off, nothing is hidden. */
  lemma NothingHiddenByDefault(schema: Option<RouteSchema>)
    ensures !ShouldRouteHide(schema, false)
  {
  }
}
