# plugin-openapi in Dafny

A verified model of the core of `@jafps/plugin-openapi`, a Fastify plugin that
turns the routes an application registers into one OpenAPI 3.1 document. The
model covers the whole pipeline:

- The route hook decides which routes are recorded, and suffixes the `operationId` of HEAD routes.
- The path translator rewrites Fastify path syntax (`:name`, `::`, `(regex)`, `*`) into OpenAPI brace templates.
- The reference rewriter prefixes bare `$ref` identifiers with `#/components/schemas/`.
- The example mapper, the parameter mapper and the operation builder turn a route schema into an Operation Object.
- The base-document preparer normalises the shared component schemas.
- The document assembler is the `openapi()` function. It is gated on the ready hook, builds the path table once and caches it.

Layout, one module per source file:

| file | module | source |
|---|---|---|
| `wrappers.dfy` | `Wrappers` | `Option` for `undefined`, `Result` for a thrown error |
| `strings.dfy` | `Strings` | decimal rendering, ASCII lower-casing, prefix test |
| `schemas.dfy` | `Schemas` | the schema tree and JSON values, as closed datatypes |
| `routes.dfy` | `Routes` | the route options the framework passes to the hook |
| `format_param_url.dfy` | `ParamUrl` | `src/openapi/format-param-url.ts` |
| `update_references.dfy` | `References` | `src/openapi/update-references.ts` |
| `map_examples.dfy` | `Examples` | `src/openapi/map-examples.ts` |
| `should_route_hidden.dfy` | `Visibility` | `src/openapi/should-route-hidden.ts` |
| `map_parameters.dfy` | `Parameters` | `src/openapi/map-parameters.ts` |
| `slugger.dfy` | `Slugs` | the slug source used for `operationId`s |
| `prepare_schema_operation.dfy` | `Operations` | `src/openapi/prepare-schema-operation.ts` |
| `prepare_base_schema.dfy` | `BaseDocument` | `src/openapi/prepare-base-schema.ts` |
| `on_route.dfy` | `RouteRecorder` | `src/hook/on-route.ts` |
| `assembler.dfy` | `Assembler` | `src/openapi/index.ts`, `src/hook/on-route.ts`, `src/hook/on-ready.ts` |

The loops of the source that build a list, a map or a string step by step are methods
with loop invariants. Each is proved equal to a left fold written as a function (`FormatParamUrl` = `Translate`, `MapParameters` =
`ParametersOf`, `AddRoutes` = `AssemblePaths`, and so on), and the lemmas state what
the source promises about those functions. The loops inside the recursive walk of
`updateReferences` are the exception: see "## Left out". The plugin's state (recorded routes,
ready flag, cached document) is the class `Assembler.Assembler`. The slugger is the
class `Slugs.Slugger`.

Behaviour of the code that the lemmas pin down:

- src/openapi/format-param-url.ts:39-43 names an anonymous group `regexp<N>`. The counter `N` is a local of each call (line 10) and counts from 1, so every path starts again at `regexp1`.
- src/openapi/format-param-url.ts:21-27 appends the character that ends a colon name as is, without scanning it again. So `:a:b` becomes `{a}:b`.
- src/openapi/format-param-url.ts:72-74 flushes only an open colon name with at least one character. An unterminated `(` group therefore contributes nothing.
- src/openapi/prepare-schema-operation.ts:43-48 reassigns each response status once per `produces` MIME type. Its `content` therefore holds only the last type, and an empty `produces` leaves the status out.
- src/openapi/should-route-hidden.ts:10-17 hides a route only when it has no tags and `hideUntagged` is set. The `hide` flag is handled by the route hook. There is no hidden-tag rule, although the unit tests of `shouldRouteHide` assert one.

## Model

| member | source | states |
|---|---|---|
| ParamUrl.NameAlphabetIsNameChars | src/openapi/format-param-url.ts:1 | a character is in the `COLON` alphabet iff it is an ASCII letter, digit or `_` |
| ParamUrl.FormatParamUrl | src/openapi/format-param-url.ts:2-76 | the imperative three-state scan returns exactly `Translate(str)`, the scan written as a function of its state |
| ParamUrl.PlainPathUnchanged | src/openapi/format-param-url.ts:65-66 | a path with no `:`, `(` or `*` is returned unchanged |
| ParamUrl.RunPlainThen | src/openapi/format-param-url.ts:48-68 | a plain prefix is copied verbatim, and the rest is scanned from the same state |
| ParamUrl.DoubleColonIsLiteral | src/openapi/format-param-url.ts:50-54 | `::` emits one literal `:`, consumes both characters and starts no parameter |
| ParamUrl.StarIsWildcard | src/openapi/format-param-url.ts:61-64 | `*` in the default state becomes `{*}` |
| ParamUrl.ColonParameter | src/openapi/format-param-url.ts:14-28 | `:name` followed by a character outside the alphabet (not `(`) becomes `{name}`, and that character is appended as is, not scanned again |
| ParamUrl.TrailingColonParameter | src/openapi/format-param-url.ts:72-74 | at end of input a non-empty colon name is flushed as `{name}`; a bare trailing `:` yields nothing |
| ParamUrl.UnterminatedGroup | src/openapi/format-param-url.ts:30-47 | an unterminated `(` group contributes nothing to the path |
| ParamUrl.AnonymousGroup | src/openapi/format-param-url.ts:30-45 | a balanced anonymous group becomes `{regexp<k+1>}` and increments the counter |
| ParamUrl.NamedGroup | src/openapi/format-param-url.ts:18-20 | `:name(body)` with balanced nested parentheses becomes `{name}`; the body is dropped and the counter is not used |
| ParamUrl.TwoAnonymousGroups | src/openapi/format-param-url.ts:30-45 | two anonymous groups separated by plain text become `{regexp1}` and `{regexp2}` around that text |
| ParamUrl.AnonymousGroupsNumberedFromOne | src/openapi/format-param-url.ts:10 | two anonymous groups in one path become `{regexp1}` and `{regexp2}`: the counter starts at 1 on every call |
| ParamUrl.ColonParameterBetween | src/openapi/format-param-url.ts:14-28 | a colon parameter between plain segments becomes `{name}`, with the ending character and the rest copied |
| ParamUrl.ColonParameterExample | src/openapi/format-param-url.ts:14-28 | `/users/:id/x` translates to `/users/{id}/x` |
| Strings.DecimalRoundTrip | src/openapi/format-param-url.ts:41 | `String(n)` renders `n` in decimal: reading the digits back gives `n` |
| Strings.NatToStringInjective | src/openapi/map-examples.ts:22 | distinct indices render to distinct strings |
| References.RewriteRef | src/openapi/update-references.ts:17-35 | a `$ref` changes iff it is a valid bare identifier (non-empty, not a URL, no leading `#`, no `/`), and then becomes `#/components/schemas/<ref>`; the result is never a bare identifier |
| References.UpdateReferences | src/openapi/update-references.ts:28-70 | first-match dispatch: non-objects are unchanged; a `$ref` node changes only its `$ref`; an `items` node only its items; a `properties` node only its properties, never its `anyOf`/`allOf`; annotations are kept |
| References.UpdateReferencesIdempotent | src/openapi/update-references.ts:21-34 | a second rewrite changes nothing |
| References.UpdateChangesOnlyRefs | src/openapi/update-references.ts:32-69 | with every `$ref` string blanked out, the rewritten tree equals the input: only `$ref` strings change |
| References.UpdateRewritesVisitedRefs | src/openapi/update-references.ts:38-69 | every reference the walk reaches (single and tuple `items`, every property, every `anyOf`/`allOf` branch) is passed through `RewriteRef`, in order |
| References.NoBareReferenceRemains | src/openapi/update-references.ts:32-35 | after the rewrite no reachable `$ref` is a bare identifier |
| References.RewriteExamples | src/openapi/__tests__/update-references.spec.ts:7-89 | `a` becomes `#/components/schemas/a`; empty, slash-containing and `#`-prefixed references stay |
| Examples.Collect | src/openapi/map-examples.ts:18-24 | the `reduce` yields exactly the keys `Example 0` … `Example <n-1>`, one per element, all sharing description and summary |
| Examples.CollectEntry | src/openapi/map-examples.ts:18-24 | entry `Example <i>` holds element `i` |
| Examples.MapExamples | src/openapi/map-examples.ts:9-25 | no result iff `examples` is missing, not an array or empty; the key count equals the element count; one element gives the single key `Example`; every entry has the schema's description and its title as summary |
| Examples.MultipleExamples | src/openapi/map-examples.ts:18-24 | for two or more elements the keys are `Example 0` … `Example <n-1>` and entry `i` holds element `i` |
| Examples.MultipleExampleKeys | src/openapi/__tests__/map-examples.spec.ts:26-33 | every key of a multi-element result starts with `Example ` |
| Visibility.ShouldRouteHide | src/openapi/should-route-hidden.ts:10-17 | hidden iff `hideUntagged` and the schema, or its tags, are absent or empty |
| Visibility.TaggedNeverHidden | src/openapi/should-route-hidden.ts:12-16 | a route with at least one tag is never hidden |
| Visibility.NothingHiddenByDefault | src/openapi/should-route-hidden.ts:13-16 | with `hideUntagged` false nothing is hidden |
| Parameters.StripAnnotations | src/openapi/map-parameters.ts:31 | removes exactly `deprecated`, `description`, `examples`, `explode` and `title`; every other keyword is kept |
| Parameters.ParameterFor | src/openapi/map-parameters.ts:27-59 | a property yields a parameter iff it is a schema object; `name` is the key and `in` the location; `required` is true for `path`, else iff not optional; `deprecated`, `description` and `explode` are copied; `examples` is `mapExamples` of the property |
| Parameters.RefParameterSchema | src/openapi/map-parameters.ts:33-35 | a reference property's schema is exactly `{ $ref }`, with the ref rewritten |
| Parameters.InlineParameterSchema | src/openapi/map-parameters.ts:46-48 | any other property's schema is the stripped property with only `$ref` strings changed, already in final form |
| Parameters.ParametersOf | src/openapi/map-parameters.ts:23-25 | nothing is appended unless the schema is an object with properties |
| Parameters.MapParameters | src/openapi/map-parameters.ts:21-61 | the list only grows: it is the old list followed by `ParametersOf` the schema |
| Parameters.PushParameter | src/openapi/map-parameters.ts:27-59 | one iteration of the property loop extends the list from the parameters of the first `i` properties to those of the first `i + 1` |
| Parameters.FromEntriesStep | src/openapi/map-parameters.ts:26-60 | one more property appends exactly the parameter it yields, if any |
| Parameters.FromEntriesAppend | src/openapi/map-parameters.ts:26 | properties are handled one after another, in property order |
| Parameters.FromEntriesSound | src/openapi/map-parameters.ts:26-60 | at most one parameter per property, exactly one per property when every property is a schema object; each has `in` equal to the location and the name of a schema-valued property |
| Parameters.FromEntriesComplete | src/openapi/map-parameters.ts:36-58 | every schema-valued property yields its parameter |
| Slugs.Slugger.constructor | src/openapi/index.ts:19 | a new slugger has slugged nothing |
| Slugs.Slugger.Slug | src/openapi/prepare-schema-operation.ts:15 | the slug is a function of the texts slugged so far and the new text, and the text is added to the history |
| Operations.ResponseDescription | src/openapi/prepare-schema-operation.ts:46 | the schema's own description, else the status phrase, else `Default Response` |
| Operations.BodyContent | src/openapi/prepare-schema-operation.ts:32-34 | one content entry per consumed MIME type, each holding the body schema |
| Operations.AssignProduces | src/openapi/prepare-schema-operation.ts:43-47 | the status entry is reassigned once per MIME type, so only the last MIME type survives; with none, the map is unchanged |
| Operations.ResponsesFrom | src/openapi/prepare-schema-operation.ts:41-49 | with an empty `produces` no status gets an entry; otherwise every declared status does, each with one media type, the last one |
| Operations.OperationShape | src/openapi/prepare-schema-operation.ts:15-50 | the given `operationId`; `summary`, `tags`, `description`, `externalDocs`, `deprecated` and `security` copied; parameters in query, path, header, cookie order; a request body iff the body is truthy, keyed by the consumed MIME types (default `application/json`), each holding the rewritten body; responses iff declared |
| Operations.PrepareSchemaOperation | src/openapi/prepare-schema-operation.ts:8-52 | an absent schema gives the empty operation and slugs nothing; an explicit `operationId` is used and slugs nothing; otherwise the summary (or `operation`) is slugged once and the slug becomes the `operationId` |
| Operations.FillBodyContent | src/openapi/prepare-schema-operation.ts:30-35 | the consumes loop builds `BodyContent` |
| Operations.FillResponses | src/openapi/prepare-schema-operation.ts:40-49 | the nested response and produces loops build `ResponsesFrom` |
| Operations.DefaultResponses | src/openapi/prepare-schema-operation.ts:22-48 | without `produces` each declared status has exactly the `application/json` media type |
| Operations.EmptyProducesDropsResponses | src/openapi/prepare-schema-operation.ts:40-48 | an empty `produces` leaves `responses` empty |
| Operations.ResponseOfStatus | src/openapi/prepare-schema-operation.ts:41-48 | a status ends up with the response of its last declaration: the schema with references rewritten, under the last `produces` type, described by `ResponseDescription` |
| Operations.ResponseReferencesFinal | src/openapi/prepare-schema-operation.ts:44-45 | every response schema, in every media type entry, is already in final reference form |
| Operations.BodyReferencesFinal | src/openapi/prepare-schema-operation.ts:28-29 | the body schema in every media type entry is already in final reference form |
| BaseDocument.Normalize | src/openapi/prepare-base-schema.ts:109-112 | a component schema loses its `$id`, changes only in `$ref` strings, and is in final reference form |
| BaseDocument.NormalizeAllIdempotent | src/openapi/prepare-base-schema.ts:108-113 | preparing already prepared components changes nothing |
| BaseDocument.BaseDocumentShape | src/openapi/prepare-base-schema.ts:104-127 | fails iff a component schema is not an object; otherwise `openapi` is `3.1.0`, `schemas` are the prepared caller's schemas or else the registry, and every other field passes through |
| BaseDocument.PreparedComponents | src/openapi/prepare-base-schema.ts:108-112 | no prepared component schema has a top-level `$id`, and each is in final reference form |
| BaseDocument.PrepareBaseSchema | src/openapi/prepare-base-schema.ts:104-127 | the loop over the component schemas returns `BaseDocumentOf` |
| BaseDocument.ComponentReferenceExample | src/__tests__/index.spec.ts:11-19 | component `b`'s property referencing `d` ends up as `#/components/schemas/d` |
| RouteRecorder.ShouldRecord | src/hook/on-route.ts:13-18 | recorded iff not `hide`, and not HEAD unless `exposeHeadRoutes` or the route's `exposeHeadRoute` is set |
| RouteRecorder.Recorded | src/hook/on-route.ts:19-32 | a HEAD route with an `operationId` is kept with `operationId + "-head"` and nothing else changed; every other route is kept unchanged |
| RouteRecorder.RecordRoute | src/hook/on-route.ts:13-32 | a route passing `ShouldRecord` appends exactly `Recorded(route)` (the `-head` rewrite); any other route leaves the list unchanged |
| RouteRecorder.HeadHiddenByDefault | src/hook/on-route.ts:13-15 | with the defaults a HEAD route that does not opt in is not recorded |
| RouteRecorder.HeadOperationIdDiffers | src/hook/on-route.ts:19-31 | the suffixed `operationId` differs from the original one |
| Assembler.PutMethods | src/openapi/index.ts:39-51 | only the seven operation methods are added; each declared one, lower-cased, maps to the operation; methods not declared keep their entry |
| Assembler.AssemblePaths | src/openapi/index.ts:28-53 | paths present beforehand are kept, and every visible route's translated URL is a key |
| Assembler.HiddenRouteAddsNothing | src/openapi/index.ts:32-34 | a hidden route changes neither the paths nor the slug history |
| Assembler.RouteStepMerges | src/openapi/index.ts:35-52 | a visible route writes only its translated key; declared methods get its one operation, earlier methods under that key are kept, and nothing but the seven methods is added |
| Assembler.AssembledKeys | src/openapi/index.ts:30-53 | every path key comes from the caller or from a visible route |
| Assembler.HistoryGrows | src/openapi/index.ts:38 | the slug history only grows, by at most one text per route |
| Assembler.Assembler.constructor | src/index.ts:38-48 | no routes, not ready, no cached document, a fresh slugger |
| Assembler.Assembler.OnRoute | src/hook/on-route.ts:8-33 | the recorded routes become `RecordRoute` of the old ones |
| Assembler.Assembler.MarkReady | src/hook/on-ready.ts:5 | sets the ready flag and changes nothing else |
| Assembler.Assembler.InsertOperation | src/openapi/index.ts:39-51 | the method loop builds `PutMethods` |
| Assembler.Assembler.AddRoute | src/openapi/index.ts:31-52 | one iteration of the route loop is `RouteStep` |
| Assembler.Assembler.AddRoutes | src/openapi/index.ts:30-53 | the route loop, in registration order, is `AssemblePaths` |
| Assembler.Assembler.OpenApi | src/openapi/index.ts:20-56 | before ready: the usage error and no change; with a cached document: that document, nothing rebuilt; otherwise the base document with `paths` (default `{}`) merged with `AssemblePaths` of the recorded routes, which is then cached |
| Assembler.CachedAfterFirstBuild | src/openapi/index.ts:24-55 | after a successful call, the next call returns the same document |

## Left out

- `isURL` relies on Node's `URL` constructor. It is the uninterpreted parameter `isUrl`. The general lemmas hold for every `isUrl`; the two examples `RewriteExamples` and `ComponentReferenceExample` assume that it rejects the bare names `a` and `d`.
- The github-slugger algorithm is an arbitrary function `slugOf` of the slug history and the new text. Uniqueness of slugs is therefore not claimed.
- The `statuses` table of HTTP status phrases is not part of this model. It is a map parameter.
- The TypeBox kind predicates (`IsRef`, `IsObject`, `IsOptional`, `IsSchema`, ...) are replaced by the closed datatype `Schemas.Schema`. The Optional modifier is the flag `meta.optional`.
- JSON `null` in a schema position is not modelled; the source would throw on it in several places. JSON numbers are integers.
- Deep copies (`JSON.parse(JSON.stringify(...))`) are implicit, because every value is immutable.
- In-place mutation and aliasing are not modelled. This covers the caller's `components.schemas` being rewritten in place, the caller's `paths` object being merged into, and the one operation object being shared by a route's methods (here the methods hold equal values). The cached document is returned by value.
- Parameters.MapParameters: it returns the extended list instead of pushing into the caller's array.
- References.UpdateReferences: it returns the rewritten tree instead of assigning `$ref` in place, and its four `for ... of` loops over items, properties, `anyOf` and `allOf` are sequence comprehensions inside the recursion, not loops.
- Object key order (of examples, responses, content maps and paths) is not modelled: these are Dafny maps.
- A path item is only its method-to-operation map. The other path item fields of a caller-supplied `paths` entry (`summary`, `parameters`, `servers`, ...) are not modelled.
- `toLowerCase` is modelled for ASCII letters only.
- BaseDocument.PrepareBaseSchema: the error text is fixed. The engine's `TypeError` message also names the offending value.
- The plugin registration in `src/index.ts` is not modelled: its options, decorators and hook wiring. The `Assembler` constructor takes both options as arguments. The defaults `exposeHeadRoutes = false` and `hideUntagged = false` appear only as the hypotheses of `HeadHiddenByDefault` and `NothingHiddenByDefault`. The ready hook is `MarkReady`.
- The integration tests in `src/__tests__/index.spec.ts` are not modelled; they need a running server and an OpenAPI validator. Only the example of a component reference is restated, as `ComponentReferenceExample`.
- The unit tests asserting `hide` and hidden-tag behaviour of `shouldRouteHide` (src/openapi/__tests__/should-route-hidden.spec.ts:6-9, 18-21) are not modelled, because the function does not implement them.
