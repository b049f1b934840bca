/** The reference rewriter: a walk over a schema tree that turns every bare local
    `$ref` identifier it reaches into a component reference `#/components/schemas/<id>`.
    Whether a string is a URL (Node's `URL` constructor) is the parameter `isUrl`. */
module References {
  import opened Wrappers
  import opened Strings
  import opened Schemas

  const ComponentPrefix := "#/components/schemas/"

  /** A bare local identifier: non-empty, not a URL, no leading `#`, no `/`. */
  predicate IsValidReference(isUrl: string -> bool, input: string) {
    input != "" && !(isUrl(input) || StartsWith(input, "#") || '/' in input)
  }

  /** One `$ref` string after the rewrite. */
  function RewriteRef(isUrl: string -> bool, ref: string): (r: string)
    ensures r != ref <==> IsValidReference(isUrl, ref)
    ensures r != ref ==> r == ComponentPrefix + ref
    ensures !IsValidReference(isUrl, r)
  {
    if IsValidReference(isUrl, ref) then
      assert StartsWith(ComponentPrefix + ref, "#");
      ComponentPrefix + ref
    else ref
  }

  /** `updateReferences`: dispatch on the first recognised form, in the source's order:
      `$ref`, `items`, `properties`, `anyOf`, `allOf`. */
  function UpdateReferences(isUrl: string -> bool, s: Schema): (r: Schema)
    ensures s.Literal? ==> r == s
    ensures s.Node? ==> r.Node? && r.meta == s.meta
    // a reference node is not searched further: only its `$ref` can change
    ensures s.Node? && s.ref.Some? ==> r.(ref := s.ref) == s && r.ref == Some(RewriteRef(isUrl, s.ref.value))
    // an `items` node has only its items visited
    ensures s.Node? && s.ref.None? && !s.items.NoItems? ==> r.(items := s.items) == s
    // a `properties` node has only its properties visited, never its `anyOf` or `allOf`
    ensures s.Node? && s.ref.None? && s.items.NoItems? && s.properties.Properties? ==> r.(properties := s.properties) == s
    ensures s.Node? && s.ref.None? && s.items.NoItems? && s.properties.NoProperties? && s.anyOf.Branches?
      ==> r.(anyOf := s.anyOf) == s
    ensures s.Node? && s.ref.None? && s.items.NoItems? && s.properties.NoProperties? && s.anyOf.NoBranches?
      ==> r.(allOf := s.allOf) == s
    decreases s
  {
    match s
    case Literal(_) => s
    case Node(ref, items, properties, anyOf, allOf, _) =>
      if ref.Some? then s.(ref := Some(RewriteRef(isUrl, ref.value)))
      else if !items.NoItems? then s.(items := UpdateItems(isUrl, items))
      else if properties.Properties? then s.(properties := UpdateProperties(isUrl, properties))
      else if anyOf.Branches? then s.(anyOf := UpdateBranches(isUrl, anyOf))
      else if allOf.Branches? then s.(allOf := UpdateBranches(isUrl, allOf))
      else s
  }

  /** Both forms of `items`: one schema, or each schema of a tuple. */
  function UpdateItems(isUrl: string -> bool, items: Items): (r: Items)
    ensures r.NoItems? == items.NoItems? && r.Single? == items.Single?
    ensures items.Tuple? ==> |r.elems| == |items.elems|
    decreases items
  {
    match items
    case NoItems => NoItems
    case Single(x) => Single(UpdateReferences(isUrl, x))
    case Tuple(xs) => Tuple(seq(|xs|, i requires 0 <= i < |xs| => UpdateReferences(isUrl, xs[i])))
  }

  /** Every property value, keys and order kept. */
  function UpdateProperties(isUrl: string -> bool, ps: Properties): (r: Properties)
    ensures r.Properties? == ps.Properties?
    ensures ps.Properties? ==>
      |r.entries| == |ps.entries| && forall i :: 0 <= i < |ps.entries| ==> r.entries[i].0 == ps.entries[i].0
    decreases ps
  {
    match ps
    case NoProperties => NoProperties
    case Properties(es) =>
      Properties(seq(|es|, i requires 0 <= i < |es| => (es[i].0, UpdateReferences(isUrl, es[i].1))))
  }

  /** Every branch of an `anyOf` or `allOf`. */
  function UpdateBranches(isUrl: string -> bool, bs: Branches): (r: Branches)
    ensures r.Branches? == bs.Branches?
    ensures bs.Branches? ==> |r.list| == |bs.list|
    decreases bs
  {
    match bs
    case NoBranches => NoBranches
    case Branches(xs) => Branches(seq(|xs|, i requires 0 <= i < |xs| => UpdateReferences(isUrl, xs[i])))
  }

  // ----- Idempotence -----

  /** A second pass changes nothing: every rewritten reference starts with `#`. */
  lemma {:induction false} UpdateReferencesIdempotent(isUrl: string -> bool, s: Schema)
    ensures UpdateReferences(isUrl, UpdateReferences(isUrl, s)) == UpdateReferences(isUrl, s)
    decreases s
  {
    match s
    case Literal(_) =>
    case Node(ref, items, properties, anyOf, allOf, _) =>
      if ref.Some? {
      } else if !items.NoItems? {
        UpdateItemsIdempotent(isUrl, items);
      } else if properties.Properties? {
        UpdatePropertiesIdempotent(isUrl, properties);
      } else if anyOf.Branches? {
        UpdateBranchesIdempotent(isUrl, anyOf);
      } else if allOf.Branches? {
        UpdateBranchesIdempotent(isUrl, allOf);
      }
  }

  lemma {:induction false} UpdateItemsIdempotent(isUrl: string -> bool, items: Items)
    ensures UpdateItems(isUrl, UpdateItems(isUrl, items)) == UpdateItems(isUrl, items)
    decreases items
  {
    match items
    case NoItems =>
    case Single(x) => UpdateReferencesIdempotent(isUrl, x);
    case Tuple(xs) =>
      forall i | 0 <= i < |xs|
        ensures UpdateReferences(isUrl, UpdateReferences(isUrl, xs[i])) == UpdateReferences(isUrl, xs[i])
      {
        UpdateReferencesIdempotent(isUrl, xs[i]);
      }
  }

  lemma {:induction false} UpdatePropertiesIdempotent(isUrl: string -> bool, ps: Properties)
    ensures UpdateProperties(isUrl, UpdateProperties(isUrl, ps)) == UpdateProperties(isUrl, ps)
    decreases ps
  {
    match ps
    case NoProperties =>
    case Properties(es) =>
      forall i | 0 <= i < |es|
        ensures UpdateReferences(isUrl, UpdateReferences(isUrl, es[i].1)) == UpdateReferences(isUrl, es[i].1)
      {
        UpdateReferencesIdempotent(isUrl, es[i].1);
      }
  }

  lemma {:induction false} UpdateBranchesIdempotent(isUrl: string -> bool, bs: Branches)
    ensures UpdateBranches(isUrl, UpdateBranches(isUrl, bs)) == UpdateBranches(isUrl, bs)
    decreases bs
  {
    match bs
    case NoBranches =>
    case Branches(xs) =>
      forall i | 0 <= i < |xs|
        ensures UpdateReferences(isUrl, UpdateReferences(isUrl, xs[i])) == UpdateReferences(isUrl, xs[i])
      {
        UpdateReferencesIdempotent(isUrl, xs[i]);
      }
  }

  // ----- Only `$ref` strings change -----

  /** The schema with every `$ref` string blanked out, everywhere in the tree. */
  function EraseRefs(s: Schema): Schema
    decreases s
  {
    match s
    case Literal(_) => s
    case Node(ref, items, properties, anyOf, allOf, meta) =>
      Node(if ref.Some? then Some("") else None, EraseItems(items), EraseProperties(properties),
           EraseBranches(anyOf), EraseBranches(allOf), meta)
  }

  function EraseItems(items: Items): Items
    decreases items
  {
    match items
    case NoItems => NoItems
    case Single(x) => Single(EraseRefs(x))
    case Tuple(xs) => Tuple(seq(|xs|, i requires 0 <= i < |xs| => EraseRefs(xs[i])))
  }

  function EraseProperties(ps: Properties): Properties
    decreases ps
  {
    match ps
    case NoProperties => NoProperties
    case Properties(es) => Properties(seq(|es|, i requires 0 <= i < |es| => (es[i].0, EraseRefs(es[i].1))))
  }

  function EraseBranches(bs: Branches): Branches
    decreases bs
  {
    match bs
    case NoBranches => NoBranches
    case Branches(xs) => Branches(seq(|xs|, i requires 0 <= i < |xs| => EraseRefs(xs[i])))
  }

  /** The rewrite touches nothing but `$ref` strings: with those blanked out, the tree is the same. */
  lemma {:induction false} UpdateChangesOnlyRefs(isUrl: string -> bool, s: Schema)
    ensures EraseRefs(UpdateReferences(isUrl, s)) == EraseRefs(s)
    decreases s
  {
    match s
    case Literal(_) =>
    case Node(ref, items, properties, anyOf, allOf, _) =>
      if ref.Some? {
      } else if !items.NoItems? {
        UpdateItemsChangesOnlyRefs(isUrl, items);
      } else if properties.Properties? {
        UpdatePropertiesChangesOnlyRefs(isUrl, properties);
      } else if anyOf.Branches? {
        UpdateBranchesChangesOnlyRefs(isUrl, anyOf);
      } else if allOf.Branches? {
        UpdateBranchesChangesOnlyRefs(isUrl, allOf);
      }
  }

  lemma {:induction false} UpdateItemsChangesOnlyRefs(isUrl: string -> bool, items: Items)
    ensures EraseItems(UpdateItems(isUrl, items)) == EraseItems(items)
    decreases items
  {
    match items
    case NoItems =>
    case Single(x) => UpdateChangesOnlyRefs(isUrl, x);
    case Tuple(xs) =>
      forall i | 0 <= i < |xs| ensures EraseRefs(UpdateReferences(isUrl, xs[i])) == EraseRefs(xs[i]) {
        UpdateChangesOnlyRefs(isUrl, xs[i]);
      }
  }

  lemma {:induction false} UpdatePropertiesChangesOnlyRefs(isUrl: string -> bool, ps: Properties)
    ensures EraseProperties(UpdateProperties(isUrl, ps)) == EraseProperties(ps)
    decreases ps
  {
    match ps
    case NoProperties =>
    case Properties(es) =>
      forall i | 0 <= i < |es| ensures EraseRefs(UpdateReferences(isUrl, es[i].1)) == EraseRefs(es[i].1) {
        UpdateChangesOnlyRefs(isUrl, es[i].1);
      }
  }

  lemma {:induction false} UpdateBranchesChangesOnlyRefs(isUrl: string -> bool, bs: Branches)
    ensures EraseBranches(UpdateBranches(isUrl, bs)) == EraseBranches(bs)
    decreases bs
  {
    match bs
    case NoBranches =>
    case Branches(xs) =>
      forall i | 0 <= i < |xs| ensures EraseRefs(UpdateReferences(isUrl, xs[i])) == EraseRefs(xs[i]) {
        UpdateChangesOnlyRefs(isUrl, xs[i]);
      }
  }

  // ----- Which references are rewritten -----

  function Flatten(ss: seq<seq<string>>): seq<string> {
    if ss == [] then [] else ss[0] + Flatten(ss[1..])
  }

  function RewriteAll(isUrl: string -> bool, refs: seq<string>): (r: seq<string>)
    ensures |r| == |refs| && forall i :: 0 <= i < |refs| ==> r[i] == RewriteRef(isUrl, refs[i])
  {
    seq(|refs|, i requires 0 <= i < |refs| => RewriteRef(isUrl, refs[i]))
  }

  /** The `$ref` strings the walk reaches, in visiting order. */
  function VisitedRefs(s: Schema): seq<string>
    decreases s
  {
    match s
    case Literal(_) => []
    case Node(ref, items, properties, anyOf, allOf, _) =>
      if ref.Some? then [ref.value]
      else if items.Single? then VisitedRefs(items.item)
      else if items.Tuple? then Flatten(seq(|items.elems|, i requires 0 <= i < |items.elems| => VisitedRefs(items.elems[i])))
      else if properties.Properties? then
        Flatten(seq(|properties.entries|, i requires 0 <= i < |properties.entries| => VisitedRefs(properties.entries[i].1)))
      else if anyOf.Branches? then Flatten(seq(|anyOf.list|, i requires 0 <= i < |anyOf.list| => VisitedRefs(anyOf.list[i])))
      else if allOf.Branches? then Flatten(seq(|allOf.list|, i requires 0 <= i < |allOf.list| => VisitedRefs(allOf.list[i])))
      else []
  }

  lemma {:induction false} RewriteAllFlatten(isUrl: string -> bool, ss: seq<seq<string>>, ts: seq<seq<string>>)
    requires |ss| == |ts| && forall i :: 0 <= i < |ss| ==> ts[i] == RewriteAll(isUrl, ss[i])
    ensures Flatten(ts) == RewriteAll(isUrl, Flatten(ss))
    decreases |ss|
  {
    if ss != [] {
      RewriteAllFlatten(isUrl, ss[1..], ts[1..]);
      assert RewriteAll(isUrl, ss[0] + Flatten(ss[1..])) == RewriteAll(isUrl, ss[0]) + RewriteAll(isUrl, Flatten(ss[1..]));
    }
  }

  /** Every reference the walk reaches is passed through `RewriteRef`, in the same order. */
  lemma {:induction false} UpdateRewritesVisitedRefs(isUrl: string -> bool, s: Schema)
    ensures VisitedRefs(UpdateReferences(isUrl, s)) == RewriteAll(isUrl, VisitedRefs(s))
    decreases s
  {
    match s
    case Literal(_) =>
    case Node(ref, items, properties, anyOf, allOf, _) =>
      var r := UpdateReferences(isUrl, s);
      if ref.Some? {
      } else if items.Single? {
        UpdateRewritesVisitedRefs(isUrl, items.item);
      } else if items.Tuple? {
        var xs := items.elems;
        var ys := r.items.elems;
        forall i | 0 <= i < |xs| ensures VisitedRefs(ys[i]) == RewriteAll(isUrl, VisitedRefs(xs[i])) {
          UpdateRewritesVisitedRefs(isUrl, xs[i]);
        }
        RewriteAllFlatten(isUrl, seq(|xs|, i requires 0 <= i < |xs| => VisitedRefs(xs[i])),
                                 seq(|ys|, i requires 0 <= i < |ys| => VisitedRefs(ys[i])));
      } else if properties.Properties? {
        var es := properties.entries;
        var fs := r.properties.entries;
        forall i | 0 <= i < |es| ensures VisitedRefs(fs[i].1) == RewriteAll(isUrl, VisitedRefs(es[i].1)) {
          UpdateRewritesVisitedRefs(isUrl, es[i].1);
        }
        RewriteAllFlatten(isUrl, seq(|es|, i requires 0 <= i < |es| => VisitedRefs(es[i].1)),
                                 seq(|fs|, i requires 0 <= i < |fs| => VisitedRefs(fs[i].1)));
      } else if anyOf.Branches? {
        var xs := anyOf.list;
        var ys := r.anyOf.list;
        forall i | 0 <= i < |xs| ensures VisitedRefs(ys[i]) == RewriteAll(isUrl, VisitedRefs(xs[i])) {
          UpdateRewritesVisitedRefs(isUrl, xs[i]);
        }
        RewriteAllFlatten(isUrl, seq(|xs|, i requires 0 <= i < |xs| => VisitedRefs(xs[i])),
                                 seq(|ys|, i requires 0 <= i < |ys| => VisitedRefs(ys[i])));
      } else if allOf.Branches? {
        var xs := allOf.list;
        var ys := r.allOf.list;
        forall i | 0 <= i < |xs| ensures VisitedRefs(ys[i]) == RewriteAll(isUrl, VisitedRefs(xs[i])) {
          UpdateRewritesVisitedRefs(isUrl, xs[i]);
        }
        RewriteAllFlatten(isUrl, seq(|xs|, i requires 0 <= i < |xs| => VisitedRefs(xs[i])),
                                 seq(|ys|, i requires 0 <= i < |ys| => VisitedRefs(ys[i])));
      }
  }

  /** After the rewrite, no reachable reference is still a bare identifier. */
  lemma NoBareReferenceRemains(isUrl: string -> bool, s: Schema)
    ensures forall ref <- VisitedRefs(UpdateReferences(isUrl, s)) :: !IsValidReference(isUrl, ref)
  {
    UpdateRewritesVisitedRefs(isUrl, s);
  }

  /** The rewriter on single references: a bare name is prefixed, while an empty ref, a
      relative file path and a local JSON pointer are kept as they are. */
  lemma RewriteExamples(isUrl: string -> bool)
    requires !isUrl("a")
    ensures UpdateReferences(isUrl, RefOnly("a")) == RefOnly("#/components/schemas/a")
    ensures UpdateReferences(isUrl, RefOnly("")) == RefOnly("")
    ensures UpdateReferences(isUrl, RefOnly("schemas/people/Bruce-Wayne.json")) == RefOnly("schemas/people/Bruce-Wayne.json")
    ensures UpdateReferences(isUrl, RefOnly("#/definitions/thing")) == RefOnly("#/definitions/thing")
  {
    assert "a"[..1][0] == 'a';
    assert !StartsWith("a", "#");
    assert IsValidReference(isUrl, "a");
    assert ComponentPrefix + "a" == "#/components/schemas/a";
    assert '/' in "schemas/people/Bruce-Wayne.json" by {
      assert "schemas/people/Bruce-Wayne.json"[7] == '/';
    }
    assert StartsWith("#/definitions/thing", "#");
  }
}
