/** `mapParameters`: one OpenAPI parameter object per property of a query, path, header
    or cookie schema, appended to the operation's parameter list. */
module Parameters {
  import opened Wrappers
  import opened Schemas
  import opened References
  import opened Examples

  /** The `in` of a parameter object. */
  datatype Location = Query | Path | Header | Cookie

  /** An OpenAPI parameter object; absent annotations are `None`. */
  datatype Parameter = Parameter(
    name: string,
    location: Location,
    required: bool,
    deprecated: Option<bool>,
    description: Option<string>,
    examples: Option<map<string, Example>>,
    explode: Option<bool>,
    schema: Schema)

  /** The property schema without the annotations that move onto the parameter object. */
  function StripAnnotations(s: Schema): (r: Schema)
    requires s.Node?
    ensures r.Node? && r.(meta := s.meta) == s
    ensures r.meta.deprecated.None? && r.meta.description.None? && r.meta.examples.None?
      && r.meta.explode.None? && r.meta.title.None?
    ensures r.meta.(deprecated := s.meta.deprecated, description := s.meta.description, examples := s.meta.examples,
                    explode := s.meta.explode, title := s.meta.title) == s.meta
  {
    s.(meta := s.meta.(deprecated := None, description := None, examples := None, explode := None, title := None))
  }

  /** The parameter one property yields; a property that is not a schema object yields none. */
  function ParameterFor(isUrl: string -> bool, key: string, prop: Schema, loc: Location): (r: Option<Parameter>)
    ensures r.Some? <==> prop.Node?
    ensures r.Some? ==>
      && r.value.name == key && r.value.location == loc
      && r.value.required == (loc == Path || !prop.meta.optional)
      && r.value.deprecated == prop.meta.deprecated
      && r.value.description == prop.meta.description
      && r.value.explode == prop.meta.explode
      && r.value.examples == MapExamples(prop.meta)
  {
    if prop.Literal? then None
    else
      var required := loc == Path || !prop.meta.optional;
      var schema :=
        if prop.ref.Some? then UpdateReferences(isUrl, RefOnly(prop.ref.value))
        else UpdateReferences(isUrl, StripAnnotations(prop));
      Some(Parameter(key, loc, required, prop.meta.deprecated, prop.meta.description,
                     MapExamples(prop.meta), prop.meta.explode, schema))
  }

  /** A reference property becomes a schema holding nothing but the rewritten `$ref`. */
  lemma RefParameterSchema(isUrl: string -> bool, key: string, prop: Schema, loc: Location)
    requires prop.Node? && prop.ref.Some?
    ensures ParameterFor(isUrl, key, prop, loc).value.schema == RefOnly(RewriteRef(isUrl, prop.ref.value))
  {
  }

  /** Any other property keeps its schema, minus the moved annotations, with only `$ref`
      strings changed; its references are already in final form. */
  lemma InlineParameterSchema(isUrl: string -> bool, key: string, prop: Schema, loc: Location)
    requires prop.Node? && prop.ref.None?
    ensures var s := ParameterFor(isUrl, key, prop, loc).value.schema;
      && EraseRefs(s) == EraseRefs(StripAnnotations(prop))
      && s.meta == StripAnnotations(prop).meta
      && UpdateReferences(isUrl, s) == s
  {
    UpdateChangesOnlyRefs(isUrl, StripAnnotations(prop));
    UpdateReferencesIdempotent(isUrl, StripAnnotations(prop));
  }

  /** What each property yields, in property order. */
  function Steps(isUrl: string -> bool, entries: seq<(string, Schema)>, loc: Location): (r: seq<Option<Parameter>>)
    ensures |r| == |entries|
    ensures forall i :: 0 <= i < |entries| ==> r[i] == ParameterFor(isUrl, entries[i].0, entries[i].1, loc)
  {
    seq(|entries|, i requires 0 <= i < |entries| => ParameterFor(isUrl, entries[i].0, entries[i].1, loc))
  }

  /** The pushes of the loop: every parameter that a step yields, in order. */
  function Pushed(steps: seq<Option<Parameter>>): (r: seq<Parameter>)
    ensures |r| <= |steps|
    ensures (forall i :: 0 <= i < |steps| ==> steps[i].Some?) ==> |r| == |steps|
    ensures forall p <- r :: exists i :: 0 <= i < |steps| && steps[i] == Some(p)
    decreases |steps|
  {
    if steps == [] then []
    else
      var n := |steps| - 1;
      assert forall i :: 0 <= i < n ==> steps[..n][i] == steps[i];
      Pushed(steps[..n]) + (if steps[n].Some? then [steps[n].value] else [])
  }

  /** The loop over `Object.entries(schema.properties)`. */
  function FromEntries(isUrl: string -> bool, entries: seq<(string, Schema)>, loc: Location): seq<Parameter> {
    Pushed(Steps(isUrl, entries, loc))
  }

  /** At most one parameter per property, exactly one per property when every value is a
      schema object, each with the location as `in` and the name of a schema-valued property. */
  lemma FromEntriesSound(isUrl: string -> bool, entries: seq<(string, Schema)>, loc: Location)
    ensures |FromEntries(isUrl, entries, loc)| <= |entries|
    ensures (forall i :: 0 <= i < |entries| ==> entries[i].1.Node?) ==> |FromEntries(isUrl, entries, loc)| == |entries|
    ensures forall p <- FromEntries(isUrl, entries, loc) ::
      p.location == loc && exists i :: 0 <= i < |entries| && entries[i].0 == p.name && entries[i].1.Node?
  {
    var steps := Steps(isUrl, entries, loc);
    forall p <- Pushed(steps)
      ensures p.location == loc && exists i :: 0 <= i < |entries| && entries[i].0 == p.name && entries[i].1.Node?
    {
      var i :| 0 <= i < |steps| && steps[i] == Some(p);
      assert entries[i].0 == p.name && entries[i].1.Node?;
    }
  }

  /** What `mapParameters` appends: nothing unless the schema is an object with properties. */
  function ParametersOf(isUrl: string -> bool, schema: Option<Schema>, loc: Location): (r: seq<Parameter>)
    ensures r != [] ==> schema.Some? && schema.value.Node? && schema.value.properties.Properties?
  {
    if schema.Some? && schema.value.Node? && schema.value.properties.Properties? then
      FromEntries(isUrl, schema.value.properties.entries, loc)
    else []
  }

  /** `mapParameters`: the list only grows, by the parameters of `schema` in property order. */
  method MapParameters(parameters: seq<Parameter>, schema: Option<Schema>, loc: Location, isUrl: string -> bool)
    returns (result: seq<Parameter>)
    ensures result == parameters + ParametersOf(isUrl, schema, loc)
  {
    result := parameters;
    if schema.None? || schema.value.Literal? || schema.value.properties.NoProperties? {
      return;
    }
    var entries := schema.value.properties.entries;
    for i := 0 to |entries|
      invariant result == parameters + FromEntries(isUrl, entries[..i], loc)
    {
      result := PushParameter(parameters, result, isUrl, entries, loc, i);
    }
    assert entries[..|entries|] == entries;
  }

  /** One iteration of the loop: the parameter of the `i`-th property, if any, is pushed. */
  method PushParameter(parameters: seq<Parameter>, result: seq<Parameter>, isUrl: string -> bool,
                       entries: seq<(string, Schema)>, loc: Location, i: nat)
    returns (pushed: seq<Parameter>)
    requires i < |entries|
    requires result == parameters + FromEntries(isUrl, entries[..i], loc)
    ensures pushed == parameters + FromEntries(isUrl, entries[..i + 1], loc)
  {
    var (key, prop) := entries[i];
    var parameter := ParameterFor(isUrl, key, prop, loc);
    FromEntriesStep(isUrl, entries, loc, i);
    pushed := result;
    if parameter.Some? {
      pushed := pushed + [parameter.value];
    }
  }

  // ----- Order and coverage -----

  lemma {:induction false} PushedAppend(a: seq<Option<Parameter>>, b: seq<Option<Parameter>>)
    ensures Pushed(a + b) == Pushed(a) + Pushed(b)
    decreases |b|
  {
    if b == [] {
      assert a + b == a;
    } else {
      var n := |b| - 1;
      assert (a + b)[..|a| + n] == a + b[..n];
      PushedAppend(a, b[..n]);
    }
  }

  lemma {:induction false} PushedComplete(steps: seq<Option<Parameter>>, i: nat)
    requires i < |steps| && steps[i].Some?
    ensures steps[i].value in Pushed(steps)
    decreases |steps|
  {
    var n := |steps| - 1;
    if i < n {
      assert steps[..n][i] == steps[i];
      PushedComplete(steps[..n], i);
    }
  }

  /** The loop distributes over concatenation: entries are handled one after another, in order. */
  lemma FromEntriesAppend(isUrl: string -> bool, a: seq<(string, Schema)>, b: seq<(string, Schema)>, loc: Location)
    ensures FromEntries(isUrl, a + b, loc) == FromEntries(isUrl, a, loc) + FromEntries(isUrl, b, loc)
  {
    assert Steps(isUrl, a + b, loc) == Steps(isUrl, a, loc) + Steps(isUrl, b, loc);
    PushedAppend(Steps(isUrl, a, loc), Steps(isUrl, b, loc));
  }

  /** One more property appends what it yields. */
  lemma FromEntriesStep(isUrl: string -> bool, entries: seq<(string, Schema)>, loc: Location, i: nat)
    requires i < |entries|
    ensures var step := ParameterFor(isUrl, entries[i].0, entries[i].1, loc);
      FromEntries(isUrl, entries[..i + 1], loc) == FromEntries(isUrl, entries[..i], loc) + (if step.Some? then [step.value] else [])
  {
    assert entries[..i + 1] == entries[..i] + [entries[i]];
    FromEntriesAppend(isUrl, entries[..i], [entries[i]], loc);
    assert Pushed(Steps(isUrl, [entries[i]], loc)) == Pushed([]) + Pushed(Steps(isUrl, [entries[i]], loc));
  }

  /** Every schema-valued property yields its parameter. */
  lemma FromEntriesComplete(isUrl: string -> bool, entries: seq<(string, Schema)>, loc: Location, i: nat)
    requires i < |entries| && entries[i].1.Node?
    ensures ParameterFor(isUrl, entries[i].0, entries[i].1, loc).value in FromEntries(isUrl, entries, loc)
  {
    PushedComplete(Steps(isUrl, entries, loc), i);
  }
}
