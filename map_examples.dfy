/** `mapExamples`: a schema's `examples` array as a keyed set of OpenAPI example objects. */
module Examples {
  import opened Wrappers
  import opened Strings
  import opened Schemas

  /** An OpenAPI example object. */
  datatype Example = Example(description: Option<string>, summary: Option<string>, value: Value)

  /** The key of example `i` when there are two or more: `Example <i>`, counting from zero. */
  function ExampleKey(i: nat): string {
    "Example " + NatToString(i)
  }

  lemma ExampleKeyInjective(i: nat, j: nat)
    requires ExampleKey(i) == ExampleKey(j)
    ensures i == j
  {
    assert ExampleKey(i)[8..] == NatToString(i);
    assert ExampleKey(j)[8..] == NatToString(j);
    NatToStringInjective(i, j);
  }

  /** The `reduce` over the examples array: entry `i` under `ExampleKey(i)`. */
  function Collect(xs: seq<Value>, description: Option<string>, summary: Option<string>): (r: map<string, Example>)
    ensures forall k <- r :: exists i :: 0 <= i < |xs| && k == ExampleKey(i)
    ensures forall k <- r :: r[k].description == description && r[k].summary == summary
    ensures |r| == |xs|
    decreases |xs|
  {
    if xs == [] then map[]
    else
      var n := |xs| - 1;
      var prev := Collect(xs[..n], description, summary);
      FreshKey(prev, n);
      var r := prev[ExampleKey(n) := Example(description, summary, xs[n])];
      r
  }

  /** Entry `i` of the fold holds example `i`. */
  lemma {:induction false} CollectEntry(xs: seq<Value>, description: Option<string>, summary: Option<string>, i: nat)
    requires i < |xs|
    ensures ExampleKey(i) in Collect(xs, description, summary)
    ensures Collect(xs, description, summary)[ExampleKey(i)] == Example(description, summary, xs[i])
    decreases |xs|
  {
    var n := |xs| - 1;
    if i < n {
      CollectEntry(xs[..n], description, summary, i);
      FreshKey(Collect(xs[..n], description, summary), n);
      assert xs[..n][i] == xs[i];
    }
  }

  /** The key of the next example is not yet taken. */
  lemma FreshKey(prev: map<string, Example>, n: nat)
    requires forall k <- prev :: exists i :: 0 <= i < n && k == ExampleKey(i)
    ensures ExampleKey(n) !in prev
  {
    if ExampleKey(n) in prev {
      var i :| 0 <= i < n && ExampleKey(n) == ExampleKey(i);
      ExampleKeyInjective(i, n);
    }
  }

  /** The examples of a schema, if it has a non-empty `examples` array. */
  function MapExamples(meta: Meta): (r: Option<map<string, Example>>)
    ensures r.Some? <==> meta.examples.Some? && meta.examples.value.Arr? && |meta.examples.value.elems| >= 1
    ensures r.Some? ==> |r.value| == |meta.examples.value.elems|
    ensures r.Some? && |meta.examples.value.elems| == 1 ==>
      r.value == map["Example" := Example(meta.description, meta.title, meta.examples.value.elems[0])]
    ensures r.Some? ==> forall k <- r.value :: r.value[k].description == meta.description && r.value[k].summary == meta.title
  {
    match meta.examples
    case Some(Arr(xs)) =>
      if |xs| < 1 then None
      else if |xs| == 1 then Some(map["Example" := Example(meta.description, meta.title, xs[0])])
      else Some(Collect(xs, meta.description, meta.title))
    case _ => None
  }

  /** Two or more examples are keyed `Example 0` to `Example <n-1>`, entry `i` holding example `i`. */
  lemma MultipleExamples(meta: Meta)
    requires MapExamples(meta).Some? && |meta.examples.value.elems| >= 2
    ensures var xs := meta.examples.value.elems;
      forall i :: 0 <= i < |xs| ==> ExampleKey(i) in MapExamples(meta).value && MapExamples(meta).value[ExampleKey(i)].value == xs[i]
    ensures forall k <- MapExamples(meta).value :: exists i :: 0 <= i < |meta.examples.value.elems| && k == ExampleKey(i)
  {
    var xs := meta.examples.value.elems;
    forall i | 0 <= i < |xs|
      ensures ExampleKey(i) in MapExamples(meta).value && MapExamples(meta).value[ExampleKey(i)].value == xs[i]
    {
      CollectEntry(xs, meta.description, meta.title, i);
    }
  }

  /** Every key of a multi-example result starts with `Example `. */
  lemma MultipleExampleKeys(meta: Meta)
    requires MapExamples(meta).Some? && |meta.examples.value.elems| >= 2
    ensures forall k <- MapExamples(meta).value :: StartsWith(k, "Example ")
  {
    forall k <- MapExamples(meta).value ensures StartsWith(k, "Example ") {
      var i :| 0 <= i < |meta.examples.value.elems| && k == ExampleKey(i);
      assert k[..8] == "Example ";
    }
  }
}
