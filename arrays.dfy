/** `converter._find_arrays`: the walk over the JSON schema of the generated
    `Document` model that collects the paths of its array fields, so that the
    generated `from_xml` can ask the XML parser for lists there. The schema
    is given as a tree: the root properties, and the `$defs` each mapping a
    definition name to its properties. */
module Arrays {
  import opened Wrappers

  /** The properties of one field as the walk reads them. A field with an
      `anyOf` is seen only through the `$ref` of each alternative (an
      alternative without one is skipped, whatever its type); any other
      field through its `type` and, for an array, the `$ref` of its
      `items`. */
  datatype Node =
    | AnyOf(alternatives: seq<Option<string>>)
    | Typed(typ: string, itemsRef: Option<string>)

  /** A `properties` mapping: field names with their properties, in order. */
  type Properties = seq<(string, Node)>

  /** `$defs`: definition name to its `properties`. */
  type Definitions = map<string, Properties>

  /** `ref[8:]`: the reference without its `"#/$defs/"` prefix; Python's
      slice of a shorter string is empty. */
  function Strip8(ref: string): (r: string)
    ensures |ref| >= 8 ==> ref == ref[..8] + r
    ensures |ref| < 8 ==> r == []
  {
    if |ref| >= 8 then ref[8..] else []
  }

  /** Every reference a field can follow names a definition, so that the
      walk's `definitions[...]` lookups succeed. */
  predicate Resolves(defs: Definitions, n: Node) {
    match n
    case AnyOf(alts) => forall i :: 0 <= i < |alts| && alts[i].Some? ==> Strip8(alts[i].value) in defs
    case Typed(typ, items) => typ == "array" && items.Some? ==> Strip8(items.value) in defs
  }

  predicate AllResolve(defs: Definitions, props: Properties) {
    forall i :: 0 <= i < |props| ==> Resolves(defs, props[i].1)
  }

  /** The definitions refer only to one another. */
  predicate Closed(defs: Definitions) {
    forall k :: k in defs ==> AllResolve(defs, defs[k])
  }

  /** The paths `iterate(path, props)` adds: none once the path is
      `maxDepth` long; for a field without `anyOf` whose type is `"array"`
      the path itself and, when its items refer to a definition, what the
      definition's fields add one level down; for an `anyOf` what the
      definitions of its alternatives add one level down. Every path it adds
      extends `path`, is at least as long and shorter than `maxDepth`. */
  function Found(defs: Definitions, maxDepth: int, path: seq<string>, n: Node): (r: set<seq<string>>)
    requires Closed(defs) && Resolves(defs, n)
    ensures forall p :: p in r ==> |path| <= |p| < maxDepth && p[..|path|] == path
    decreases maxDepth - |path|, 2, 0
  {
    if |path| >= maxDepth then {}
    else
      match n
      case Typed(typ, items) =>
        if typ != "array" then {}
        else if items.None? then {path}
        else {path} + FoundIn(defs, maxDepth, path, defs[Strip8(items.value)])
      case AnyOf(alts) => FoundAlts(defs, maxDepth, path, alts)
  }

  /** What the loop over the alternatives of an `anyOf` adds. */
  function FoundAlts(defs: Definitions, maxDepth: int, path: seq<string>, alts: seq<Option<string>>)
    : (r: set<seq<string>>)
    requires Closed(defs) && |path| < maxDepth
    requires forall i :: 0 <= i < |alts| && alts[i].Some? ==> Strip8(alts[i].value) in defs
    ensures forall p :: p in r ==> |path| < |p| < maxDepth && p[..|path|] == path
    decreases maxDepth - |path|, 1, |alts|
  {
    if alts == [] then {}
    else
      var before := FoundAlts(defs, maxDepth, path, alts[..|alts| - 1]);
      var last := alts[|alts| - 1];
      if last.None? then before
      else before + FoundIn(defs, maxDepth, path, defs[Strip8(last.value)])
  }

  /** What the loop over the fields of a definition adds: each field is
      walked one level down, under its own name. */
  function FoundIn(defs: Definitions, maxDepth: int, path: seq<string>, props: Properties)
    : (r: set<seq<string>>)
    requires Closed(defs) && |path| < maxDepth && AllResolve(defs, props)
    ensures forall p :: p in r ==> |path| < |p| < maxDepth && p[..|path|] == path
    decreases maxDepth - |path|, 0, |props|
  {
    if props == [] then {}
    else
      var before := FoundIn(defs, maxDepth, path, props[..|props| - 1]);
      var (child, n) := props[|props| - 1];
      var below := Found(defs, maxDepth, path + [child], n);
      assert forall p :: p in below ==> p[..|path|] == path by {
        forall p | p in below ensures p[..|path|] == path {
          assert p[..|path|] == p[..|path| + 1][..|path|];
        }
      }
      before + below
  }

  /** What the root loop of `_find_arrays` adds: each root property is
      walked on the path made of its name alone. */
  function FoundRoots(defs: Definitions, maxDepth: int, roots: Properties): (r: set<seq<string>>)
    requires Closed(defs) && AllResolve(defs, roots)
    ensures forall p :: p in r ==> 1 <= |p| < maxDepth
    decreases |roots|
  {
    if roots == [] then {}
    else
      var before := FoundRoots(defs, maxDepth, roots[..|roots| - 1]);
      var (root, n) := roots[|roots| - 1];
      before + Found(defs, maxDepth, [root], n)
  }

  /** `_find_arrays` only returns paths of length 1 to `maxDepth - 1`, each
      beginning with the name of a root property. */
  lemma {:induction false} FoundRootsBounds(defs: Definitions, maxDepth: int, roots: Properties)
    requires Closed(defs) && AllResolve(defs, roots)
    ensures forall p :: p in FoundRoots(defs, maxDepth, roots) ==>
              1 <= |p| < maxDepth && exists i :: 0 <= i < |roots| && p[0] == roots[i].0
    decreases |roots|
  {
    if roots != [] {
      var init := roots[..|roots| - 1];
      var (root, n) := roots[|roots| - 1];
      FoundRootsBounds(defs, maxDepth, init);
      forall p | p in FoundRoots(defs, maxDepth, roots)
        ensures 1 <= |p| < maxDepth && exists i :: 0 <= i < |roots| && p[0] == roots[i].0
      {
        if p in Found(defs, maxDepth, [root], n) {
          assert p[0] == p[..1][0] == roots[|roots| - 1].0;
        } else {
          var i :| 0 <= i < |init| && p[0] == init[i].0;
          assert roots[i] == init[i];
        }
      }
    }
  }

  /** With a depth limit of at most one nothing is found. */
  lemma ShallowFindsNothing(defs: Definitions, maxDepth: int, roots: Properties)
    requires Closed(defs) && AllResolve(defs, roots) && maxDepth <= 1
    ensures FoundRoots(defs, maxDepth, roots) == {}
  {
    FoundRootsBounds(defs, maxDepth, roots);
  }

  /** A path is recorded for its own field exactly when the field has no
      `anyOf`, its type is `"array"` and the depth limit is not reached:
      everything else the walk adds lies strictly below the field. In
      particular an `anyOf` field is never recorded itself, even when one of
      its alternatives is an array. */
  lemma {:induction false} OwnPathFound(defs: Definitions, maxDepth: int, path: seq<string>, n: Node)
    requires Closed(defs) && Resolves(defs, n)
    ensures path in Found(defs, maxDepth, path, n) <==> n.Typed? && n.typ == "array" && |path| < maxDepth
  {
    if |path| < maxDepth {
      match n
      case Typed(typ, items) =>
        if typ == "array" && items.Some? {
          var below := FoundIn(defs, maxDepth, path, defs[Strip8(items.value)]);
          assert path !in below;
        }
      case AnyOf(alts) =>
        assert path !in FoundAlts(defs, maxDepth, path, alts);
    }
  }

  /** A definition whose array field refers back to the definition itself
      is walked until the depth limit: with a limit of 3 a root array of it
      yields its own path and one level below, and nothing deeper. */
  lemma SelfReferenceStopsAtDepth()
    ensures var defs := map["Node" := [("next", Typed("array", Some("#/$defs/Node")))]];
      Closed(defs) &&
      FoundRoots(defs, 3, [("root", Typed("array", Some("#/$defs/Node")))]) == {["root"], ["root", "next"]}
  {
    var n := Typed("array", Some("#/$defs/Node"));
    var props := [("next", n)];
    var defs := map["Node" := props];
    assert Strip8("#/$defs/Node") == "Node";
    var p1, p2, p3 := ["root"], ["root", "next"], ["root", "next", "next"];
    assert p1 + ["next"] == p2 && p2 + ["next"] == p3;
    assert props[..0] == [];
    assert Found(defs, 3, p3, n) == {};
    assert FoundIn(defs, 3, p2, props) == {};
    assert Found(defs, 3, p2, n) == {p2};
    assert FoundIn(defs, 3, p1, props) == {p2};
    assert Found(defs, 3, p1, n) == {p1, p2};
    var roots := [("root", n)];
    assert roots[..0] == [];
  }

  /** The walk of `_find_arrays`. `definitions` and `maxDepth` are what the
      nested `iterate` reads from its enclosing call; `arrays` is the set it
      adds to. */
  class ArrayFinder {
    const definitions: Definitions
    const maxDepth: int
    var arrays: set<seq<string>>

    constructor (definitions: Definitions, maxDepth: int)
      ensures this.definitions == definitions && this.maxDepth == maxDepth
      ensures arrays == {}
    {
      this.definitions := definitions;
      this.maxDepth := maxDepth;
      arrays := {};
    }

    /** `iterate(path, props)`. */
    method Iterate(path: seq<string>, n: Node)
      requires Closed(definitions) && Resolves(definitions, n)
      modifies this
      ensures arrays == old(arrays) + Found(definitions, maxDepth, path, n)
      decreases maxDepth - |path|, 2, 0
    {
      if |path| >= maxDepth {
        return;
      }
      match n
      case Typed(typ, items) =>
        if typ == "array" {
          arrays := arrays + {path};
          if items.None? {
            return;
          }
          IterateFields(path, definitions[Strip8(items.value)]);
        }
      case AnyOf(alts) =>
        IterateAlternatives(path, alts);
    }

    /** The loop over the alternatives of an `anyOf`: those without a
        `$ref` are skipped. */
    method IterateAlternatives(path: seq<string>, alts: seq<Option<string>>)
      requires Closed(definitions) && |path| < maxDepth
      requires forall i :: 0 <= i < |alts| && alts[i].Some? ==> Strip8(alts[i].value) in definitions
      modifies this
      ensures arrays == old(arrays) + FoundAlts(definitions, maxDepth, path, alts)
      decreases maxDepth - |path|, 1, |alts|
    {
      var i := 0;
      while i < |alts|
        invariant 0 <= i <= |alts|
        invariant arrays == old(arrays) + FoundAlts(definitions, maxDepth, path, alts[..i])
      {
        assert alts[..i + 1][..i] == alts[..i];
        if alts[i].Some? {
          IterateFields(path, definitions[Strip8(alts[i].value)]);
        }
        i := i + 1;
      }
      assert alts[..i] == alts;
    }

    /** The loop over the fields of a definition, one level down. */
    method IterateFields(path: seq<string>, props: Properties)
      requires Closed(definitions) && |path| < maxDepth && AllResolve(definitions, props)
      modifies this
      ensures arrays == old(arrays) + FoundIn(definitions, maxDepth, path, props)
      decreases maxDepth - |path|, 0, |props|
    {
      var i := 0;
      while i < |props|
        invariant 0 <= i <= |props|
        invariant arrays == old(arrays) + FoundIn(definitions, maxDepth, path, props[..i])
      {
        assert props[..i + 1][..i] == props[..i];
        var (child, n) := props[i];
        Iterate(path + [child], n);
        i := i + 1;
      }
      assert props[..i] == props;
    }
  }

  /** `_find_arrays` on the schema: every root property is walked from the
      path made of its name. */
  method FindArrays(roots: Properties, definitions: Definitions, maxDepth: int)
    returns (arrays: set<seq<string>>)
    requires Closed(definitions) && AllResolve(definitions, roots)
    ensures arrays == FoundRoots(definitions, maxDepth, roots)
  {
    var finder := new ArrayFinder(definitions, maxDepth);
    var i := 0;
    while i < |roots|
      invariant 0 <= i <= |roots|
      invariant finder.definitions == definitions && finder.maxDepth == maxDepth
      invariant finder.arrays == FoundRoots(definitions, maxDepth, roots[..i])
    {
      assert roots[..i + 1][..i] == roots[..i];
      var (root, n) := roots[i];
      finder.Iterate([root], n);
      i := i + 1;
    }
    assert roots[..i] == roots;
    arrays := finder.arrays;
  }
}
