/** The text `converter.convert` assembles from a compiled state: the sorted
    import block, the simple types (those named by a base-type alias first),
    the abstract classes, the classes and the `Document` class. */
module Emission {
  import opened Wrappers
  import opened PyStr
  import opened PyDict
  import opened Api

  /** The modules every generated file imports besides the compiler's. */
  const FixedImports: set<string> := {"urllib.request", "typing.*", "xmltodict"}

  // ---------------------------------------------------------------------
  // The import block
  // ---------------------------------------------------------------------

  /** None of the names the compiler imports is one of the fixed ones, so
      the sorted tuple of `convert` lists no name twice and is the sorted
      union of the two. */
  lemma KnownImportsApart(imports: set<string>)
    requires imports <= {"pydantic"} + KnownImports
    ensures imports !! FixedImports
    ensures |ImportNames(imports)| == |imports| + |FixedImports|
  {
    forall x | x in imports ensures x !in FixedImports {
      assert x[0] != 'u' && x[0] != 't' && x[0] != 'x';
    }
    assert |imports + FixedImports| == |imports| + |FixedImports|;
  }

  /** The line written for one name of the sorted import list, given the
      sorted typing names: `typing.*` becomes one `from typing import` of
      those names, unless there are none. */
  function ImportLine(imp: string, typing: seq<string>): string {
    if imp == "typing.*" && typing != [] then "from typing import " + Join(", ", typing) + "\n"
    else "import " + imp + "\n"
  }

  /** The typing line on its own. */
  function TypingLine(typing: seq<string>): string {
    ImportLine("typing.*", typing)
  }

  /** The text of one line per name, in the names' order. */
  function Each(line: string -> string, names: seq<string>): string
    decreases |names|
  {
    if names == [] then ""
    else Each(line, names[..|names| - 1]) + line(names[|names| - 1])
  }

  lemma {:induction false} EachAppend(line: string -> string, a: seq<string>, b: seq<string>)
    ensures Each(line, a + b) == Each(line, a) + Each(line, b)
    decreases |b|
  {
    if b == [] {
      assert a + b == a;
    } else {
      var init, last := b[..|b| - 1], b[|b| - 1];
      var ab := a + b;
      assert ab[..|ab| - 1] == a + init && ab[|ab| - 1] == last;
      EachAppend(line, a, init);
      AppendAssoc(Each(line, a), Each(line, init), line(last));
    }
  }

  /** The lines written for a list of import names, in its order. */
  function ImportLines(names: seq<string>, typing: seq<string>): string {
    Each(imp => ImportLine(imp, typing), names)
  }

  /** `sorted(tuple(imports) + ("urllib.request", "typing.*", "xmltodict"))`. */
  function ImportNames(imports: set<string>): (r: seq<string>)
    ensures forall x :: x in r <==> x in imports || x in FixedImports
    ensures forall i, j :: 0 <= i < j < |r| ==> Below(r[i], r[j])
  {
    SortedSet(imports + FixedImports)
  }

  lemma ImportLinesAppend(a: seq<string>, b: seq<string>, typing: seq<string>)
    ensures ImportLines(a + b, typing) == ImportLines(a, typing) + ImportLines(b, typing)
  {
    EachAppend(imp => ImportLine(imp, typing), a, b);
  }

  /** Regrouping a concatenation of three strings. */
  lemma AppendAssoc(a: string, b: string, c: string)
    ensures (a + b) + c == a + (b + c)
  {
  }

  lemma ImportLinesSnoc(names: seq<string>, i: int, typing: seq<string>)
    requires 0 <= i < |names|
    ensures ImportLines(names[..i + 1], typing) == ImportLines(names[..i], typing) + ImportLine(names[i], typing)
  {
    assert names[..i + 1][..i] == names[..i];
  }

  /** The import block has exactly one line for `typing`, at the sorted
      position of `"typing.*"`: `from typing import` with the sorted typing
      names, or `import typing.*` when there are none. Every other line
      imports one other name, in sorted order. */
  lemma ImportBlockTypingLine(imports: set<string>, typing: seq<string>)
    ensures var names := ImportNames(imports);
      exists i :: 0 <= i < |names| && names[i] == "typing.*"
        && "typing.*" !in names[..i] && "typing.*" !in names[i + 1..]
        && ImportLines(names, typing)
           == ImportLines(names[..i], typing) + TypingLine(typing) + ImportLines(names[i + 1..], typing)
  {
    var names := ImportNames(imports);
    assert "typing.*" in names;
    SortedDistinct(names);
    var i := TypingLineAt(names, typing);
  }

  /** The split of the import lines around the one `"typing.*"` of a list
      without repetitions. */
  lemma TypingLineAt(names: seq<string>, typing: seq<string>) returns (i: int)
    requires "typing.*" in names
    requires forall i, j :: 0 <= i < j < |names| ==> names[i] != names[j]
    ensures 0 <= i < |names| && names[i] == "typing.*"
    ensures "typing.*" !in names[..i] && "typing.*" !in names[i + 1..]
    ensures ImportLines(names, typing)
            == ImportLines(names[..i], typing) + TypingLine(typing) + ImportLines(names[i + 1..], typing)
  {
    i :| 0 <= i < |names| && names[i] == "typing.*";
    var before, after := names[..i], names[i + 1..];
    forall j | 0 <= j < |before| ensures before[j] != "typing.*" {
      assert before[j] == names[j];
    }
    forall j | 0 <= j < |after| ensures after[j] != "typing.*" {
      assert after[j] == names[i + 1 + j];
    }
    assert names == before + [names[i]] + after;
    ImportLinesAppend(before + [names[i]], after, typing);
    ImportLinesAppend(before, [names[i]], typing);
    assert ImportLines([names[i]], typing) == TypingLine(typing) by {
      assert [names[i]][..0] == [];
    }
  }

  // ---------------------------------------------------------------------
  // The simple types that go first
  // ---------------------------------------------------------------------

  /** The alias names, in alias order, that name a simple type. */
  function Popped(aliasKeys: seq<string>, simple: map<string, string>): (r: seq<string>)
    ensures forall k :: k in r <==> k in aliasKeys && k in simple
    ensures Distinct(aliasKeys) ==> Distinct(r)
    decreases |aliasKeys|
  {
    if aliasKeys == [] then []
    else
      var init := aliasKeys[..|aliasKeys| - 1];
      var k := aliasKeys[|aliasKeys| - 1];
      assert aliasKeys == init + [k];
      Popped(init, simple) + (if k in simple then [k] else [])
  }

  /** The keys of `s` that are not in `ks`, in their order. */
  function Without(s: seq<string>, ks: seq<string>): (r: seq<string>)
    ensures forall k :: k in r <==> k in s && k !in ks
    ensures Distinct(s) ==> Distinct(r)
  {
    if s == [] then []
    else
      assert s == [s[0]] + s[1..];
      (if s[0] in ks then [] else [s[0]]) + Without(s[1..], ks)
  }

  lemma {:induction false} RemoveWithout(s: seq<string>, ks: seq<string>, k: string)
    ensures Remove(Without(s, ks), k) == Without(s, ks + [k])
  {
    if s != [] {
      RemoveWithout(s[1..], ks, k);
      var rest := Without(s[1..], ks);
      var rest' := Without(s[1..], ks + [k]);
      assert Remove(rest, k) == rest';
      if s[0] in ks {
        assert s[0] in ks + [k];
        assert Without(s, ks) == [] + rest == rest;
        assert Without(s, ks + [k]) == [] + rest' == rest';
      } else {
        var w := [s[0]] + rest;
        assert Without(s, ks) == w;
        assert w[0] == s[0] && w[1..] == rest;
        if s[0] == k {
          assert s[0] in ks + [k];
          assert Remove(w, k) == [] + Remove(rest, k) == rest';
          assert Without(s, ks + [k]) == [] + rest' == rest';
        } else {
          assert s[0] !in ks + [k];
          assert Remove(w, k) == [s[0]] + rest';
          assert Without(s, ks + [k]) == [s[0]] + rest';
        }
      }
    }
  }

  /** The lines `v + "\n"` of the values of `m` under `ks`, in that order. */
  function LinesOf(m: map<string, string>, ks: seq<string>): string
    requires forall k :: k in ks ==> k in m
    decreases |ks|
  {
    if ks == [] then ""
    else LinesOf(m, ks[..|ks| - 1]) + m[ks[|ks| - 1]] + "\n"
  }

  /** What the loop over the alias names leaves: the text of the popped
      simple types, and the simple types that are left. */
  datatype Split = Split(text: string, rest: Dict<string>)

  /** The loop `for cls in base_type_aliases.keys(): simple_types.pop(cls, None)`
      with its output: each alias name that is still a key of the simple
      types is popped, and its value written, followed by a line break. */
  function Prioritize(aliasKeys: seq<string>, simple: Dict<string>): (r: Split)
    requires simple.Valid()
    ensures r.rest.Valid()
    decreases |aliasKeys|
  {
    if aliasKeys == [] then Split("", simple)
    else PrioritizeStep(aliasKeys[|aliasKeys| - 1], Prioritize(aliasKeys[..|aliasKeys| - 1], simple))
  }

  /** One pass of that loop: the popped value, if any, and its line break
      are written after the text so far. */
  function PrioritizeStep(k: string, before: Split): (r: Split)
    requires before.rest.Valid()
    ensures r.rest.Valid()
  {
    match before.rest.Get(k)
    case Some(v) => Split(before.text + (v + "\n"), before.rest.Pop(k))
    case None => before
  }

  /** The simple types left are those not named by an alias, with their
      values. */
  lemma {:induction false} PrioritizeEntries(aliasKeys: seq<string>, simple: Dict<string>)
    requires simple.Valid()
    ensures var rest := Prioritize(aliasKeys, simple).rest;
      && (forall k :: k in rest.entries <==> k in simple.entries && k !in aliasKeys)
      && (forall k :: k in rest.entries ==> rest.entries[k] == simple.entries[k])
    decreases |aliasKeys|
  {
    if aliasKeys != [] {
      var init := aliasKeys[..|aliasKeys| - 1];
      var k := aliasKeys[|aliasKeys| - 1];
      assert aliasKeys == init + [k];
      PrioritizeEntries(init, simple);
    }
  }

  /** The simple types left keep their insertion order. */
  lemma {:induction false} PrioritizeKeys(aliasKeys: seq<string>, simple: Dict<string>)
    requires simple.Valid()
    ensures Prioritize(aliasKeys, simple).rest.keys == Without(simple.keys, aliasKeys)
    decreases |aliasKeys|
  {
    if aliasKeys == [] {
      WithoutNothing(simple.keys);
    } else {
      var init := aliasKeys[..|aliasKeys| - 1];
      var k := aliasKeys[|aliasKeys| - 1];
      assert aliasKeys == init + [k];
      PrioritizeKeys(init, simple);
      var before := Prioritize(init, simple);
      RemoveWithout(simple.keys, init, k);
      if k !in before.rest.entries {
        RemoveAbsent(before.rest.keys, k);
      }
    }
  }

  lemma {:induction false} RemoveAbsent(s: seq<string>, k: string)
    requires k !in s
    ensures Remove(s, k) == s
  {
    if s != [] {
      assert k !in s[1..];
      RemoveAbsent(s[1..], k);
      assert s == [s[0]] + s[1..];
    }
  }

  /** With distinct alias names (the keys of a dict), the simple types
      named by aliases come out in alias order, each followed by a line
      break. */
  lemma {:induction false} PrioritizeText(aliasKeys: seq<string>, simple: Dict<string>)
    requires simple.Valid() && Distinct(aliasKeys)
    ensures Prioritize(aliasKeys, simple).text == LinesOf(simple.entries, Popped(aliasKeys, simple.entries))
    decreases |aliasKeys|
  {
    if aliasKeys != [] {
      var init := aliasKeys[..|aliasKeys| - 1];
      var k := aliasKeys[|aliasKeys| - 1];
      assert aliasKeys == init + [k];
      assert Distinct(init) by {
        forall i, j | 0 <= i < j < |init| ensures init[i] != init[j] {
          assert init[i] == aliasKeys[i] && init[j] == aliasKeys[j];
        }
      }
      assert k !in init by {
        forall i | 0 <= i < |init| ensures init[i] != k {
          assert init[i] == aliasKeys[i];
        }
      }
      PrioritizeText(init, simple);
      PrioritizeEntries(init, simple);
      var p := Popped(init, simple.entries);
      if k in simple.entries {
        assert Popped(aliasKeys, simple.entries) == p + [k];
        assert (p + [k])[..|p|] == p;
      } else {
        assert Popped(aliasKeys, simple.entries) == p;
      }
    }
  }

  /** The three facts together. */
  lemma PrioritizeSpec(aliasKeys: seq<string>, simple: Dict<string>)
    requires simple.Valid() && Distinct(aliasKeys)
    ensures var r := Prioritize(aliasKeys, simple);
      && r.text == LinesOf(simple.entries, Popped(aliasKeys, simple.entries))
      && r.rest.keys == Without(simple.keys, aliasKeys)
      && forall k :: k in r.rest.entries ==> r.rest.entries[k] == simple.entries[k]
  {
    PrioritizeText(aliasKeys, simple);
    PrioritizeKeys(aliasKeys, simple);
    PrioritizeEntries(aliasKeys, simple);
  }

  lemma {:induction false} WithoutNothing(s: seq<string>)
    ensures Without(s, []) == s
  {
    if s != [] {
      WithoutNothing(s[1..]);
    }
  }

  /** Every simple type is written exactly once: the popped names followed
      by the remaining keys list each simple type's name, and nothing else,
      without repetition. */
  lemma EachSimpleTypeOnce(aliasKeys: seq<string>, simple: Dict<string>)
    requires simple.Valid() && Distinct(aliasKeys)
    ensures var order := Popped(aliasKeys, simple.entries) + Prioritize(aliasKeys, simple).rest.keys;
      && Distinct(order)
      && forall k :: k in order <==> k in simple.keys
  {
    PrioritizeSpec(aliasKeys, simple);
    var p := Popped(aliasKeys, simple.entries);
    var w := Without(simple.keys, aliasKeys);
    var order := p + w;
    forall i, j | 0 <= i < j < |order| ensures order[i] != order[j] {
      if j < |p| {
        assert order[i] == p[i] && order[j] == p[j];
      } else if i >= |p| {
        assert order[i] == w[i - |p|] && order[j] == w[j - |p|];
      } else {
        assert order[i] == p[i] && order[j] == w[j - |p|];
        assert order[i] in p && order[j] in w;
      }
    }
  }

  // ---------------------------------------------------------------------
  // The generated module
  // ---------------------------------------------------------------------

  /** `f"{cls}\n"` for each value of a dict, in insertion order. */
  function Lines(d: Dict<string>): string
    requires d.Valid()
  {
    LinesOf(d.entries, d.keys)
  }

  /** `f"\t{attr}\n"` for each value of a dict, in insertion order. */
  function Indented(m: map<string, string>, ks: seq<string>): string
    requires forall k :: k in ks ==> k in m
    decreases |ks|
  {
    if ks == [] then ""
    else Indented(m, ks[..|ks| - 1]) + "\t" + m[ks[|ks| - 1]] + "\n"
  }

  /** One blank line after a section that is not empty. */
  function Gap(d: Dict<string>): string {
    if d.keys != [] then "\n" else ""
  }

  /** `str(state.root_annotation)`. */
  function AnnotationText(a: Option<string>): string {
    if a.Some? then a.value else "None"
  }

  /** The root annotation as a tab-indented docstring line. */
  function Docstring(annotation: Option<string>): string {
    "\t\"\"\"" + AnnotationText(annotation) + "\"\"\"\n"
  }

  /** The head of the `Document` class, with the `__xsd_data__` mapping as
      `dataRepr` spells it. */
  function DocumentHead(dataRepr: string): string {
    "class Document(pydantic.BaseModel):\n\n\t__xsd_data__ = " + dataRepr + "\n\n"
  }

  /** The text `convert` assembles from a compiled state before it loads
      it: the sorted import block and a blank line; the simple types named
      by aliases in alias order, then the other simple types, the abstract
      classes and the classes in insertion order, each non-empty section
      followed by a blank line; then the `Document` class with one field per
      document attribute. */
  function Emitted(s: State, dataRepr: string): (r: string)
    requires s.Valid()
    ensures StartsWith(r, ImportLines(ImportNames(s.imports), SortedSet(s.typingImports)) + "\n")
    ensures EndsWith(r, Indented(s.documentAttributes.entries, s.documentAttributes.keys))
  {
    var first := Prioritize(s.baseTypeAliases.keys, s.simpleTypes);
    var imports := ImportLines(ImportNames(s.imports), SortedSet(s.typingImports)) + "\n";
    var fields := Indented(s.documentAttributes.entries, s.documentAttributes.keys);
    var a := first.text;
    var b := Lines(first.rest);
    var c := Gap(first.rest);
    var d := Lines(s.abstractClasses);
    var e := Gap(s.abstractClasses);
    var f := Lines(s.classes);
    var g := Gap(s.classes);
    var h := Docstring(s.rootAnnotation);
    var k := DocumentHead(dataRepr);
    var body := imports + a + b + c + d + e + f + g + h + k;
    ConcatKeepsEnds(imports, a, "");
    PrefixExtended(imports + a, b, imports);
    PrefixExtended(imports + a + b, c, imports);
    PrefixExtended(imports + a + b + c, d, imports);
    PrefixExtended(imports + a + b + c + d, e, imports);
    PrefixExtended(imports + a + b + c + d + e, f, imports);
    PrefixExtended(imports + a + b + c + d + e + f, g, imports);
    PrefixExtended(imports + a + b + c + d + e + f + g, h, imports);
    PrefixExtended(imports + a + b + c + d + e + f + g + h, k, imports);
    PrefixExtended(body, fields, imports);
    ConcatKeepsEnds(body, fields, fields);
    body + fields
  }

  /** The section of simple types: those named by aliases first, in alias
      order, then the rest in insertion order, each exactly once. */
  lemma SimpleTypesSection(s: State)
    requires s.Valid()
    ensures var first := Prioritize(s.baseTypeAliases.keys, s.simpleTypes);
      var order := Popped(s.baseTypeAliases.keys, s.simpleTypes.entries) + first.rest.keys;
      && (forall k :: k in order ==> k in s.simpleTypes.entries)
      && first.text + Lines(first.rest) == LinesOf(s.simpleTypes.entries, order)
  {
    var first := Prioritize(s.baseTypeAliases.keys, s.simpleTypes);
    var p := Popped(s.baseTypeAliases.keys, s.simpleTypes.entries);
    var m := s.simpleTypes.entries;
    PrioritizeSpec(s.baseTypeAliases.keys, s.simpleTypes);
    assert LinesOf(first.rest.entries, first.rest.keys) == LinesOf(m, first.rest.keys) by {
      LinesOfAgree(first.rest.entries, m, first.rest.keys);
    }
    LinesOfAppend(m, p, first.rest.keys);
  }

  lemma {:induction false} LinesOfAgree(m: map<string, string>, n: map<string, string>, ks: seq<string>)
    requires forall k :: k in ks ==> k in m && k in n && m[k] == n[k]
    ensures LinesOf(m, ks) == LinesOf(n, ks)
    decreases |ks|
  {
    if ks != [] {
      LinesOfAgree(m, n, ks[..|ks| - 1]);
    }
  }

  lemma {:induction false} LinesOfAppend(m: map<string, string>, a: seq<string>, b: seq<string>)
    requires forall k :: k in a + b ==> k in m
    ensures LinesOf(m, a + b) == LinesOf(m, a) + LinesOf(m, b)
    decreases |b|
  {
    if b == [] {
      assert a + b == a;
    } else {
      var init := b[..|b| - 1];
      assert (a + b)[..|a + b| - 1] == a + init;
      LinesOfAppend(m, a, init);
    }
  }

  /** The emission block of `convert` on the state object: the output is
      built up section by section, and the prioritised simple types are
      popped out of `simple_types`. */
  method Emit(st: ConverterState, dataRepr: string) returns (output: string)
    requires st.Valid()
    modifies st
    ensures output == Emitted(old(st.Value()), dataRepr)
    ensures st.Value() == old(st.Value()).(simpleTypes := Prioritize(old(st.baseTypeAliases.keys), old(st.simpleTypes)).rest)
  {
    ghost var s0 := st.Value();
    output := EmitImports(ImportNames(st.imports), SortedSet(st.typingImports));
    output := output + "\n";
    var prioritized := PopPrioritized(st);
    output := output + prioritized;
    ghost var first := Prioritize(s0.baseTypeAliases.keys, s0.simpleTypes);
    assert output == ImportLines(ImportNames(s0.imports), SortedSet(s0.typingImports)) + "\n" + first.text;
    output := AppendLines(output, st.simpleTypes);
    output := AppendGap(output, st.simpleTypes);
    output := AppendLines(output, st.abstractClasses);
    output := AppendGap(output, st.abstractClasses);
    output := AppendLines(output, st.classes);
    output := AppendGap(output, st.classes);
    output := output + Docstring(st.rootAnnotation);
    output := output + DocumentHead(dataRepr);
    output := AppendIndented(output, st.documentAttributes);
  }

  /** `if d: output += "\n"`. */
  method AppendGap(head: string, d: Dict<string>) returns (output: string)
    ensures output == head + Gap(d)
  {
    output := head;
    if d.keys != [] {
      output := output + "\n";
    } else {
      assert head + "" == head;
    }
  }

  /** The loop over the sorted import names. */
  method EmitImports(names: seq<string>, typing: seq<string>) returns (output: string)
    ensures output == ImportLines(names, typing)
  {
    output := "";
    var i := 0;
    while i < |names|
      invariant 0 <= i <= |names|
      invariant output == ImportLines(names[..i], typing)
    {
      ImportLinesSnoc(names, i, typing);
      var line;
      if names[i] == "typing.*" && typing != [] {
        line := "from typing import " + Join(", ", typing) + "\n";
      } else {
        line := "import " + names[i] + "\n";
      }
      output := output + line;
      i := i + 1;
    }
    assert names[..i] == names;
  }

  /** The loop that pops the simple types named by aliases out of
      `simple_types`; it returns what it writes. */
  method PopPrioritized(st: ConverterState) returns (text: string)
    requires st.simpleTypes.Valid()
    modifies st
    ensures text == Prioritize(old(st.baseTypeAliases.keys), old(st.simpleTypes)).text
    ensures st.Value() == old(st.Value()).(simpleTypes := Prioritize(old(st.baseTypeAliases.keys), old(st.simpleTypes)).rest)
  {
    ghost var simple := st.simpleTypes;
    var keys := st.baseTypeAliases.keys;
    text := "";
    var i := 0;
    while i < |keys|
      invariant 0 <= i <= |keys|
      invariant st.Value() == old(st.Value()).(simpleTypes := st.simpleTypes)
      invariant Split(text, st.simpleTypes) == Prioritize(keys[..i], simple)
    {
      assert keys[..i + 1][..i] == keys[..i];
      text := PopOne(st, keys[i], text);
      i := i + 1;
    }
    assert keys[..i] == keys;
  }

  /** One pass: `simple_types.pop(cls, None)` and, when it gave a value, the
      value and a line break are written. */
  method PopOne(st: ConverterState, k: string, head: string) returns (text: string)
    requires st.simpleTypes.Valid()
    modifies st
    ensures Split(text, st.simpleTypes) == PrioritizeStep(k, Split(head, old(st.simpleTypes)))
    ensures st.Value() == old(st.Value()).(simpleTypes := st.simpleTypes)
  {
    text := head;
    var popped := st.simpleTypes.Get(k);
    if popped.Some? {
      st.simpleTypes := st.simpleTypes.Pop(k);
      text := text + (popped.value + "\n");
    }
  }

  /** `for cls in d.values(): output += cls + "\n"`. */
  method AppendLines(head: string, d: Dict<string>) returns (output: string)
    requires d.Valid()
    ensures output == head + Lines(d)
  {
    output := head;
    var i := 0;
    while i < |d.keys|
      invariant 0 <= i <= |d.keys|
      invariant output == head + LinesOf(d.entries, d.keys[..i])
    {
      assert d.keys[..i + 1][..i] == d.keys[..i];
      output := output + d.entries[d.keys[i]] + "\n";
      i := i + 1;
    }
    assert d.keys[..i] == d.keys;
  }

  /** `for attr in d.values(): output += f"\t{attr}\n"`. */
  method AppendIndented(head: string, d: Dict<string>) returns (output: string)
    requires d.Valid()
    ensures output == head + Indented(d.entries, d.keys)
  {
    output := head;
    var i := 0;
    while i < |d.keys|
      invariant 0 <= i <= |d.keys|
      invariant output == head + Indented(d.entries, d.keys[..i])
    {
      assert d.keys[..i + 1][..i] == d.keys[..i];
      output := output + "\t" + d.entries[d.keys[i]] + "\n";
      i := i + 1;
    }
    assert d.keys[..i] == d.keys;
  }
}
