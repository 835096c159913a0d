/** `xsd.py`: the parsed XSD tree and the converters that turn each node into
    pydantic source text while writing into the shared `ConverterState`.

    Each converter appears twice: a function `Render(s)` that gives the text
    and the next state as values, with the promised properties as its
    contract, and a method `Convert(st)` that works on the `ConverterState`
    object in place, step by step as the Python code does, proved to agree
    with `Render`. */
module Xsd {
  import opened Wrappers
  import opened PyStr
  import opened PyDict
  import opened Utils
  import opened Api

  // ---------------------------------------------------------------------
  // The primitive table
  // ---------------------------------------------------------------------

  /** An entry of `TYPES`: a bare scalar, or a scalar with a constraint text. */
  datatype Primitive = Scalar(scalar: string) | Constrained(scalar: string, rule: string)

  /** The `pattern` constraint of `xsd:gYear` (section 3.2.11 of XML Schema
      Part 2: Datatypes), as the Python raw string spells it. */
  const GYearRule: string :=
    @"pydantic.constr(pattern=r""^[-]?\d{4,}(?:Z|[+-]{1}\d{2}[:]?\d{2})?$"")"

  /** `TYPES`: the XSD built-in types the compiler knows, in the order the
      Python mapping lists them. Every key of the mapping is `"xsd:"`
      followed by the local name listed here. The bounds of the unsigned
      types are 2**8, 2**16 and 2**32. */
  const TypeTable: seq<(string, Primitive)> := [
    ("double", Scalar("float")),
    ("integer", Scalar("int")),
    ("float", Scalar("float")),
    ("decimal", Scalar("float")),
    ("anyURI", Scalar("pydantic.AnyUrl")),
    ("token", Scalar("str")),
    ("positiveInteger", Constrained("int", "annotated_types.Gt(0)")),
    ("unsignedByte", Constrained("int", "annotated_types.Ge(0), annotated_types.Lt(256)")),
    ("string", Scalar("str")),
    ("dateTime", Scalar("datetime.datetime")),
    ("date", Scalar("datetime.date")),
    ("unsignedShort", Constrained("int", "annotated_types.Ge(0), annotated_types.Lt(65536)")),
    ("unsignedInt", Constrained("int", "annotated_types.Ge(0), annotated_types.Lt(4294967296)")),
    ("nonNegativeInteger", Constrained("int", "annotated_types.Ge(0)")),
    ("boolean", Scalar("bool")),
    ("gYear", Constrained("str", GYearRule))
  ]

  /** The entry for the local name `n` in `table`, if any: the first one,
      which, like every entry, is well formed. */
  function Find(table: seq<(string, Primitive)>, n: string): (r: Option<Primitive>)
    requires forall i :: 0 <= i < |table| ==> WellFormedEntry(table[i])
    ensures r.Some? ==> WellFormedEntry((n, r.value))
  {
    if table == [] then None
    else if table[0].0 == n then Some(table[0].1)
    else Find(table[1..], n)
  }

  /** An entry whose scalar does not start with `x` (so never with `xsd:`)
      and whose constraint, if any, is not empty and goes with a scalar that
      does not start with `d` (so never with `datetime.`). */
  predicate WellFormedEntry(e: (string, Primitive)) {
    && |e.1.scalar| > 0 && e.1.scalar[0] != 'x'
    && (e.1.Constrained? ==> |e.1.rule| > 0 && e.1.scalar[0] != 'd')
  }

  lemma TableWellFormed()
    ensures forall i :: 0 <= i < |TypeTable| ==> WellFormedEntry(TypeTable[i])
  {
  }

  /** `TYPES.get(t)`. A known type carries the `xsd:` prefix and maps to a
      scalar that does not, so a scalar is never found again; a constraint
      is never empty. */
  function Lookup(t: string): (r: Option<Primitive>)
    ensures r.Some? ==> StartsWith(t, "xsd:") && |t| >= 4
    ensures r.Some? ==> |r.value.scalar| > 0 && r.value.scalar[0] != 'x'
    ensures r.Some? && r.value.Constrained? ==> r.value.rule != ""
    ensures r.Some? && r.value.Constrained? ==> !StartsWith(r.value.scalar, "datetime.")
  {
    TableWellFormed();
    if StartsWith(t, "xsd:") then Find(TypeTable, t[4..]) else None
  }

  /** A scalar the table maps to is not itself in the table. */
  lemma ScalarNotKnown(t: string)
    requires Lookup(t).Some?
    ensures Lookup(Lookup(t).value.scalar).None?
  {
    var scalar := Lookup(t).value.scalar;
    assert scalar[0] != "xsd:"[0];
  }

  /** Whether `_base_type` writes a synthesised alias for `t`: a constrained
      primitive met inside a complex type. */
  predicate Synthesizes(t: string, inComplex: bool) {
    Lookup(t).Some? && Lookup(t).value.Constrained? && inComplex && StartsWith(t, "xsd:")
  }

  /** The name `_base_type` returns for `t`. */
  function ResolvedName(t: string, inComplex: bool): string {
    if Lookup(t).None? then t
    else if Synthesizes(t, inComplex) then t[4..]
    else Lookup(t).value.scalar
  }

  /** The rule `_base_type` returns for `t`. */
  function RuleOf(t: string): Option<string> {
    if Lookup(t).Some? && Lookup(t).value.Constrained? then Some(Lookup(t).value.rule) else None
  }

  /** The line `_base_type` stores in `simple_types` for a synthesised alias. */
  function SynthesizedLine(t: string): string
    requires Lookup(t).Some? && Lookup(t).value.Constrained?
  {
    t[4..] + ": TypeAlias = Annotated[" + Lookup(t).value.scalar + ", " + Lookup(t).value.rule + "]"
  }

  // ---------------------------------------------------------------------
  // Results and the state discipline of the converters
  // ---------------------------------------------------------------------

  /** What `_base_type` returns, with the state it leaves. */
  datatype Resolved = Resolved(base: string, rule: Option<string>, state: State)

  /** What a `_convert` returns, with the state it leaves. */
  datatype Rendered = Rendered(text: string, state: State)

  /** What a node converter may do to the state: add known names to the two
      import sets and write aliases and simple types; the root data, the
      root annotation, the document attributes, the classes and the context
      flag stay as they are. */
  ghost predicate Grows(s: State, t: State) {
    && t.Valid()
    && s.imports <= t.imports && t.imports - s.imports <= KnownImports
    && s.typingImports <= t.typingImports && t.typingImports - s.typingImports <= KnownTypingImports
    && t.xsdData == s.xsdData && t.rootAnnotation == s.rootAnnotation
    && t.documentAttributes == s.documentAttributes
    && t.abstractClasses == s.abstractClasses && t.classes == s.classes
    && t.inComplex == s.inComplex
  }

  /** The `datetime` import that `_base_type` adds for a `datetime.` base. */
  function WithDatetime(s: State, base: string): State {
    if StartsWith(base, "datetime.") then s.(imports := s.imports + {"datetime"}) else s
  }

  // ---------------------------------------------------------------------
  // _base_type and XSDSimpleType, which call each other
  // ---------------------------------------------------------------------

  /** `_base_type(name, type, state)`. An unknown type comes back unchanged
      and touches nothing but the `datetime` import; a known one is recorded
      under `name` in `base_type_aliases`; a constrained one inside a complex
      type also gets a synthesised `TypeAlias` line under the type's name
      without its `xsd:` prefix, and that name is what comes back. */
  function BaseTypeOf(name: string, t: string, s: State): (r: Resolved)
    requires s.Valid()
    ensures r.base == ResolvedName(t, s.inComplex) && r.rule == RuleOf(t)
    ensures Grows(s, r.state)
    ensures r.state.imports == s.imports + (if StartsWith(r.base, "datetime.") then {"datetime"} else {})
    ensures Lookup(t).None? ==> r.state.baseTypeAliases == s.baseTypeAliases
    ensures Lookup(t).Some? ==> r.state.baseTypeAliases == s.baseTypeAliases.Put(name, r.base)
    ensures Synthesizes(t, s.inComplex) ==>
              && r.state.simpleTypes == s.simpleTypes.Put(t[4..], SynthesizedLine(t))
              && r.state.typingImports == s.typingImports + {"TypeAlias"} + {"Annotated"}
    ensures !Synthesizes(t, s.inComplex) ==>
              r.state.simpleTypes == s.simpleTypes && r.state.typingImports == s.typingImports
    decreases if Lookup(t).Some? then 1 else 0, 0
  {
    if Lookup(t).None? then
      Resolved(t, None, WithDatetime(s, t))
    else
      match Lookup(t).value
      case Scalar(b) =>
        var s1 := s.(baseTypeAliases := s.baseTypeAliases.Put(name, b));
        Resolved(b, None, WithDatetime(s1, b))
      case Constrained(b, rule) =>
        if s.inComplex && StartsWith(t, "xsd:") then
          var newType := t[4..];
          var s1 := Synthesized(t, s);
          var s2 := s1.(baseTypeAliases := s1.baseTypeAliases.Put(name, newType));
          Resolved(newType, Some(rule), WithDatetime(s2, newType))
        else
          var s1 := s.(baseTypeAliases := s.baseTypeAliases.Put(name, b));
          Resolved(b, Some(rule), WithDatetime(s1, b))
  }

  /** `Find` returns the entry of the first occurrence of the name. */
  lemma {:induction false} FindFirst(table: seq<(string, Primitive)>, n: string, k: nat)
    requires forall i :: 0 <= i < |table| ==> WellFormedEntry(table[i])
    requires k < |table| && table[k].0 == n
    requires forall i :: 0 <= i < k ==> table[i].0 != n
    ensures Find(table, n) == Some(table[k].1)
  {
    if k > 0 {
      FindFirst(table[1..], n, k - 1);
    }
  }

  /** `TYPES["xsd:positiveInteger"]` is `int` constrained by `Gt(0)`. */
  lemma PositiveIntegerEntry()
    ensures Lookup("xsd:positiveInteger") == Some(Constrained("int", "annotated_types.Gt(0)"))
  {
    TableWellFormed();
    var t := "xsd:positiveInteger";
    assert t[..4] == "xsd:" && t[4..] == "positiveInteger";
    FindFirst(TypeTable, "positiveInteger", 6);
  }

  /** `_base_type` returns the `annotated_types` rule of a primitive such as
      `xsd:positiveInteger` but never imports `annotated_types` itself: only
      an inclusive bound of a restriction does. */
  lemma ConstrainedBaseImportsNothing(name: string, s: State)
    requires s.Valid() && "annotated_types" !in s.imports
    ensures var r := BaseTypeOf(name, "xsd:positiveInteger", s);
      r.rule == Some("annotated_types.Gt(0)") && "annotated_types" !in r.state.imports
  {
    PositiveIntegerEntry();
  }

  /** The alias `_base_type` writes for a constrained primitive inside a
      complex type: it converts a nested simple type with a bare
      restriction of the scalar, then replaces the trailing `None]` of its
      line with the rule. The nested conversion adds `TypeAlias` and
      `Annotated` to the `typing` imports and does nothing else. */
  function Synthesized(t: string, s: State): (r: State)
    requires s.Valid() && Synthesizes(t, s.inComplex)
    ensures Grows(s, r)
    ensures r == s.(typingImports := s.typingImports + {"TypeAlias"} + {"Annotated"},
                    simpleTypes := s.simpleTypes.Put(t[4..], SynthesizedLine(t)))
    decreases 0, 3
  {
    var b := Lookup(t).value.scalar;
    var rule := Lookup(t).value.rule;
    ScalarNotKnown(t);
    var newType := t[4..];
    var nested := SimpleType(newType, Restriction.Bare(b)).Render(s);
    BareLine(newType, b, s.inComplex);
    DropLastAppended(newType + ": TypeAlias = Annotated[" + b + ", ", "None]");
    nested.state.(simpleTypes := nested.state.simpleTypes.Put(
      newType, DropLast(nested.text, 5) + (if rule != "" then rule else "None") + "]"))
  }

  /** The alias-writing step of `_base_type` on the state object. */
  method Synthesize(t: string, st: ConverterState)
    requires st.Valid() && Synthesizes(t, st.inComplex)
    modifies st
    ensures st.Value() == Synthesized(t, old(st.Value()))
    decreases 0, 3
  {
    var b := Lookup(t).value.scalar;
    var r := Lookup(t).value.rule;
    ScalarNotKnown(t);
    var newType := t[4..];
    var nested := SimpleType(newType, Restriction.Bare(b)).Convert(st);
    st.simpleTypes := st.simpleTypes.Put(
      newType, DropLast(nested, 5) + (if r != "" then r else "None") + "]");
  }

  /** `_base_type` as the Python code runs it, on the state object. */
  method BaseType(name: string, t: string, st: ConverterState) returns (base: string, rule: Option<string>)
    requires st.Valid()
    modifies st
    ensures Resolved(base, rule, st.Value()) == BaseTypeOf(name, t, old(st.Value()))
    decreases if Lookup(t).Some? then 1 else 0, 0
  {
    rule := None;
    if Lookup(t).None? {
      base := t;
    } else {
      match Lookup(t).value
      case Scalar(b) =>
        base := b;
        st.baseTypeAliases := st.baseTypeAliases.Put(name, base);
      case Constrained(b, r) =>
        base, rule := b, Some(r);
        if st.inComplex && StartsWith(t, "xsd:") {
          Synthesize(t, st);
          base := t[4..];
        }
        st.baseTypeAliases := st.baseTypeAliases.Put(name, base);
    }
    ghost var before := st.Value();
    if StartsWith(base, "datetime.") {
      st.imports := st.imports + {"datetime"};
    }
    assert st.Value() == WithDatetime(before, base);
  }

  /** A type the table does not know comes back unchanged, with no rule,
      and leaves the aliases and the simple types alone. */
  lemma BaseTypeOfUnknown(name: string, t: string, s: State)
    requires s.Valid() && Lookup(t).None?
    ensures var r := BaseTypeOf(name, t, s);
      && r.base == t && r.rule == None
      && r.state.baseTypeAliases == s.baseTypeAliases && r.state.simpleTypes == s.simpleTypes
  {
  }

  /** A constrained primitive: inside a complex type the alias named after
      the type (prefix dropped) is written and returned; outside, the scalar
      comes back and `simple_types` is not touched. Either way the rule is
      the table's. */
  lemma BaseTypeOfConstrained(name: string, t: string, s: State, scalar: string, rule: string)
    requires s.Valid() && Lookup(t) == Some(Constrained(scalar, rule))
    ensures var r := BaseTypeOf(name, t, s);
      && r.rule == Some(rule)
      && (s.inComplex ==>
            && r.base == t[4..]
            && r.state.simpleTypes.Get(t[4..])
               == Some(t[4..] + ": TypeAlias = Annotated[" + scalar + ", " + rule + "]")
            && r.state.baseTypeAliases.Get(name) == Some(t[4..]))
      && (!s.inComplex ==>
            && r.base == scalar
            && r.state.simpleTypes == s.simpleTypes
            && r.state.baseTypeAliases.Get(name) == Some(scalar))
  {
  }

  /** `repr(list(values))` for strings without quotes or backslashes: a
      bracketed list, empty for no values, whose first item is the first
      value in single quotes. */
  function ListRepr(values: seq<string>): (r: string)
    ensures StartsWith(r, "[") && EndsWith(r, "]")
    ensures values == [] <==> r == "[]"
    ensures values != [] ==> StartsWith(r, "['" + values[0] + "'")
  {
    var quoted := seq(|values|, i requires 0 <= i < |values| => "'" + values[i] + "'");
    var r := "[" + Join(", ", quoted) + "]";
    ConcatKeepsEnds("[" + Join(", ", quoted), "]", "]");
    ConcatKeepsEnds("[", Join(", ", quoted), "");
    StartsWithTrans(r, "[" + Join(", ", quoted), "[");
    if values == [] then r
    else
      JoinStartsWithFirst(", ", quoted);
      assert r[1..|quoted[0]| + 1] == quoted[0];
      r
  }

  /** `XSDSimpleType`: a named restriction of a base type. */
  datatype SimpleType = SimpleType(name: string, restriction: Restriction) {

    /** The base a simple type's alias line names. */
    function BaseText(inComplex: bool): string {
      if restriction.enumeration.Some? then "Literal" + ListRepr(restriction.enumeration.value)
      else ResolvedName(restriction.base, inComplex)
    }

    /** The rule of the base type that goes in front of the facet rules: none
        for an enumeration or an unconstrained base. */
    function BaseRule(): Option<string> {
      if restriction.enumeration.Some? then None else RuleOf(restriction.base)
    }

    /** The `TypeAlias` line, which depends on the state only through the
        complex-type flag. The base rule is followed by `" ,"`. */
    function Line(inComplex: bool): (r: string)
      ensures StartsWith(r, name + ": TypeAlias = Annotated[" + BaseText(inComplex) + ", ")
      ensures EndsWith(r, restriction.Constraint() + "]")
      ensures BaseRule().None? ==>
        r == name + ": TypeAlias = Annotated[" + BaseText(inComplex) + ", " + restriction.Constraint() + "]"
    {
      var rule := BaseRule();
      var head := name + ": TypeAlias = Annotated[" + BaseText(inComplex) + ", ";
      var ruleText := if rule.Some? && rule.value != "" then rule.value + " ," else "";
      var c := restriction.Constraint();
      ConcatKeepsEnds(head, ruleText, "");
      PrefixExtended(head + ruleText, c, head);
      PrefixExtended(head + ruleText + c, "]", head);
      ConcatKeepsEnds(head + ruleText, c + "]", c + "]");
      assert head + ruleText + c + "]" == head + ruleText + (c + "]");
      assert ruleText == "" ==> head + ruleText == head;
      head + ruleText + c + "]"
    }

    /** The base and rule of the alias with the state they leave: a
        `Literal[...]` base (and the `Literal` import) for an enumeration,
        otherwise `_base_type` under this type's name. */
    function Resolve(s: State): (r: Resolved)
      requires s.Valid()
      ensures r.base == BaseText(s.inComplex) && r.rule == BaseRule()
      ensures Grows(s, r.state)
      decreases if restriction.enumeration.None? && Lookup(restriction.base).Some? then 1 else 0, 1
    {
      if restriction.enumeration.Some?
      then Resolved("Literal" + ListRepr(restriction.enumeration.value), None,
                    s.(typingImports := s.typingImports + {"Literal"}))
      else BaseTypeOf(name, restriction.base, s)
    }

    /** `XSDSimpleType._convert`: the alias line; an enumeration records no
        alias and touches no simple type; `TypeAlias` and `Annotated` are
        always imported from `typing`, and `annotated_types` when the
        restriction has an inclusive bound. */
    function Render(s: State): (r: Rendered)
      requires s.Valid()
      ensures r.text == Line(s.inComplex)
      ensures Grows(s, r.state)
      ensures {"TypeAlias", "Annotated"} <= r.state.typingImports
      ensures restriction.enumeration.Some? ==>
                && "Literal" in r.state.typingImports
                && r.state.baseTypeAliases == s.baseTypeAliases
                && r.state.simpleTypes == s.simpleTypes
      ensures var b := Resolve(s).state;
        && r.state == b.(imports := r.state.imports, typingImports := r.state.typingImports)
        && r.state.typingImports == b.typingImports + {"TypeAlias"} + {"Annotated"}
        && (!restriction.HasInclusiveBound() ==> r.state.imports == b.imports)
      decreases if restriction.enumeration.None? && Lookup(restriction.base).Some? then 1 else 0, 2
    {
      var res := Resolve(s);
      var annotation := restriction.Render(res.state);
      var s3 := annotation.state.(typingImports := annotation.state.typingImports + {"TypeAlias"} + {"Annotated"});
      Rendered(name + ": TypeAlias = Annotated[" + res.base + ", "
               + (if res.rule.Some? && res.rule.value != "" then res.rule.value + " ," else "")
               + annotation.text + "]", s3)
    }

    method Convert(st: ConverterState) returns (text: string)
      requires st.Valid()
      modifies st
      ensures Rendered(text, st.Value()) == Render(old(st.Value()))
      decreases if restriction.enumeration.None? && Lookup(restriction.base).Some? then 1 else 0, 2
    {
      var base: string;
      var rule: Option<string> := None;
      if restriction.enumeration.Some? {
        base := "Literal" + ListRepr(restriction.enumeration.value);
        st.typingImports := st.typingImports + {"Literal"};
      } else {
        base, rule := BaseType(name, restriction.base, st);
      }
      var typeAnnotation := restriction.Convert(st);
      st.typingImports := st.typingImports + {"TypeAlias"};
      st.typingImports := st.typingImports + {"Annotated"};
      text := name + ": TypeAlias = Annotated[" + base + ", "
              + (if rule.Some? && rule.value != "" then rule.value + " ," else "")
              + typeAnnotation + "]";
    }
  }

  /** The alias `_base_type` synthesises: the nested simple type with a bare
      restriction of the scalar renders as `"<t>: TypeAlias = Annotated[<scalar>, None]"`;
      dropping its last five characters `"None]"` and appending the rule and
      `"]"` gives the table's scalar and rule. */
  lemma SynthesizedLineTrim(t: string, s: State, scalar: string, rule: string)
    requires s.Valid() && Lookup(t) == Some(Constrained(scalar, rule))
    ensures var nested := SimpleType(t[4..], Restriction.Bare(scalar)).Render(s).text;
      && EndsWith(nested, "None]")
      && DropLast(nested, 5) + rule + "]" == SynthesizedLine(t)
  {
    ScalarNotKnown(t);
    BareLine(t[4..], scalar, s.inComplex);
    DropLastAppended(t[4..] + ": TypeAlias = Annotated[" + scalar + ", ", "None]");
  }

  /** The line of a simple type whose restriction has an unknown base and
      no facet. */
  lemma BareLine(name: string, base: string, inComplex: bool)
    requires Lookup(base).None?
    ensures SimpleType(name, Restriction.Bare(base)).Line(inComplex)
            == name + ": TypeAlias = Annotated[" + base + ", " + "None]"
  {
    var st := SimpleType(name, Restriction.Bare(base));
    assert st.BaseText(inComplex) == base;
    assert st.BaseRule() == None;
    assert st.restriction.Constraint() == "None";
  }

  // ---------------------------------------------------------------------
  // XSDRestriction
  // ---------------------------------------------------------------------

  /** `XSDRestriction`, with its facet values already parsed to integers.
      `white_space` can only be `"collapse"` or absent. */
  datatype Restriction = Restriction(
    annotation: Option<Annotation>,
    base: string,
    enumeration: Option<seq<string>>,
    length: Option<int>,
    minLength: Option<int>,
    maxLength: Option<int>,
    pattern: Option<string>,
    collapseWhiteSpace: bool,
    minInclusive: Option<int>,
    maxInclusive: Option<int>)
  {
    /** A restriction of `base` with no facet: what `_base_type` builds for
        a synthesised alias. */
    static function Bare(base: string): (r: Restriction)
      ensures r.base == base && r.enumeration.None? && r.FacetCount() == 0
    {
      Restriction(None, base, None, None, None, None, None, false, None, None)
    }

    /** How many of the six rule-bearing facets are present. */
    function FacetCount(): nat {
      (if pattern.Some? then 1 else 0) + (if length.Some? then 1 else 0)
      + (if maxLength.Some? then 1 else 0) + (if minLength.Some? then 1 else 0)
      + (if maxInclusive.Some? then 1 else 0) + (if minInclusive.Some? then 1 else 0)
    }

    predicate HasInclusiveBound() {
      maxInclusive.Some? || minInclusive.Some?
    }

    /** The rules, one per present facet, in the fixed order pattern, length,
        max length, min length, max inclusive, min inclusive. Each is a
        `pydantic.constr(...)` or an `annotated_types` predicate. */
    function Rules(): (rules: seq<string>)
      ensures AllRuleTexts(rules)
    {
      var r4 := StringRules();
      var r5 := if maxInclusive.Some? then Appended(r4, LeRule(maxInclusive.value)) else r4;
      if minInclusive.Some? then Appended(r5, GeRule(minInclusive.value)) else r5
    }

    /** The `pydantic.constr` rules of the four string facets, in order. */
    function StringRules(): (rules: seq<string>)
      ensures AllRuleTexts(rules)
      ensures forall i :: 0 <= i < |rules| ==> IsConstr(rules[i])
    {
      var r1 := if pattern.Some? then ConstrAppended([], PatternRule(pattern.value)) else [];
      var r2 := if length.Some? then ConstrAppended(r1, LengthRule(length.value)) else r1;
      var r3 := if maxLength.Some? then ConstrAppended(r2, MaxLengthRule(maxLength.value)) else r2;
      if minLength.Some? then ConstrAppended(r3, MinLengthRule(minLength.value)) else r3
    }

    /** One rule per present facet. */
    lemma RulesCount()
      ensures |Rules()| == FacetCount()
    {
    }

    /** The rules keep the fixed facet order: no `pydantic.constr` rule
        follows an `annotated_types` one, an `annotated_types` rule is there
        exactly when an inclusive bound is, a pattern's rule comes first and
        a minimum inclusive bound's rule last. */
    lemma RulesOrder()
      ensures var rules := Rules();
        && (forall i, j :: 0 <= i < j < |rules| && IsAnnotated(rules[i]) ==> IsAnnotated(rules[j]))
        && ((exists i :: 0 <= i < |rules| && IsAnnotated(rules[i])) <==> HasInclusiveBound())
        && (pattern.Some? ==> rules[0] == PatternRule(pattern.value))
        && (minInclusive.Some? ==> rules[|rules| - 1] == GeRule(minInclusive.value))
    {
      var r4 := StringRules();
      var rules := Rules();
      if pattern.Some? {
        assert r4[0] == PatternRule(pattern.value);
        assert rules[..|r4|] == r4;
      }
      forall i | 0 <= i < |r4| ensures !IsAnnotated(rules[i]) {
        assert rules[i] == r4[i];
        RuleKinds(r4[i]);
      }
      if HasInclusiveBound() {
        assert IsAnnotated(rules[|rules| - 1]);
      }
    }

    /** The text `_convert` returns: the rules joined by `", "`, or `"None"`
        when there are none. */
    function Constraint(): (r: string)
      ensures r == "None" <==> FacetCount() == 0
      ensures FacetCount() == 1 ==> r == Rules()[0]
    {
      var rules := Rules();
      RulesCount();
      if rules == [] then "None"
      else
        JoinStartsWithFirst(", ", rules);
        RuleKinds(rules[0]);
        assert Join(", ", rules)[0] == rules[0][0];
        Join(", ", rules)
    }

    /** `XSDRestriction._convert`: the constraint text; `annotated_types` is
        imported exactly when an inclusive bound is present, and nothing
        else changes. */
    function Render(s: State): (r: Rendered)
      requires s.Valid()
      ensures r.text == Constraint()
      ensures Grows(s, r.state)
      ensures r.state.typingImports == s.typingImports
      ensures "annotated_types" in r.state.imports <==> "annotated_types" in s.imports || HasInclusiveBound()
      ensures r.state == s.(imports := r.state.imports)
      ensures !HasInclusiveBound() ==> r.state == s
    {
      var rules := Rules();
      var s1 := if HasInclusiveBound() then s.(imports := s.imports + {"annotated_types"}) else s;
      Rendered(if rules != [] then Join(", ", rules) else "None", s1)
    }

    method Convert(st: ConverterState) returns (text: string)
      requires st.Valid()
      modifies st
      ensures Rendered(text, st.Value()) == Render(old(st.Value()))
    {
      var rules := CollectStringRules();
      if maxInclusive.Some? {
        st.imports := st.imports + {"annotated_types"};
        rules := rules + [LeRule(maxInclusive.value)];
      }
      if minInclusive.Some? {
        st.imports := st.imports + {"annotated_types"};
        rules := rules + [GeRule(minInclusive.value)];
      }
      assert rules == Rules();
      assert st.imports == old(st.imports) + (if HasInclusiveBound() then {"annotated_types"} else {});
      text := if rules != [] then Join(", ", rules) else "None";
    }

    /** The first four appends of `XSDRestriction._convert`. */
    method CollectStringRules() returns (rules: seq<string>)
      ensures rules == StringRules()
    {
      rules := [];
      if pattern.Some? {
        rules := rules + [PatternRule(pattern.value)];
      }
      if length.Some? {
        rules := rules + [LengthRule(length.value)];
      }
      if maxLength.Some? {
        rules := rules + [MaxLengthRule(maxLength.value)];
      }
      if minLength.Some? {
        rules := rules + [MinLengthRule(minLength.value)];
      }
    }
  }

  /** A `pydantic.constr(...)` rule. */
  predicate IsConstr(r: string) {
    StartsWith(r, "pydantic.constr(") && EndsWith(r, ")")
  }

  /** An `annotated_types` rule. */
  predicate IsAnnotated(r: string) {
    StartsWith(r, "annotated_types.") && EndsWith(r, ")")
  }

  /** A rule text: a `pydantic.constr(...)` or an `annotated_types` call. */
  predicate RuleText(r: string) {
    IsConstr(r) || IsAnnotated(r)
  }

  predicate AllRuleTexts(rules: seq<string>) {
    forall i :: 0 <= i < |rules| ==> RuleText(rules[i])
  }

  /** No rule is both kinds, and no rule is the text `"None"`. */
  lemma RuleKinds(r: string)
    requires RuleText(r)
    ensures IsConstr(r) ==> !IsAnnotated(r)
    ensures |r| > 0 && r[0] != 'N'
    ensures IsConstr(r) <==> r[0] == 'p'
  {
    if IsConstr(r) {
      assert r[0] == r[..16][0] == 'p';
    } else {
      assert r[0] == r[..16][0] == 'a';
    }
  }

  /** `rules.append(rule)`. */
  function Appended(rules: seq<string>, rule: string): (r: seq<string>)
    requires AllRuleTexts(rules) && RuleText(rule)
    ensures AllRuleTexts(r) && r == rules + [rule]
  {
    rules + [rule]
  }

  /** `head + arg + ")"`: a call of `head` on the argument text `arg`. */
  function Call(head: string, arg: string): (r: string)
    ensures StartsWith(r, head + arg) && EndsWith(r, ")")
  {
    ConcatKeepsEnds(head + arg, ")", ")");
    head + arg + ")"
  }

  /** A call whose head starts with `prefix` starts with `prefix`. */
  lemma CallPrefix(head: string, arg: string, prefix: string)
    requires StartsWith(head, prefix)
    ensures StartsWith(Call(head, arg), prefix) && EndsWith(Call(head, arg), ")")
  {
    ConcatKeepsEnds(head, arg, "");
    StartsWithTrans(head + arg, head, prefix);
    StartsWithTrans(Call(head, arg), head + arg, prefix);
  }

  /** `rules.append(rule)` for the string facets, whose rules are all
      `pydantic.constr` calls. */
  function ConstrAppended(rules: seq<string>, rule: string): (r: seq<string>)
    requires forall i :: 0 <= i < |rules| ==> IsConstr(rules[i])
    requires IsConstr(rule)
    ensures forall i :: 0 <= i < |r| ==> IsConstr(r[i])
    ensures AllRuleTexts(r) && r == rules + [rule]
  {
    rules + [rule]
  }

  /** The rule of each facet (section 4.3 of XML Schema Part 2: Datatypes):
      each is a call of the right kind carrying the facet's value as its
      argument text. */
  function PatternRule(p: string): (r: string)
    ensures IsConstr(r)
    ensures StartsWith(r, "pydantic.constr(pattern=r\"" + (p + "\""))
  {
    CallPrefix("pydantic.constr(pattern=r\"", p + "\"", "pydantic.constr(");
    Call("pydantic.constr(pattern=r\"", p + "\"")
  }

  function LengthRule(n: int): (r: string)
    ensures IsConstr(r)
    ensures StartsWith(r, "pydantic.constr(min_length=" + (IntToString(n) + ", max_length=" + IntToString(n)))
  {
    CallPrefix("pydantic.constr(min_length=", IntToString(n) + ", max_length=" + IntToString(n), "pydantic.constr(");
    Call("pydantic.constr(min_length=", IntToString(n) + ", max_length=" + IntToString(n))
  }

  function MaxLengthRule(n: int): (r: string)
    ensures IsConstr(r)
    ensures StartsWith(r, "pydantic.constr(max_length=" + IntToString(n))
  {
    CallPrefix("pydantic.constr(max_length=", IntToString(n), "pydantic.constr(");
    Call("pydantic.constr(max_length=", IntToString(n))
  }

  function MinLengthRule(n: int): (r: string)
    ensures IsConstr(r)
    ensures StartsWith(r, "pydantic.constr(min_length=" + IntToString(n))
  {
    CallPrefix("pydantic.constr(min_length=", IntToString(n), "pydantic.constr(");
    Call("pydantic.constr(min_length=", IntToString(n))
  }

  function LeRule(n: int): (r: string)
    ensures IsAnnotated(r)
    ensures StartsWith(r, "annotated_types.Le(" + IntToString(n))
  {
    CallPrefix("annotated_types.Le(", IntToString(n), "annotated_types.");
    Call("annotated_types.Le(", IntToString(n))
  }

  function GeRule(n: int): (r: string)
    ensures IsAnnotated(r)
    ensures StartsWith(r, "annotated_types.Ge(" + IntToString(n))
  {
    CallPrefix("annotated_types.Ge(", IntToString(n), "annotated_types.");
    Call("annotated_types.Ge(", IntToString(n))
  }

  /** The enumeration, the white-space facet and the annotation never
      contribute a rule. */
  lemma RulesIgnoreEnumerationAndWhiteSpace(r: Restriction, enumeration: Option<seq<string>>,
                                            collapse: bool, annotation: Option<Annotation>)
    ensures var r' := r.(enumeration := enumeration, collapseWhiteSpace := collapse, annotation := annotation);
      r'.Rules() == r.Rules() && r'.Constraint() == r.Constraint()
  {
  }

  // ---------------------------------------------------------------------
  // XSDAnnotation and _docstring
  // ---------------------------------------------------------------------

  /** `XSDAnnotation`: its documentation text. */
  datatype Annotation = Annotation(documentation: string) {

    /** `XSDAnnotation._convert`: the documentation's lines, each stripped,
        run together into one line. */
    function Text(): (r: string)
      ensures !HasLineBreak(r)
      ensures !HasLineBreak(documentation) && documentation != [] ==> r == Strip(documentation)
    {
      var lines := SplitLines(documentation);
      var stripped := seq(|lines|, i requires 0 <= i < |lines| => Strip(lines[i]));
      forall i | 0 <= i < |lines|
        ensures !HasLineBreak(stripped[i])
      {
        StripNoBreak(lines[i]);
      }
      JoinNoBreak("", stripped);
      Join("", stripped)
    }
  }

  /** `_docstring(annotation, state, multiline)` with `multiline` one of
      `True`, `None`, `False`: a triple-quoted docstring, the bare text, or a
      trailing `#` comment; nothing at all without an annotation. The text is
      always on one line. */
  function Docstring(a: Option<Annotation>, multiline: Option<bool>): (r: string)
    ensures a.None? ==> r == ""
    ensures multiline.Some? ==> (a.None? <==> r == "")
    ensures !HasLineBreak(r)
    ensures a.Some? && multiline == Some(true) ==> r == "\"\"\"" + a.value.Text() + "\"\"\""
    ensures a.Some? && multiline == Some(false) ==> r == "  # " + a.value.Text()
  {
    match a
    case None => ""
    case Some(ann) =>
      var out := ann.Text();
      DocstringForms(out);
      if multiline == Some(true) then "\"\"\"" + out + "\"\"\""
      else if multiline.None? then out
      else "  # " + out
  }

  /** Quoting or commenting one line of text keeps it on one line. */
  lemma DocstringForms(out: string)
    requires !HasLineBreak(out)
    ensures !HasLineBreak("\"\"\"" + out + "\"\"\"") && !HasLineBreak("  # " + out)
  {
    ConcatNoBreak("\"\"\"", out);
    ConcatNoBreak("\"\"\"" + out, "\"\"\"");
    ConcatNoBreak("  # ", out);
  }

  // ---------------------------------------------------------------------
  // XSDAttribute
  // ---------------------------------------------------------------------

  /** `XSDAttribute`: `use` is read but has no effect on the output. */
  datatype Attribute = Attribute(name: string, typ: string, required: bool) {

    /** `XSDAttribute._convert`: the snake-cased field named after the
        attribute, typed by the resolved base (never quoted), bound to the
        wire name `@name`; the state is that of `_base_type`. */
    function Render(s: State): (r: Rendered)
      requires s.Valid()
      ensures r.text == SnakeCase(name) + ": " + ResolvedName(typ, s.inComplex)
                        + " = pydantic.Field(alias=\"@" + name + "\")"
      ensures Grows(s, r.state)
      ensures r.state == BaseTypeOf(name, typ, s).state
    {
      var alias := SnakeCase(name);
      var resolved := BaseTypeOf(name, typ, s);
      Rendered(alias + ": " + resolved.base + " = pydantic.Field(alias=\"@" + name + "\")", resolved.state)
    }

    method Convert(st: ConverterState) returns (text: string)
      requires st.Valid()
      modifies st
      ensures Rendered(text, st.Value()) == Render(old(st.Value()))
    {
      var alias := SnakeCase(name);
      var base, rule := BaseType(name, typ, st);
      text := alias + ": " + base + " = pydantic.Field(alias=\"@" + name + "\")";
    }
  }

  /** Whether the attribute is required makes no difference. */
  lemma AttributeUseIgnored(a: Attribute, s: State)
    requires s.Valid()
    ensures a.(required := true).Render(s) == a.(required := false).Render(s)
  {
  }

  // ---------------------------------------------------------------------
  // XSDElement
  // ---------------------------------------------------------------------

  /** `maxOccurs`: absent, a number, or `"unbounded"`. */
  datatype MaxOccurs = Unset | Bound(n: int) | Unbounded

  /** `XSDElement`. */
  datatype Element = Element(
    name: string,
    typ: string,
    minOccurs: Option<int>,
    maxOccurs: MaxOccurs,
    annotation: Option<Annotation>)
  {
    /** `not self.min_occurs`: an absent `minOccurs` counts as 0. */
    predicate IsOptional() {
      minOccurs.None? || minOccurs.value == 0
    }

    /** The field's type before occurrences are applied: the resolved base,
        quoted unless it is a concrete class already converted or the type
        is in the table. Abstract classes are never in `classes`, so a
        reference to one is always quoted. */
    function TypeRef(s: State): (r: string)
      ensures Lookup(typ).Some? ==> r == ResolvedName(typ, s.inComplex)
      ensures Lookup(typ).None? && typ in s.classes.entries ==> r == typ
      ensures Lookup(typ).None? && typ !in s.classes.entries ==> r == "'" + typ + "'"
    {
      var b := ResolvedName(typ, s.inComplex);
      if b !in s.classes.entries && Lookup(typ).None? then "'" + b + "'" else b
    }

    /** `, alias="<name>"`, the wire name, when it differs from the field name. */
    function WireAlias(): string {
      if SnakeCase(name) != name then ", alias=\"" + name + "\"" else ""
    }

    /** The text of the field for the type reference `t`, as `_convert`
        builds it: the snake-cased name replaces the wire name only once an
        alias is given. */
    function Field(t: string): string {
      var alias := if SnakeCase(name) == name then None else Some(SnakeCase(name));
      var t1 := if maxOccurs.Unbounded? then "Sequence[" + t + "]" else t;
      var comment := Docstring(annotation, Some(false));
      if !IsOptional() then
        if alias.Some? then alias.value + ": " + t1 + comment + " = pydantic.Field(alias=\"" + alias.value + "\")"
        else name + ": " + t1 + comment
      else
        var t2 := if maxOccurs.Unbounded? then t1 + " = pydantic.Field(default_factory=tuple"
                  else if EndsWith(t1, "'") then "Optional[" + t1 + "] = pydantic.Field(default=None"
                  else t1 + " | None = pydantic.Field(default=None";
        if alias.Some? then alias.value + ": " + t2 + (", alias=\"" + name + "\"") + ")" + comment
        else name + ": " + t2 + ")" + comment
    }

    /** The `typing` names the field needs: `Sequence` when unbounded,
        `Optional` for an optional bounded field of quoted type. */
    function TypingNeeds(t: string): set<string> {
      (if maxOccurs.Unbounded? then {"Sequence"} else {})
      + (if IsOptional() && !maxOccurs.Unbounded? && EndsWith(t, "'") then {"Optional"} else {})
    }

    /** The two `typing` imports `_convert` may add, one after the other. */
    function AddTypingNeeds(b: State, t: string): (r: State)
      requires b.Valid()
      ensures r == b.(typingImports := r.typingImports)
      ensures Grows(b, r)
    {
      var s1 := if maxOccurs.Unbounded? then b.(typingImports := b.typingImports + {"Sequence"}) else b;
      if IsOptional() && !maxOccurs.Unbounded? && EndsWith(t, "'")
      then s1.(typingImports := s1.typingImports + {"Optional"})
      else s1
    }

    /** The field adds exactly the names it needs to the `typing` imports. */
    lemma AddTypingNeedsExactly(b: State, t: string)
      requires b.Valid()
      ensures AddTypingNeeds(b, t).typingImports == b.typingImports + TypingNeeds(t)
    {
    }

    /** `XSDElement._convert`: the field text for the type `_base_type`
        resolves (quoted as `TypeRef` says), with the state `_base_type`
        leaves plus the `typing` names the field needs. */
    function Render(s: State): (r: Rendered)
      requires s.Valid()
      ensures r.text == Field(TypeRef(s))
      ensures r.state == AddTypingNeeds(BaseTypeOf(name, typ, s).state, TypeRef(s))
      ensures Grows(s, r.state)
    {
      var resolved := BaseTypeOf(name, typ, s);
      var t := if resolved.base !in resolved.state.classes.entries && Lookup(typ).None?
               then "'" + resolved.base + "'" else resolved.base;
      assert t == TypeRef(s);
      Rendered(Field(t), AddTypingNeeds(resolved.state, t))
    }

    method Convert(st: ConverterState) returns (text: string)
      requires st.Valid()
      modifies st
      ensures Rendered(text, st.Value()) == Render(old(st.Value()))
    {
      var t, rule := BaseType(name, typ, st);
      if t !in st.classes.entries && Lookup(typ).None? {
        t := "'" + t + "'";
      }
      if maxOccurs.Unbounded? {
        st.typingImports := st.typingImports + {"Sequence"};
      }
      if IsOptional() && !maxOccurs.Unbounded? && EndsWith(t, "'") {
        st.typingImports := st.typingImports + {"Optional"};
      }
      text := Field(t);
    }
  }

  /** An optional unbounded element: a `Sequence[...]` field defaulting to
      an empty tuple, never `Optional` or `None`; the field is named in
      snake case and carries the wire name as alias when they differ. */
  lemma ElementUnboundedOptional(e: Element, t: string)
    requires e.IsOptional() && e.maxOccurs.Unbounded?
    ensures e.Field(t) == SnakeCase(e.name) + ": " + ("Sequence[" + t + "]" + " = pydantic.Field(default_factory=tuple")
                          + e.WireAlias() + ")" + Docstring(e.annotation, Some(false))
  {
    var f := SnakeCase(e.name);
    var t2 := "Sequence[" + t + "]" + " = pydantic.Field(default_factory=tuple";
    var c := Docstring(e.annotation, Some(false));
    if f != e.name {
      assert e.Field(t) == f + ": " + t2 + (", alias=\"" + e.name + "\"") + ")" + c;
    } else {
      assert e.Field(t) == e.name + ": " + t2 + ")" + c;
    }
  }

  /** An optional bounded element of quoted type: `Optional[...]` with a
      `None` default. */
  lemma ElementOptionalQuoted(e: Element, t: string)
    requires e.IsOptional() && !e.maxOccurs.Unbounded? && EndsWith(t, "'")
    ensures e.Field(t) == SnakeCase(e.name) + ": " + ("Optional[" + t + "] = pydantic.Field(default=None")
                          + e.WireAlias() + ")" + Docstring(e.annotation, Some(false))
  {
    var f := SnakeCase(e.name);
    var t2 := "Optional[" + t + "] = pydantic.Field(default=None";
    var c := Docstring(e.annotation, Some(false));
    if f != e.name {
      assert e.Field(t) == f + ": " + t2 + (", alias=\"" + e.name + "\"") + ")" + c;
    } else {
      assert e.Field(t) == e.name + ": " + t2 + ")" + c;
    }
  }

  /** An optional bounded element of unquoted type: `<type> | None` with a
      `None` default. */
  lemma ElementOptionalPlain(e: Element, t: string)
    requires e.IsOptional() && !e.maxOccurs.Unbounded? && !EndsWith(t, "'")
    ensures e.Field(t) == SnakeCase(e.name) + ": " + (t + " | None = pydantic.Field(default=None")
                          + e.WireAlias() + ")" + Docstring(e.annotation, Some(false))
  {
    var f := SnakeCase(e.name);
    var t2 := t + " | None = pydantic.Field(default=None";
    var c := Docstring(e.annotation, Some(false));
    if f != e.name {
      assert e.Field(t) == f + ": " + t2 + (", alias=\"" + e.name + "\"") + ")" + c;
    } else {
      assert e.Field(t) == e.name + ": " + t2 + ")" + c;
    }
  }

  /** A required element (`minOccurs` at least 1 or negative): no default;
      the comment comes before the alias, and the alias given is the
      snake-cased name, not the wire name. */
  lemma ElementRequired(e: Element, t: string)
    requires !e.IsOptional()
    ensures var f := SnakeCase(e.name);
      e.Field(t) == f + ": " + (if e.maxOccurs.Unbounded? then "Sequence[" + t + "]" else t)
                    + Docstring(e.annotation, Some(false))
                    + (if f != e.name then " = pydantic.Field(alias=\"" + f + "\")" else "")
  {
  }

  /** An absent `minOccurs` is treated as 0, unlike the XSD default of 1. */
  lemma AbsentMinOccursIsOptional(e: Element)
    requires e.minOccurs.None?
    ensures e.IsOptional()
  {
  }

  // ---------------------------------------------------------------------
  // XSDSequence, XSDExtension, XSDComplexContent
  // ---------------------------------------------------------------------

  /** `acc` followed by the element lines of a sequence, each converted
      in turn and followed by a newline. */
  function RenderElements(acc: string, elements: seq<Element>, s: State): (r: Rendered)
    requires s.Valid()
    ensures Grows(s, r.state)
    ensures StartsWith(r.text, acc)
    ensures elements != [] ==> EndsWith(r.text, "\n")
    ensures elements == [] ==> r == Rendered(acc, s)
    decreases |elements|
  {
    if elements == [] then Rendered(acc, s)
    else
      var before := RenderElements(acc, elements[..|elements| - 1], s);
      var line := elements[|elements| - 1].Render(before.state);
      DropLastAppended(before.text + line.text, "\n");
      ConcatKeepsEnds(before.text, line.text + "\n", "");
      StartsWithTrans(before.text + line.text + "\n", before.text, acc);
      Rendered(before.text + line.text + "\n", line.state)
  }

  /** `XSDSequence`. */
  datatype Sequence = Sequence(annotation: Option<Annotation>, elements: seq<Element>) {

    /** The docstring line, if the sequence is annotated. */
    function Lead(): string {
      var d := Docstring(annotation, Some(true));
      if d != "" then d + "\n" else ""
    }

    /** `XSDSequence._convert`: the docstring line, then one line per element. */
    function Render(s: State): (r: Rendered)
      requires s.Valid()
      ensures Grows(s, r.state)
      ensures StartsWith(r.text, Lead())
      ensures annotation.None? && elements == [] ==> r == Rendered("", s)
      ensures elements != [] ==> EndsWith(r.text, "\n")
    {
      RenderElements(Lead(), elements, s)
    }

    method Convert(st: ConverterState) returns (text: string)
      requires st.Valid()
      modifies st
      ensures Rendered(text, st.Value()) == Render(old(st.Value()))
    {
      var lead := Docstring(annotation, Some(true));
      if lead != "" {
        lead := lead + "\n";
      }
      text := ConvertElements(st, lead, elements);
    }
  }

  /** The element loop of `XSDSequence._convert`. */
  method ConvertElements(st: ConverterState, acc: string, elements: seq<Element>) returns (text: string)
    requires st.Valid()
    modifies st
    ensures Rendered(text, st.Value()) == RenderElements(acc, elements, old(st.Value()))
  {
    text := acc;
    ghost var s0 := st.Value();
    var i := 0;
    while i < |elements|
      invariant 0 <= i <= |elements|
      invariant st.Valid()
      invariant Rendered(text, st.Value()) == RenderElements(acc, elements[..i], s0)
    {
      assert elements[..i + 1][..i] == elements[..i];
      ghost var before := st.Value();
      var line := elements[i].Convert(st);
      assert RenderElements(acc, elements[..i + 1], s0)
          == Rendered(text + line + "\n", elements[i].Render(before).state);
      text := text + line + "\n";
      i := i + 1;
    }
    assert elements[..i] == elements;
  }

  /** `XSDExtension`: its sequence, or nothing. */
  datatype Extension = Extension(base: string, sequence: Option<Sequence>) {

    function Render(s: State): (r: Rendered)
      requires s.Valid()
      ensures Grows(s, r.state)
      ensures sequence.None? ==> r == Rendered("", s)
    {
      if sequence.Some? then sequence.value.Render(s) else Rendered("", s)
    }

    method Convert(st: ConverterState) returns (text: string)
      requires st.Valid()
      modifies st
      ensures Rendered(text, st.Value()) == Render(old(st.Value()))
    {
      if sequence.Some? {
        text := sequence.value.Convert(st);
      } else {
        text := "";
      }
    }
  }

  /** `XSDComplexContent`: what its extension gives. */
  datatype ComplexContent = ComplexContent(extension: Extension) {

    function Render(s: State): (r: Rendered)
      requires s.Valid()
      ensures Grows(s, r.state)
      ensures extension.sequence.None? ==> r == Rendered("", s)
    {
      extension.Render(s)
    }

    method Convert(st: ConverterState) returns (text: string)
      requires st.Valid()
      modifies st
      ensures Rendered(text, st.Value()) == Render(old(st.Value()))
    {
      text := extension.Convert(st);
    }
  }

  // ---------------------------------------------------------------------
  // XSDComplexType
  // ---------------------------------------------------------------------

  /** `acc` followed by the attribute lines of a complex type, each after
      `"\n\t"`. */
  function RenderAttributes(acc: string, attributes: seq<Attribute>, s: State): (r: Rendered)
    requires s.Valid()
    ensures Grows(s, r.state)
    ensures StartsWith(r.text, acc)
    ensures attributes == [] ==> r == Rendered(acc, s)
    decreases |attributes|
  {
    if attributes == [] then Rendered(acc, s)
    else
      var before := RenderAttributes(acc, attributes[..|attributes| - 1], s);
      var line := attributes[|attributes| - 1].Render(before.state);
      ConcatKeepsEnds(before.text, "\n\t" + line.text, "");
      assert before.text + "\n\t" + line.text == before.text + ("\n\t" + line.text);
      StartsWithTrans(before.text + "\n\t" + line.text, before.text, acc);
      Rendered(before.text + "\n\t" + line.text, line.state)
  }

  /** Text that, once trailing white space is gone, does not end at a `:`:
      a class with a body. */
  predicate HasBody(text: string) {
    var rs := RStrip(text);
    rs != [] && rs[|rs| - 1] != ':'
  }

  /** A class whose text, once trailing white space is gone, ends at the
      `:` of its header gets the body `...`; the text always ends with an
      extra newline. */
  function CloseBody(out: string): (r: string)
    requires RStrip(out) != []
    ensures EndsWith(r, "\n")
    ensures HasBody(r)
    ensures var rs := RStrip(out);
      rs[|rs| - 1] == ':' ==> r == rs + "\n\t..." + "\n\n"
    ensures var rs := RStrip(out);
      rs[|rs| - 1] != ':' ==> r == out + "\n"
  {
    var rs := RStrip(out);
    if rs[|rs| - 1] == ':' then
      EllipsisBody(rs);
      rs + "\n\t..." + "\n\n"
    else
      RStripSpaces(out, "\n");
      DropLastAppended(out, "\n");
      out + "\n"
  }

  /** The `...` body, followed by two newlines, leaves a class with a body. */
  lemma EllipsisBody(rs: string)
    requires rs != []
    ensures EndsWith(rs + "\n\t..." + "\n\n", "\n")
    ensures HasBody(rs + "\n\t..." + "\n\n")
  {
    var a := rs + "\n\t...";
    assert a[|a| - 1] == '.';
    DropLastAppended(a, "\n\n");
    RStripSpaces(a, "\n\n");
    RStripNonSpaceEnd(a);
  }

  /** `XSDComplexType`. */
  datatype ComplexType = ComplexType(
    annotation: Option<Annotation>,
    name: string,
    isAbstract: bool,
    sequence: Option<Sequence>,
    attributes: seq<Attribute>,
    complexContent: Option<ComplexContent>)
  {
    /** `class <name>(<base>[, abc.ABC]):` where the base is the extension
        base of the complex content, or `pydantic.BaseModel`. */
    function HeaderLine(): (r: string)
      ensures r != [] && r[|r| - 1] == ':'
    {
      "class " + name + "("
      + (if complexContent.Some? then complexContent.value.extension.base else "pydantic.BaseModel")
      + (if isAbstract then ", abc.ABC" else "") + "):"
    }

    /** The body of the class from its sequence, or else from its complex
        content, with each line indented by one tab. */
    function Body(s: State): (r: Rendered)
      requires s.Valid()
      ensures Grows(s, r.state)
      ensures sequence.None? && complexContent.None? ==> r == Rendered("", s)
    {
      if sequence.Some? then
        var b := sequence.value.Render(s);
        Rendered("\t" + Join("\n\t", SplitLines(b.text)), b.state)
      else if complexContent.Some? then
        var b := complexContent.value.Render(s);
        Rendered("\t" + Join("\n\t", SplitLines(b.text)), b.state)
      else Rendered("", s)
    }

    /** The docstring line, if the class is annotated. */
    function DocLine(): string {
      var doc := Docstring(annotation, Some(true));
      if doc != "" then "\t" + doc + "\n" else ""
    }

    /** `XSDComplexType._convert`. The class header comes first; an abstract
        class imports `abc`; the class never ends with an empty body; the
        text ends with a newline. */
    function Render(s: State): (r: Rendered)
      requires s.Valid()
      ensures StartsWith(r.text, HeaderLine())
      ensures EndsWith(r.text, "\n")
      ensures HasBody(r.text)
      ensures isAbstract ==> "abc" in r.state.imports
      ensures Grows(s, r.state)
    {
      var head := Opened(s);
      var attrs := RenderAttributes(head.text, attributes, head.state);
      StartsWithTrans(attrs.text, head.text, HeaderLine());
      CloseBodyKeepsPrefix(attrs.text, HeaderLine());
      Rendered(CloseBody(attrs.text), attrs.state)
    }

    /** The header line, the docstring line and the body, before the
        attribute lines; `abc` is imported first for an abstract class. */
    function Opened(s: State): (r: Rendered)
      requires s.Valid()
      ensures StartsWith(r.text, HeaderLine())
      ensures isAbstract ==> "abc" in r.state.imports
      ensures Grows(s, r.state)
    {
      var s0 := if isAbstract then s.(imports := s.imports + {"abc"}) else s;
      var body := Body(s0);
      ConcatKeepsEnds(HeaderLine(), "\n" + DocLine() + body.text, "");
      Rendered(HeaderLine() + ("\n" + DocLine() + body.text), body.state)
    }

    method ConvertBody(st: ConverterState) returns (text: string)
      requires st.Valid()
      modifies st
      ensures Rendered(text, st.Value()) == Body(old(st.Value()))
    {
      text := "";
      if sequence.Some? {
        var body := sequence.value.Convert(st);
        text := "\t" + Join("\n\t", SplitLines(body));
      } else if complexContent.Some? {
        var body := complexContent.value.Convert(st);
        text := "\t" + Join("\n\t", SplitLines(body));
      }
    }

    /** The part of `XSDComplexType._convert` before the attribute loop. */
    method Open(st: ConverterState) returns (text: string)
      requires st.Valid()
      modifies st
      ensures Rendered(text, st.Value()) == Opened(old(st.Value()))
    {
      var header := "class " + name + "(";
      if complexContent.Some? {
        header := header + complexContent.value.extension.base;
      } else {
        header := header + "pydantic.BaseModel";
      }
      if isAbstract {
        st.imports := st.imports + {"abc"};
        header := header + ", abc.ABC";
      }
      header := header + "):";
      var docLine := "";
      var doc := Docstring(annotation, Some(true));
      if doc != "" {
        docLine := "\t" + doc + "\n";
      }
      assert header == HeaderLine();
      assert docLine == DocLine();
      ghost var s0 := st.Value();
      assert s0 == (if isAbstract then old(st.Value()).(imports := old(st.Value()).imports + {"abc"}) else old(st.Value()));
      var body := ConvertBody(st);
      text := header + ("\n" + docLine + body);
    }

    method Convert(st: ConverterState) returns (text: string)
      requires st.Valid()
      modifies st
      ensures Rendered(text, st.Value()) == Render(old(st.Value()))
    {
      text := Open(st);
      text := ConvertAttributes(st, text);
      CloseBodyKeepsPrefix(text, HeaderLine());
      text := Close(text);
    }

    /** The attribute loop of `XSDComplexType._convert`. */
    method ConvertAttributes(st: ConverterState, head: string) returns (text: string)
      requires st.Valid()
      modifies st
      ensures Rendered(text, st.Value()) == RenderAttributes(head, attributes, old(st.Value()))
    {
      text := head;
      ghost var s0 := st.Value();
      var i := 0;
      while i < |attributes|
        invariant 0 <= i <= |attributes|
        invariant st.Valid()
        invariant Rendered(text, st.Value()) == RenderAttributes(head, attributes[..i], s0)
      {
        RenderAttributesSnoc(head, attributes, i, s0);
        text := ConvertAttribute(attributes[i], st, text);
        i := i + 1;
      }
      assert attributes[..i] == attributes;
    }
  }

  /** One pass of the attribute loop: the attribute's line after `"\n\t"`. */
  method ConvertAttribute(a: Attribute, st: ConverterState, head: string) returns (text: string)
    requires st.Valid()
    modifies st
    ensures var line := a.Render(old(st.Value()));
      Rendered(text, st.Value()) == Rendered(head + "\n\t" + line.text, line.state)
  {
    var line := a.Convert(st);
    text := head + "\n\t" + line;
  }

  lemma RenderAttributesSnoc(acc: string, attributes: seq<Attribute>, i: int, s: State)
    requires s.Valid() && 0 <= i < |attributes|
    ensures var before := RenderAttributes(acc, attributes[..i], s);
      var line := attributes[i].Render(before.state);
      RenderAttributes(acc, attributes[..i + 1], s) == Rendered(before.text + "\n\t" + line.text, line.state)
  {
    assert attributes[..i + 1][..i] == attributes[..i];
  }

  /** The last step of `XSDComplexType._convert`: `...` for a class with
      no body, then a newline. */
  method Close(out: string) returns (text: string)
    requires RStrip(out) != []
    ensures text == CloseBody(out)
  {
    var stripped := RStrip(out);
    if stripped[|stripped| - 1] == ':' {
      text := stripped + "\n\t..." + "\n\n";
    } else {
      text := out + "\n";
    }
  }

  /** Closing the body keeps a prefix of the text that ends in a
      non-space character, such as the class header. */
  lemma CloseBodyKeepsPrefix(out: string, p: string)
    requires StartsWith(out, p) && p != [] && !IsSpace(p[|p| - 1])
    ensures RStrip(out) != [] && StartsWith(CloseBody(out), p)
  {
    RStripKeepsPrefix(out, p);
    var rs := RStrip(out);
    if rs[|rs| - 1] == ':' {
      assert CloseBody(out)[..|p|] == rs[..|p|];
    } else {
      assert CloseBody(out)[..|p|] == out[..|p|];
    }
  }

  /** A complex type with no annotation, sequence, complex content or
      attributes becomes a class whose body is `...`. */
  lemma EmptyComplexType(name: string, isAbstract: bool, s: State)
    requires s.Valid()
    ensures var ct := ComplexType(None, name, isAbstract, None, [], None);
      ct.Render(s).text == ct.HeaderLine() + "\n\t..." + "\n\n"
  {
    var ct := ComplexType(None, name, isAbstract, None, [], None);
    var h := ct.HeaderLine();
    assert ct.DocLine() == "";
    var head := ct.Opened(s);
    assert head.text == h + "\n" by {
      assert "\n" + ct.DocLine() + "" == "\n";
    }
    RStripSpaces(h, "\n");
    RStripNonSpaceEnd(h);
    assert RStrip(head.text) == h;
  }

  // ---------------------------------------------------------------------
  // XSD.compile
  // ---------------------------------------------------------------------

  /** What a compile phase may do to the state besides writing its own
      dict: add known names to the two import sets and write aliases and
      simple types; the root data, the root annotation and the context flag
      stay as they are. */
  ghost predicate Extends(s: State, t: State) {
    && t.Valid()
    && s.imports <= t.imports && t.imports - s.imports <= KnownImports
    && s.typingImports <= t.typingImports && t.typingImports - s.typingImports <= KnownTypingImports
    && t.xsdData == s.xsdData && t.rootAnnotation == s.rootAnnotation
    && t.inComplex == s.inComplex
  }

  lemma ExtendsTrans(s: State, t: State, u: State)
    requires Extends(s, t) && Extends(t, u)
    ensures Extends(s, u)
  {
  }

  lemma GrowsExtends(s: State, t: State)
    requires Grows(s, t)
    ensures Extends(s, t)
  {
  }

  /** A converter's step followed by a write into one of the dicts
      `compile` fills extends the state. */
  lemma StepExtends(s: State, t: State, u: State)
    requires Extends(s, t) && Grows(t, u)
    requires u.Valid()
    ensures Extends(s, u)
  {
    GrowsExtends(t, u);
    ExtendsTrans(s, t, u);
  }

  /** The names of the concrete complex types, in order. */
  function ConcreteNames(types: seq<ComplexType>): seq<string>
    decreases |types|
  {
    if types == [] then []
    else
      var last := types[|types| - 1];
      ConcreteNames(types[..|types| - 1]) + (if last.isAbstract then [] else [last.name])
  }

  /** The names of the abstract complex types, in order. */
  function AbstractNames(types: seq<ComplexType>): seq<string>
    decreases |types|
  {
    if types == [] then []
    else
      var last := types[|types| - 1];
      AbstractNames(types[..|types| - 1]) + (if last.isAbstract then [last.name] else [])
  }

  /** The complex-type loop of `XSD.compile`: each type is converted, then
      its text is stored under its name in `abstract_classes` when it is
      abstract and in `classes` otherwise. */
  function ComplexPhase(types: seq<ComplexType>, s: State): (r: State)
    requires s.Valid()
    ensures Extends(s, r)
    ensures r.documentAttributes == s.documentAttributes
    decreases |types|
  {
    if types == [] then s
    else
      var before := ComplexPhase(types[..|types| - 1], s);
      var r := ComplexStep(types[|types| - 1], before);
      ExtendsTrans(s, before, r);
      r
  }

  /** One complex type: its text is stored under its name in
      `abstract_classes` when it is abstract and in `classes` otherwise. */
  function ComplexStep(ct: ComplexType, s: State): (r: State)
    requires s.Valid()
    ensures Extends(s, r)
    ensures r.documentAttributes == s.documentAttributes
  {
    var out := ct.Render(s);
    GrowsExtends(s, out.state);
    ExtendsTrans(s, out.state, StoredClass(ct, out.text, out.state));
    StoredClass(ct, out.text, out.state)
  }

  /** `text` stored under the type's name in the dict its kind selects. */
  function StoredClass(ct: ComplexType, text: string, s: State): (r: State)
    requires s.Valid()
    ensures Extends(s, r)
    ensures r == if ct.isAbstract then s.(abstractClasses := r.abstractClasses) else s.(classes := r.classes)
  {
    if ct.isAbstract then s.(abstractClasses := s.abstractClasses.Put(ct.name, text))
    else s.(classes := s.classes.Put(ct.name, text))
  }

  /** The concrete types' names enter `classes` and the abstract types'
      names enter `abstract_classes`, each at its first assignment. */
  lemma {:induction false} ComplexPhaseKeys(types: seq<ComplexType>, s: State)
    requires s.Valid()
    ensures ComplexPhase(types, s).classes.keys == AppendNew(s.classes.keys, ConcreteNames(types))
    ensures ComplexPhase(types, s).abstractClasses.keys == AppendNew(s.abstractClasses.keys, AbstractNames(types))
    decreases |types|
  {
    if types != [] {
      var init := types[..|types| - 1];
      var ct := types[|types| - 1];
      assert init + [ct] == types;
      ComplexPhaseKeys(init, s);
      var before := ComplexPhase(init, s);
      var out := ct.Render(before);
      var r := ComplexPhase(types, s);
      assert out.state.classes == before.classes;
      assert out.state.abstractClasses == before.abstractClasses;
      if ct.isAbstract {
        assert r == out.state.(abstractClasses := before.abstractClasses.Put(ct.name, out.text));
        before.abstractClasses.PutKeys(ct.name, out.text);
        assert AbstractNames(types) == AbstractNames(init) + [ct.name];
        assert ConcreteNames(types) == ConcreteNames(init);
        AppendNewSnoc(s.abstractClasses.keys, AbstractNames(init), ct.name);
      } else {
        assert r == out.state.(classes := before.classes.Put(ct.name, out.text));
        before.classes.PutKeys(ct.name, out.text);
        assert ConcreteNames(types) == ConcreteNames(init) + [ct.name];
        assert AbstractNames(types) == AbstractNames(init);
        AppendNewSnoc(s.classes.keys, ConcreteNames(init), ct.name);
      }
    }
  }

  /** The dict a complex type of the given kind is stored in. */
  function KindDict(s: State, isAbstract: bool): Dict<string> {
    if isAbstract then s.abstractClasses else s.classes
  }

  /** Later same-name complex types overwrite earlier ones: the entry under
      a type's name, in the dict of its kind, is the text of the last type
      of that kind with that name. */
  lemma {:induction false} ComplexPhaseLastWins(types: seq<ComplexType>, i: int, s: State)
    requires s.Valid() && 0 <= i < |types|
    requires forall j :: i < j < |types| ==>
               types[j].name != types[i].name || types[j].isAbstract != types[i].isAbstract
    ensures KindDict(ComplexPhase(types, s), types[i].isAbstract).Get(types[i].name)
            == Some(types[i].Render(ComplexPhase(types[..i], s)).text)
    decreases |types|
  {
    if i < |types| - 1 {
      var init := types[..|types| - 1];
      assert init[..i] == types[..i] && init[i] == types[i];
      ComplexPhaseLastWins(init, i, s);
    }
    ComplexPhaseLast(types, s, types[i].name, types[i].isAbstract);
  }

  /** The last complex type writes its own name in the dict of its kind and
      nothing else. */
  lemma ComplexPhaseLast(types: seq<ComplexType>, s: State, name: string, isAbstract: bool)
    requires s.Valid() && types != []
    ensures var last := types[|types| - 1];
      var before := ComplexPhase(types[..|types| - 1], s);
      KindDict(ComplexPhase(types, s), isAbstract).Get(name)
      == if name == last.name && isAbstract == last.isAbstract then Some(last.Render(before).text)
         else KindDict(before, isAbstract).Get(name)
  {
    var n := |types| - 1;
    ComplexStepWrites(types[n], ComplexPhase(types[..n], s), name, isAbstract);
  }

  /** A complex type's text ends up under its name in the dict of its kind;
      every other entry of both dicts is left alone. */
  lemma ComplexStepWrites(ct: ComplexType, s: State, name: string, isAbstract: bool)
    requires s.Valid()
    ensures KindDict(ComplexStep(ct, s), isAbstract).Get(name)
            == if name == ct.name && isAbstract == ct.isAbstract then Some(ct.Render(s).text)
               else KindDict(s, isAbstract).Get(name)
  {
    var out := ct.Render(s);
    assert out.state.classes == s.classes && out.state.abstractClasses == s.abstractClasses;
  }

  /** The names of the elements, in order. */
  function ElementNames(elements: seq<Element>): seq<string>
    decreases |elements|
  {
    if elements == [] then []
    else ElementNames(elements[..|elements| - 1]) + [elements[|elements| - 1].name]
  }

  /** The element loop of `XSD.compile`: each element's field text is stored
      under its name in `document_attributes`. Outside complex-type context
      no alias is synthesised, so `simple_types` is left alone. */
  function ElementsPhase(elements: seq<Element>, s: State): (r: State)
    requires s.Valid()
    ensures Extends(s, r)
    ensures r.classes == s.classes && r.abstractClasses == s.abstractClasses
    ensures r.documentAttributes.keys == AppendNew(s.documentAttributes.keys, ElementNames(elements))
    ensures !s.inComplex ==> r.simpleTypes == s.simpleTypes
    decreases |elements|
  {
    if elements == [] then s
    else
      var before := ElementsPhase(elements[..|elements| - 1], s);
      var r := ElementStep(elements[|elements| - 1], before);
      ExtendsTrans(s, before, r);
      r
  }

  /** One element: its field text stored under its name in
      `document_attributes`. */
  function ElementStep(e: Element, s: State): (r: State)
    requires s.Valid()
    ensures Extends(s, r)
    ensures r.classes == s.classes && r.abstractClasses == s.abstractClasses
    ensures r.documentAttributes.keys
            == (if e.name in s.documentAttributes.keys then s.documentAttributes.keys
                else s.documentAttributes.keys + [e.name])
    ensures !s.inComplex ==> r.simpleTypes == s.simpleTypes
  {
    var out := e.Render(s);
    GrowsExtends(s, out.state);
    out.state.documentAttributes.PutKeys(e.name, out.text);
    var r := out.state.(documentAttributes := out.state.documentAttributes.Put(e.name, out.text));
    ExtendsTrans(s, out.state, r);
    r
  }

  /** Later same-name elements overwrite earlier ones in
      `document_attributes`: the entry under an element's name is the field
      text of the last element with that name. */
  lemma {:induction false} ElementsPhaseLastWins(elements: seq<Element>, i: int, s: State)
    requires s.Valid() && 0 <= i < |elements|
    requires forall j :: i < j < |elements| ==> elements[j].name != elements[i].name
    ensures ElementsPhase(elements, s).documentAttributes.Get(elements[i].name)
            == Some(elements[i].Render(ElementsPhase(elements[..i], s)).text)
    decreases |elements|
  {
    if i < |elements| - 1 {
      var init := elements[..|elements| - 1];
      assert init[..i] == elements[..i] && init[i] == elements[i];
      ElementsPhaseLastWins(init, i, s);
    }
    ElementsPhaseLast(elements, s, elements[i].name);
  }

  /** The last element writes its own name and no other. */
  lemma ElementsPhaseLast(elements: seq<Element>, s: State, name: string)
    requires s.Valid() && elements != []
    ensures var last := elements[|elements| - 1];
      var before := ElementsPhase(elements[..|elements| - 1], s);
      ElementsPhase(elements, s).documentAttributes.Get(name)
      == if name == last.name then Some(last.Render(before).text) else before.documentAttributes.Get(name)
  {
    var n := |elements| - 1;
    ElementStepWrites(elements[n], ElementsPhase(elements[..n], s), name);
  }

  /** An element writes its own name in `document_attributes` and no other. */
  lemma ElementStepWrites(e: Element, s: State, n: string)
    requires s.Valid()
    ensures ElementStep(e, s).documentAttributes.Get(n)
            == if n == e.name then Some(e.Render(s).text) else s.documentAttributes.Get(n)
  {
    assert e.Render(s).state.documentAttributes == s.documentAttributes;
  }

  /** The names of the simple types, in order. */
  function SimpleNames(types: seq<SimpleType>): seq<string>
    decreases |types|
  {
    if types == [] then []
    else SimpleNames(types[..|types| - 1]) + [types[|types| - 1].name]
  }

  /** The simple-type loop of `XSD.compile`: each alias line is stored under
      its name in `simple_types`, over any alias synthesised earlier. */
  function SimplePhase(types: seq<SimpleType>, s: State): (r: State)
    requires s.Valid()
    ensures Extends(s, r)
    ensures r.classes == s.classes && r.abstractClasses == s.abstractClasses
    ensures r.documentAttributes == s.documentAttributes
    ensures !s.inComplex ==> r.simpleTypes.keys == AppendNew(s.simpleTypes.keys, SimpleNames(types))
    decreases |types|
  {
    if types == [] then s
    else
      var before := SimplePhase(types[..|types| - 1], s);
      var r := SimpleStep(types[|types| - 1], before);
      ExtendsTrans(s, before, r);
      r
  }

  /** One simple type: its alias line stored under its name in
      `simple_types`. */
  function SimpleStep(t: SimpleType, s: State): (r: State)
    requires s.Valid()
    ensures Extends(s, r)
    ensures r.classes == s.classes && r.abstractClasses == s.abstractClasses
    ensures r.documentAttributes == s.documentAttributes
    ensures !s.inComplex ==>
              r.simpleTypes.keys == (if t.name in s.simpleTypes.keys then s.simpleTypes.keys else s.simpleTypes.keys + [t.name])
    ensures !s.inComplex ==>
              forall n :: r.simpleTypes.Get(n) == if n == t.name then Some(t.Line(false)) else s.simpleTypes.Get(n)
  {
    var out := t.Render(s);
    SimpleTypeKeepsSimpleTypes(t, s);
    StepExtends(s, s, out.state);
    out.state.simpleTypes.PutKeys(t.name, out.text);
    var r := out.state.(simpleTypes := out.state.simpleTypes.Put(t.name, out.text));
    ExtendsTrans(s, out.state, r);
    r
  }

  /** Outside complex-type context a declared simple type that no later
      one shares a name with ends up under its name with its own line,
      whatever alias was stored there before. */
  lemma {:induction false} SimplePhaseLastWins(types: seq<SimpleType>, i: int, s: State)
    requires s.Valid() && !s.inComplex && 0 <= i < |types|
    requires forall j :: i < j < |types| ==> types[j].name != types[i].name
    ensures SimplePhase(types, s).simpleTypes.Get(types[i].name) == Some(types[i].Line(false))
    decreases |types|
  {
    if i < |types| - 1 {
      var init := types[..|types| - 1];
      assert init[i] == types[i];
      SimplePhaseLastWins(init, i, s);
    }
    SimplePhaseLast(types, s, types[i].name);
  }

  /** The last simple type writes its own line under its name and nothing
      else. */
  lemma SimplePhaseLast(types: seq<SimpleType>, s: State, name: string)
    requires s.Valid() && !s.inComplex && types != []
    ensures var last := types[|types| - 1];
      SimplePhase(types, s).simpleTypes.Get(name)
      == if name == last.name then Some(last.Line(false))
         else SimplePhase(types[..|types| - 1], s).simpleTypes.Get(name)
  {
  }

  /** Outside complex-type context a simple type synthesises no alias. */
  lemma SimpleTypeKeepsSimpleTypes(st: SimpleType, s: State)
    requires s.Valid()
    ensures !s.inComplex ==> st.Render(s).state.simpleTypes == s.simpleTypes
  {
  }

  /** `XSD`: the parsed schema document. Its namespace attributes are not
      read by `compile`. */
  datatype Schema = Schema(
    annotation: Option<Annotation>,
    elements: seq<Element>,
    complexTypes: seq<ComplexType>,
    simpleTypes: seq<SimpleType>)
  {
    /** The root annotation `compile` records: the annotation's text, or
        the empty string. */
    function RootAnnotation(): (r: string)
      ensures annotation.None? ==> r == ""
      ensures !HasLineBreak(r)
    {
      if annotation.None? then "" else annotation.value.Text()
    }

    /** `XSD.compile`: the root annotation, then the complex types inside
        complex-type context, then the elements and the simple types
        outside it. */
    function Compiled(s: State): (r: State)
      requires s.Valid()
      ensures !r.inComplex
      ensures r.xsdData == s.xsdData
      ensures r.rootAnnotation == Some(RootAnnotation())
      ensures s.imports <= r.imports && r.imports - s.imports <= KnownImports
      ensures s.typingImports <= r.typingImports && r.typingImports - s.typingImports <= KnownTypingImports
      ensures r.classes.keys == AppendNew(s.classes.keys, ConcreteNames(complexTypes))
      ensures r.abstractClasses.keys == AppendNew(s.abstractClasses.keys, AbstractNames(complexTypes))
      ensures r.documentAttributes.keys == AppendNew(s.documentAttributes.keys, ElementNames(elements))
    {
      var s1 := s.(rootAnnotation := Some(RootAnnotation()));
      var s2 := ComplexPhase(complexTypes, s1.(inComplex := true));
      ComplexPhaseKeys(complexTypes, s1.(inComplex := true));
      var s3 := ElementsPhase(elements, s2.(inComplex := false));
      SimplePhase(simpleTypes, s3)
    }

    /** A declared simple type overwrites any alias synthesised under its
        name while the complex types were converted: unless a later simple
        type shares its name, the compiled `simple_types` holds its own
        line, rendered outside complex-type context. */
    lemma DeclaredSimpleTypeWins(s: State, i: int)
      requires s.Valid() && 0 <= i < |simpleTypes|
      requires forall j :: i < j < |simpleTypes| ==> simpleTypes[j].name != simpleTypes[i].name
      ensures Compiled(s).simpleTypes.Get(simpleTypes[i].name) == Some(simpleTypes[i].Line(false))
    {
      var s1 := s.(rootAnnotation := Some(RootAnnotation()));
      var s2 := ComplexPhase(complexTypes, s1.(inComplex := true));
      var s3 := ElementsPhase(elements, s2.(inComplex := false));
      assert Compiled(s) == SimplePhase(simpleTypes, s3);
      SimplePhaseLastWins(simpleTypes, i, s3);
    }

    /** `XSD.compile` on the state object; it returns that same object. */
    method Compile(st: ConverterState) returns (r: ConverterState)
      requires st.Valid()
      modifies st
      ensures r == st
      ensures st.Value() == Compiled(old(st.Value()))
    {
      var root := "";
      if annotation.Some? {
        root := annotation.value.Text();
      }
      st.rootAnnotation := Some(root);
      st.inComplex := true;
      CompileComplexTypes(complexTypes, st);
      st.inComplex := false;
      CompileElements(elements, st);
      CompileSimpleTypes(simpleTypes, st);
      r := st;
    }
  }

  method CompileComplexTypes(types: seq<ComplexType>, st: ConverterState)
    requires st.Valid()
    modifies st
    ensures st.Value() == ComplexPhase(types, old(st.Value()))
  {
    ghost var s0 := st.Value();
    var i := 0;
    while i < |types|
      invariant 0 <= i <= |types|
      invariant st.Valid()
      invariant st.Value() == ComplexPhase(types[..i], s0)
    {
      ComplexPhaseSnoc(types, i, s0);
      CompileComplexType(types[i], st);
      i := i + 1;
    }
    assert types[..i] == types;
  }

  lemma ComplexPhaseSnoc(types: seq<ComplexType>, i: int, s: State)
    requires s.Valid() && 0 <= i < |types|
    ensures ComplexPhase(types[..i + 1], s) == ComplexStep(types[i], ComplexPhase(types[..i], s))
  {
    assert types[..i + 1][..i] == types[..i];
  }

  /** One pass of the complex-type loop of `XSD.compile`. */
  method CompileComplexType(ct: ComplexType, st: ConverterState)
    requires st.Valid()
    modifies st
    ensures st.Value() == ComplexStep(ct, old(st.Value()))
  {
    var text := ct.Convert(st);
    StoreClass(ct, text, st);
  }

  /** The assignment of the complex-type loop of `XSD.compile`. */
  method StoreClass(ct: ComplexType, text: string, st: ConverterState)
    requires st.Valid()
    modifies st
    ensures st.Value() == StoredClass(ct, text, old(st.Value()))
  {
    if ct.isAbstract {
      st.abstractClasses := st.abstractClasses.Put(ct.name, text);
    } else {
      st.classes := st.classes.Put(ct.name, text);
    }
  }

  method CompileElements(elements: seq<Element>, st: ConverterState)
    requires st.Valid()
    modifies st
    ensures st.Value() == ElementsPhase(elements, old(st.Value()))
  {
    ghost var s0 := st.Value();
    var i := 0;
    while i < |elements|
      invariant 0 <= i <= |elements|
      invariant st.Valid()
      invariant st.Value() == ElementsPhase(elements[..i], s0)
    {
      ElementsPhaseSnoc(elements, i, s0);
      CompileElement(elements[i], st);
      i := i + 1;
    }
    assert elements[..i] == elements;
  }

  lemma ElementsPhaseSnoc(elements: seq<Element>, i: int, s: State)
    requires s.Valid() && 0 <= i < |elements|
    ensures ElementsPhase(elements[..i + 1], s) == ElementStep(elements[i], ElementsPhase(elements[..i], s))
  {
    assert elements[..i + 1][..i] == elements[..i];
  }

  /** One pass of the element loop of `XSD.compile`. */
  method CompileElement(e: Element, st: ConverterState)
    requires st.Valid()
    modifies st
    ensures st.Value() == ElementStep(e, old(st.Value()))
  {
    var text := e.Convert(st);
    st.documentAttributes := st.documentAttributes.Put(e.name, text);
  }

  method CompileSimpleTypes(types: seq<SimpleType>, st: ConverterState)
    requires st.Valid()
    modifies st
    ensures st.Value() == SimplePhase(types, old(st.Value()))
  {
    ghost var s0 := st.Value();
    var i := 0;
    while i < |types|
      invariant 0 <= i <= |types|
      invariant st.Valid()
      invariant st.Value() == SimplePhase(types[..i], s0)
    {
      SimplePhaseSnoc(types, i, s0);
      CompileSimpleType(types[i], st);
      i := i + 1;
    }
    assert types[..i] == types;
  }

  lemma SimplePhaseSnoc(types: seq<SimpleType>, i: int, s: State)
    requires s.Valid() && 0 <= i < |types|
    ensures SimplePhase(types[..i + 1], s) == SimpleStep(types[i], SimplePhase(types[..i], s))
  {
    assert types[..i + 1][..i] == types[..i];
  }

  /** One pass of the simple-type loop of `XSD.compile`. */
  method CompileSimpleType(t: SimpleType, st: ConverterState)
    requires st.Valid()
    modifies st
    ensures st.Value() == SimpleStep(t, old(st.Value()))
  {
    var text := t.Convert(st);
    st.simpleTypes := st.simpleTypes.Put(t.name, text);
  }
}
