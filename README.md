# xsd-to-pydantic: a verified model of the schema compiler

This project models the schema compiler of xsd-to-pydantic in Dafny. The
compiler turns a parsed XSD document into the source text of a Python module
of pydantic models. The model covers four parts:

- **The type mapper.** The `TYPES` table of XSD built-in types follows the
  built-in types of XML Schema Part 2: Datatypes, sections 3.2 and 3.3.
  `_base_type` looks a type up in that table and records side effects in the
  state:
  - base-type aliases;
  - synthesised `TypeAlias` lines for constrained primitives inside complex types;
  - the `datetime` import.
- **The node converters.** Annotation, attribute, element, sequence,
  extension, complex content, complex type, restriction (the facets of
  section 4.3 of the same standard) and simple type. Each one turns its node
  into text while writing into the shared `ConverterState`.
- **The driver `XSD.compile`.** It runs the complex types inside
  complex-type context, then the elements and the simple types outside it.
  It writes into the insertion-ordered dicts of the state.
- **`converter.py`.** It covers:
  - the root check and the `xsd_data` filter;
  - the text assembly of `convert`: the sorted import block, the simple types
    named by aliases first, then the abstract classes, the classes and the
    `Document` class;
  - the depth-bounded walk `_find_arrays`;
  - `utils.snake_case`.

The modules are:

- `Wrappers`: `Option` and `Result`.
- `PyStr`: the Python `str` builtins the compiler uses:
  - `splitlines`, `strip`, `rstrip` and `join`;
  - `str(int)`;
  - ordering by code point, and `sorted` of a set.
- `PyDict`: a Python `dict` as a key sequence plus a map:
  - assigning to an existing key keeps its position;
  - `pop` removes the key.
- `Utils`: `snake_case`.
- `Api`: the `State` value and the `ConverterState` class, whose fields the
  converters update in place.
- `Xsd`: the table, the node datatypes, the converters and `compile`.
- `Emission`: the text assembly from a compiled state.
- `Arrays`: `_find_arrays`.
- `Converter`: `convert` as a whole.

Every converter that changes the state appears twice:
- a function `Render(s)` gives the text and the next `State` as values, and
  carries the promised properties in its contract;
- a method `Convert(st)` updates the `ConverterState` object step by step,
  as the Python code does, and is proved to agree with `Render`.

The loops of `compile`, of the sequence and complex-type converters and of
the text assembly are `while` loops. Each is proved against a function that
describes one pass at a time.

## Model

| member | source | states |
|---|---|---|
| Xsd.Lookup | xsdtopydantic/xsd.py:10-44 | A known type has the `xsd:` prefix and maps to a scalar that does not; a constraint is never empty; a constrained scalar is never `datetime.` |
| Xsd.TableWellFormed | xsdtopydantic/xsd.py:10-44 | Every entry of `TYPES` has a non-empty scalar not starting with `x`, and constrained entries carry a non-empty rule |
| Xsd.ScalarNotKnown | xsdtopydantic/xsd.py:10-44 | A scalar the table maps to is not itself a key of the table |
| Xsd.Find | xsdtopydantic/xsd.py:10-44 | A found entry is well formed |
| Xsd.BaseTypeOf | xsdtopydantic/xsd.py:342-369 | `_base_type` returns the resolved name and rule. It records the alias exactly for known types and synthesises the `TypeAlias` line (adding `TypeAlias`, `Annotated`) exactly for constrained types in complex context. It adds `datetime` exactly for a `datetime.` base and changes nothing else |
| Xsd.BaseType | xsdtopydantic/xsd.py:342-369 | The in-place `_base_type` on the state object returns and leaves what `BaseTypeOf` says |
| Xsd.Synthesized | xsdtopydantic/xsd.py:351-365 | The synthesised alias adds `TypeAlias`/`Annotated` and stores the line under `type[4:]`, nothing else |
| Xsd.Synthesize | xsdtopydantic/xsd.py:351-365 | The in-place alias write leaves the state `Synthesized` describes |
| Xsd.BaseTypeOfUnknown | xsdtopydantic/xsd.py:344-348 | A type not in the table comes back unchanged with no rule; aliases and simple types are untouched |
| Xsd.BaseTypeOfConstrained | xsdtopydantic/xsd.py:349-366 | A tuple-mapped type in complex context returns `type[4:]`, stores `<t>: TypeAlias = Annotated[<scalar>, <rule>]` and records the alias `type[4:]`; outside it returns the scalar and leaves `simple_types` alone |
| Xsd.SynthesizedLineTrim | xsdtopydantic/xsd.py:353-364 | The nested simple type's line ends in `None]`; cutting those 5 characters and appending rule and `]` gives the synthesised line |
| Xsd.BareLine | xsdtopydantic/xsd.py:294-298 | A facet-less restriction of an unknown base gives `<name>: TypeAlias = Annotated[<base>, None]` |
| Xsd.SimpleType.Resolve | xsdtopydantic/xsd.py:288-294 | The base is `Literal[...]` for an enumeration, otherwise `_base_type`'s; only a well-behaved state change |
| Xsd.SimpleType.Line | xsdtopydantic/xsd.py:298 | The alias line starts with `<name>: TypeAlias = Annotated[<base>, ` and ends with the restriction's constraint and `]`; without a base rule it is exactly those two parts |
| Xsd.ListRepr | xsdtopydantic/xsd.py:290-291 | `list(literal)` prints as a bracketed list, `[]` exactly for no values, whose first item is the first value in single quotes |
| Xsd.FindFirst | xsdtopydantic/xsd.py:10-44 | A lookup in `TYPES` returns the entry of the first occurrence of the name |
| Xsd.PositiveIntegerEntry | xsdtopydantic/xsd.py:39 | `xsd:positiveInteger` is `int` constrained by `annotated_types.Gt(0)` |
| Xsd.ConstrainedBaseImportsNothing | xsdtopydantic/xsd.py:342-369 | `_base_type` hands back the `annotated_types.Gt(0)` rule of `xsd:positiveInteger` but leaves `annotated_types` unimported |
| Xsd.SimpleType.Render | xsdtopydantic/xsd.py:287-298 | The alias line; `TypeAlias` and `Annotated` always imported; an enumeration imports `Literal` and records no alias or simple type; `annotated_types` only with an inclusive bound |
| Xsd.SimpleType.Convert | xsdtopydantic/xsd.py:287-298 | The in-place converter agrees with `Render` on text and state |
| Xsd.Restriction.Rules | xsdtopydantic/xsd.py:262-278 | Every rule is a call text: `pydantic.constr(` … `)` or `annotated_types.` … `)` |
| Xsd.Restriction.StringRules | xsdtopydantic/xsd.py:264-271 | The four string-facet rules are all `pydantic.constr(` … `)` calls |
| Xsd.Restriction.RulesOrder | xsdtopydantic/xsd.py:262-278 | Rules follow the fixed facet order: no `pydantic.constr` rule after an `annotated_types` one, an `annotated_types` rule exactly when an inclusive bound is present, the pattern's rule first and the minimum inclusive bound's rule last |
| Xsd.Restriction.RulesCount | xsdtopydantic/xsd.py:262-278 | One rule per present facet |
| Xsd.Restriction.Constraint | xsdtopydantic/xsd.py:278 | `"None"` exactly when no facet is set; a single rule stands alone |
| Xsd.Restriction.Render | xsdtopydantic/xsd.py:262-278 | The constraint text; only `imports` may change, and `annotated_types` is in it afterwards iff it was before or an inclusive bound is present |
| Xsd.Restriction.Convert | xsdtopydantic/xsd.py:262-278 | The in-place converter agrees with `Render` |
| Xsd.Restriction.CollectStringRules | xsdtopydantic/xsd.py:263-271 | The first four appends produce the string-facet rules |
| Xsd.RulesIgnoreEnumerationAndWhiteSpace | xsdtopydantic/xsd.py:262-278 | Changing the enumeration, white-space facet or annotation changes neither rules nor constraint |
| Xsd.Appended | xsdtopydantic/xsd.py:265 | `rules.append` puts the rule last and keeps every element a rule text |
| Xsd.ConstrAppended | xsdtopydantic/xsd.py:265-271 | Appending a `pydantic.constr` call to `pydantic.constr` calls keeps them all such calls |
| Xsd.RuleKinds | xsdtopydantic/xsd.py:262-278 | No rule text is both kinds, none is empty or starts with `N` (so none reads as `None`), and a `pydantic.constr` call is told apart by its first character |
| Xsd.Call | xsdtopydantic/xsd.py:265-277 | An f-string call `head{arg})` starts with the head followed by the argument and ends with `)` |
| Xsd.CallPrefix | xsdtopydantic/xsd.py:265-277 | A call keeps every prefix of its head |
| Xsd.PatternRule | xsdtopydantic/xsd.py:265 | A `pydantic.constr(` … `)` call whose text starts with `pydantic.constr(pattern=r"` followed by the pattern and a closing quote |
| Xsd.LengthRule | xsdtopydantic/xsd.py:267 | A `pydantic.constr(` … `)` call whose text starts with `pydantic.constr(min_length=<n>, max_length=<n>` |
| Xsd.MaxLengthRule | xsdtopydantic/xsd.py:269 | A `pydantic.constr(` … `)` call whose text starts with `pydantic.constr(max_length=<n>` |
| Xsd.MinLengthRule | xsdtopydantic/xsd.py:271 | A `pydantic.constr(` … `)` call whose text starts with `pydantic.constr(min_length=<n>` |
| Xsd.LeRule | xsdtopydantic/xsd.py:274 | An `annotated_types.` … `)` call whose text starts with `annotated_types.Le(<n>` |
| Xsd.GeRule | xsdtopydantic/xsd.py:277 | An `annotated_types.` … `)` call whose text starts with `annotated_types.Ge(<n>` |
| Xsd.Annotation.Text | xsdtopydantic/xsd.py:54-55 | The joined stripped lines contain no line break; a one-line documentation becomes its stripped self |
| Xsd.Docstring | xsdtopydantic/xsd.py:372-385 | Empty without annotation; `"""text"""` for multiline, `  # text` for `False`; never a line break |
| Xsd.DocstringForms | xsdtopydantic/xsd.py:381-385 | Quoting or commenting a one-line text keeps it on one line |
| Xsd.Attribute.Render | xsdtopydantic/xsd.py:65-69 | `<snake name>: <resolved base> = pydantic.Field(alias="@<name>")` with `_base_type`'s state |
| Xsd.Attribute.Convert | xsdtopydantic/xsd.py:65-69 | The in-place converter agrees with `Render` |
| Xsd.AttributeUseIgnored | xsdtopydantic/xsd.py:68 | Whether the attribute is required makes no difference to text or state |
| Xsd.Element.TypeRef | xsdtopydantic/xsd.py:86-88 | The type is quoted exactly when it is neither in the table nor a key of `classes` (so abstract types are always quoted) |
| Xsd.Element.AddTypingNeeds | xsdtopydantic/xsd.py:94-104 | Only `typing_imports` changes, and it only grows by known names |
| Xsd.Element.AddTypingNeedsExactly | xsdtopydantic/xsd.py:94-104 | `Sequence` is added exactly when unbounded; `Optional` exactly when optional, bounded and quoted |
| Xsd.Element.Render | xsdtopydantic/xsd.py:85-116 | The field text for the quoted-as-needed type and `_base_type`'s state plus the typing names |
| Xsd.Element.Convert | xsdtopydantic/xsd.py:85-116 | The in-place converter agrees with `Render` |
| Xsd.ElementUnboundedOptional | xsdtopydantic/xsd.py:94-111 | Optional and unbounded: `Sequence[T] = pydantic.Field(default_factory=tuple` plus wire alias, never `Optional` or `None` |
| Xsd.ElementOptionalQuoted | xsdtopydantic/xsd.py:98-111 | Optional, bounded, quoted type: `Optional[T] = pydantic.Field(default=None` plus wire alias |
| Xsd.ElementOptionalPlain | xsdtopydantic/xsd.py:98-111 | Optional, bounded, unquoted type: the type united with `None`, `= pydantic.Field(default=None` plus wire alias |
| Xsd.Element.Field | xsdtopydantic/xsd.py:89-116 | The field text for a type reference. Its contract is stated by the four lemmas below, one per occurrence case, which give the whole text |
| Xsd.ElementRequired | xsdtopydantic/xsd.py:113-116 | A required field has no default; the comment precedes the alias, and the alias given is the snake-cased name |
| Xsd.AbsentMinOccursIsOptional | xsdtopydantic/xsd.py:98 | An absent `minOccurs` makes the field optional |
| Xsd.RenderElements | xsdtopydantic/xsd.py:133-134 | The element lines extend the prefix, end with a newline when there is one, and the state changes only as the converters allow |
| Xsd.ConvertElements | xsdtopydantic/xsd.py:133-134 | The element loop builds the text and state `RenderElements` describes |
| Xsd.Sequence.Render | xsdtopydantic/xsd.py:129-135 | The text starts with the docstring line; an empty unannotated sequence gives `""` and leaves the state |
| Xsd.Sequence.Convert | xsdtopydantic/xsd.py:129-135 | The in-place converter agrees with `Render` |
| Xsd.Extension.Render | xsdtopydantic/xsd.py:144-147 | Without a sequence: `""` and the state unchanged |
| Xsd.Extension.Convert | xsdtopydantic/xsd.py:144-147 | The in-place converter agrees with `Render` |
| Xsd.ComplexContent.Render | xsdtopydantic/xsd.py:155-156 | What the extension gives; empty without a sequence |
| Xsd.ComplexContent.Convert | xsdtopydantic/xsd.py:155-156 | The in-place converter agrees with `Render` |
| Xsd.RenderAttributes | xsdtopydantic/xsd.py:195-196 | The attribute lines extend the prefix; no attributes leave text and state alone |
| Xsd.ComplexType.ConvertAttributes | xsdtopydantic/xsd.py:195-196 | The attribute loop builds the text and state `RenderAttributes` describes |
| Xsd.ConvertAttribute | xsdtopydantic/xsd.py:196 | One pass appends `\n\t` and the attribute line |
| Xsd.RenderAttributesSnoc | xsdtopydantic/xsd.py:195-196 | One more attribute appends its line to the text so far |
| Xsd.CloseBody | xsdtopydantic/xsd.py:197-199 | A text ending at `:` gets `\n\t...\n` then `\n`; otherwise one `\n` is appended; the result always ends in `\n` and has a body |
| Xsd.Close | xsdtopydantic/xsd.py:197-199 | The closing step computes `CloseBody` |
| Xsd.EllipsisBody | xsdtopydantic/xsd.py:198 | The `...` body leaves a class with a body ending in a newline |
| Xsd.CloseBodyKeepsPrefix | xsdtopydantic/xsd.py:197-199 | Closing keeps the class header at the front |
| Xsd.ComplexType.HeaderLine | xsdtopydantic/xsd.py:176-185 | The header ends at `:` |
| Xsd.ComplexType.Body | xsdtopydantic/xsd.py:188-193 | No sequence and no complex content: empty body, state unchanged |
| Xsd.ComplexType.ConvertBody | xsdtopydantic/xsd.py:188-193 | The in-place body agrees with `Body` |
| Xsd.ComplexType.Opened | xsdtopydantic/xsd.py:176-193 | Starts with the header; an abstract type imports `abc` |
| Xsd.ComplexType.Open | xsdtopydantic/xsd.py:176-193 | The in-place opening agrees with `Opened` |
| Xsd.ComplexType.Render | xsdtopydantic/xsd.py:175-199 | Starts `class <name>(<base>[, abc.ABC]):`, always ends in `\n`, never has an empty body; abstract types import `abc` |
| Xsd.ComplexType.Convert | xsdtopydantic/xsd.py:175-199 | The in-place converter agrees with `Render` |
| Xsd.EmptyComplexType | xsdtopydantic/xsd.py:197-199 | A bare complex type becomes its header followed by `\n\t...\n\n` |
| Xsd.ComplexPhase | xsdtopydantic/xsd.py:330-333 | The complex-type loop leaves `document_attributes` alone and only grows imports by known names |
| Xsd.ComplexStep | xsdtopydantic/xsd.py:331-333 | One complex type: imports only grow, `document_attributes` untouched |
| Xsd.StoredClass | xsdtopydantic/xsd.py:331-333 | Abstract types are written to `abstract_classes`, others to `classes`, and nothing else changes |
| Xsd.ComplexPhaseKeys | xsdtopydantic/xsd.py:330-333 | Concrete names enter `classes`, abstract names `abstract_classes`, each at its first assignment |
| Xsd.ComplexPhaseLastWins | xsdtopydantic/xsd.py:330-333 | Later same-name types of the same kind overwrite earlier ones |
| Xsd.ComplexPhaseLast | xsdtopydantic/xsd.py:330-333 | The last type writes its own name in the dict of its kind and nothing else |
| Xsd.ComplexStepWrites | xsdtopydantic/xsd.py:331-333 | A complex type's text lands under its name in its kind's dict; all other entries stay |
| Xsd.CompileComplexTypes | xsdtopydantic/xsd.py:330-333 | The in-place loop leaves the state `ComplexPhase` describes |
| Xsd.CompileComplexType | xsdtopydantic/xsd.py:331-333 | One in-place pass is `ComplexStep` |
| Xsd.StoreClass | xsdtopydantic/xsd.py:331-333 | The in-place assignment is `StoredClass` |
| Xsd.ComplexPhaseSnoc | xsdtopydantic/xsd.py:330-333 | One more complex type is one more `ComplexStep` |
| Xsd.ElementsPhase | xsdtopydantic/xsd.py:335-336 | Element names enter `document_attributes` at first assignment; classes untouched; outside complex context `simple_types` untouched |
| Xsd.ElementStep | xsdtopydantic/xsd.py:336 | One element's name enters `document_attributes` if new |
| Xsd.ElementsPhaseLastWins | xsdtopydantic/xsd.py:335-336 | Later same-name elements overwrite earlier ones |
| Xsd.ElementsPhaseLast | xsdtopydantic/xsd.py:335-336 | The last element writes its own name and no other |
| Xsd.ElementStepWrites | xsdtopydantic/xsd.py:336 | An element writes its own name only |
| Xsd.CompileElements | xsdtopydantic/xsd.py:335-336 | The in-place loop leaves the state `ElementsPhase` describes |
| Xsd.CompileElement | xsdtopydantic/xsd.py:336 | One in-place pass is `ElementStep` |
| Xsd.ElementsPhaseSnoc | xsdtopydantic/xsd.py:335-336 | One more element is one more `ElementStep` |
| Xsd.SimplePhase | xsdtopydantic/xsd.py:337-338 | Simple-type names enter `simple_types` at first assignment; classes and document attributes untouched |
| Xsd.SimpleStep | xsdtopydantic/xsd.py:338 | Outside complex context the type's line is stored under its name and every other entry stays |
| Xsd.SimplePhaseLastWins | xsdtopydantic/xsd.py:337-338 | The last simple type of a name wins, with its own line |
| Xsd.SimpleTypeKeepsSimpleTypes | xsdtopydantic/xsd.py:287-298 | Outside complex context a simple type synthesises no alias |
| Xsd.CompileSimpleTypes | xsdtopydantic/xsd.py:337-338 | The in-place loop leaves the state `SimplePhase` describes |
| Xsd.CompileSimpleType | xsdtopydantic/xsd.py:338 | One in-place pass is `SimpleStep` |
| Xsd.SimplePhaseSnoc | xsdtopydantic/xsd.py:337-338 | One more simple type is one more `SimpleStep` |
| Xsd.Schema.RootAnnotation | xsdtopydantic/xsd.py:325-327 | Empty without annotation; never a line break |
| Xsd.Schema.Compiled | xsdtopydantic/xsd.py:323-339 | Ends outside complex context; `xsd_data` kept; root annotation set; imports only grow by known names; class and element key orders are the first occurrences |
| Xsd.Schema.DeclaredSimpleTypeWins | xsdtopydantic/xsd.py:337-338 | A declared simple type overwrites any synthesised alias of its name |
| Xsd.Schema.Compile | xsdtopydantic/xsd.py:323-339 | The in-place compile returns the same object, in the state `Compiled` describes |
| Api.ConverterState.constructor | xsdtopydantic/api.py:9-26 | `imports == {"pydantic"}`, everything else empty, no root annotation, not in complex context, `xsd_data` as given |
| Utils.Lower | xsdtopydantic/utils.py:19 | Lowering leaves no ASCII capital and keeps every character that is not one |
| Utils.SnakeTail | xsdtopydantic/utils.py:14-19 | The tail gets one `_` per ASCII capital and no ASCII capital is left |
| Utils.SnakeCase | xsdtopydantic/utils.py:14-19 | No ASCII capital in the result; length grows by the ASCII capitals after index 0 |
| Utils.SnakeCaseSnoc | xsdtopydantic/utils.py:14 | An `_` goes before every capital except at index 0, and nowhere else |
| Utils.SnakeTailSnoc | xsdtopydantic/utils.py:14 | Appending to the tail appends the lowered character after `_` exactly for a capital |
| Utils.SnakeTailKeepsLower | xsdtopydantic/utils.py:14-19 | A tail without capitals is unchanged |
| Utils.SnakeCaseKeepsLower | xsdtopydantic/utils.py:14-19 | A name without capitals is its own snake case |
| Utils.SnakeCaseIdempotent | xsdtopydantic/utils.py:14-19 | Snake-casing twice is snake-casing once |
| Utils.SnakeCaseTwoCapitals | xsdtopydantic/utils.py:14-19 | `"ID"` becomes `"i_d"` |
| Utils.SnakeCaseLeadingCapital | xsdtopydantic/utils.py:14-19 | `"Name"` becomes `"name"` |
| PyDict.Dict.Put | xsdtopydantic/xsd.py:336 | `d[k] = v`: `k` maps to `v`, others unchanged, a new key goes last, an existing one keeps its place |
| PyDict.Dict.PutKeys | xsdtopydantic/xsd.py:336 | The key order after an assignment |
| PyDict.Dict.Pop | xsdtopydantic/converter.py:71 | `pop`: the key is gone, the others keep their values and order |
| PyDict.Dict.Values | xsdtopydantic/converter.py:73 | `values()` lists the values in key order |
| PyDict.AppendNewSnoc | xsdtopydantic/xsd.py:336 | One more assignment puts a new name last |
| PyStr.SortedSet | xsdtopydantic/converter.py:60-65 | `sorted` of a set: the same elements, strictly ascending, as many as the set has |
| PyStr.RStrip | xsdtopydantic/xsd.py:197 | `rstrip` removes exactly the trailing white space |
| PyStr.SplitLines | xsdtopydantic/xsd.py:55 | No line contains a break; empty text gives no lines |
| Converter.AtKeys | xsdtopydantic/converter.py:56 | Exactly the keys starting with `@`, without repetition |
| Converter.XsdData | xsdtopydantic/converter.py:56 | `xsd_data` holds exactly the root entries whose key starts with `@`, in order, with their values |
| Converter.Convert | xsdtopydantic/converter.py:48-94 | A missing `xsd:schema` root is refused with the root-missing message; a validation error is passed on; success only after both |
| Converter.CompiledFresh | xsdtopydantic/converter.py:57 | On a fresh state, compile keeps `xsd_data`, sets the root annotation, imports `pydantic` and none of the three fixed names, and orders dict keys by first occurrence |
| Converter.ConvertFile | xsdtopydantic/converter.py:48-94 | The imperative `convert` gives what `Convert` describes |
| Emission.KnownImportsApart | xsdtopydantic/converter.py:60-62 | The compiler's imports are disjoint from the three fixed ones, so the sorted tuple lists each name once |
| Emission.ImportBlockTypingLine | xsdtopydantic/converter.py:60-68 | The import block has exactly one `typing` line, at the sorted position of `typing.*`: `from typing import` with the sorted names, or `import typing.*` when there are none |
| Emission.TypingLineAt | xsdtopydantic/converter.py:60-68 | The import lines split around the single `typing.*` |
| Emission.ImportLinesSnoc | xsdtopydantic/converter.py:60-68 | One more name adds its one line |
| Emission.EmitImports | xsdtopydantic/converter.py:60-68 | The import loop writes the import lines |
| Emission.Prioritize | xsdtopydantic/converter.py:70-72 | The simple types left after the popping loop are a valid dict |
| Emission.PrioritizeSpec | xsdtopydantic/converter.py:70-72 | The popping loop writes the simple types named by aliases, in alias order, and leaves the others with their values in insertion order |
| Emission.PrioritizeEntries | xsdtopydantic/converter.py:70-72 | The simple types left are those not named by an alias, with their values |
| Emission.PrioritizeKeys | xsdtopydantic/converter.py:70-72 | The remaining keys keep their insertion order |
| Emission.PrioritizeText | xsdtopydantic/converter.py:70-72 | The popped text is the popped values in alias order |
| Emission.PopPrioritized | xsdtopydantic/converter.py:70-72 | The in-place popping loop writes and leaves what `Prioritize` describes |
| Emission.PopOne | xsdtopydantic/converter.py:71-72 | One pass pops the alias name if present and writes its value |
| Emission.Popped | xsdtopydantic/converter.py:70-72 | The popped names are the alias names that name a simple type |
| Emission.Without | xsdtopydantic/converter.py:70-73 | The remaining keys are the keys not named by an alias |
| Emission.EachSimpleTypeOnce | xsdtopydantic/converter.py:70-74 | Every simple type is emitted exactly once |
| Emission.Emitted | xsdtopydantic/converter.py:58-94 | The emitted text starts with the sorted import block and a blank line and ends with the `Document` fields. The middle sections are characterised by `SimpleTypesSection`, `PrioritizeSpec` and `ImportBlockTypingLine` |
| Emission.SimpleTypesSection | xsdtopydantic/converter.py:70-76 | The simple-type section is the values in popped-then-remaining order |
| Emission.Emit | xsdtopydantic/converter.py:58-94 | The in-place emission writes the text `Emitted` describes and pops the prioritised simple types |
| Emission.AppendGap | xsdtopydantic/converter.py:75-76 | One blank line after a non-empty section |
| Emission.AppendLines | xsdtopydantic/converter.py:73-74 | Each value on its own line, in insertion order |
| Emission.AppendIndented | xsdtopydantic/converter.py:93-94 | Each document attribute indented by a tab, in insertion order |
| Arrays.Strip8 | xsdtopydantic/converter.py:28 | `ref[8:]`: the reference without its first 8 characters, empty when shorter |
| Arrays.Found | xsdtopydantic/converter.py:20-38 | Every path found extends the current path and is shorter than the depth limit |
| Arrays.FoundAlts | xsdtopydantic/converter.py:34-38 | The `anyOf` loop finds only paths strictly below the field |
| Arrays.FoundIn | xsdtopydantic/converter.py:28-31 | The field loop finds only paths strictly below the field |
| Arrays.FoundRoots | xsdtopydantic/converter.py:43-44 | The root loop finds only paths of length 1 to `max_depth - 1`; `FoundRootsBounds` adds which root each starts with |
| Arrays.FoundRootsBounds | xsdtopydantic/converter.py:43-44 | `_find_arrays` returns only paths of length 1 to `max_depth - 1`, each starting with a root property name |
| Arrays.ShallowFindsNothing | xsdtopydantic/converter.py:20-22 | `max_depth <= 1` yields the empty set |
| Arrays.OwnPathFound | xsdtopydantic/converter.py:23-25 | A field's own path is recorded iff it has no `anyOf`, its type is `array` and the depth limit is not reached |
| Arrays.SelfReferenceStopsAtDepth | xsdtopydantic/converter.py:26-31 | A self-referential array definition is walked only down to the depth limit |
| Arrays.ArrayFinder.constructor | xsdtopydantic/converter.py:42 | The walk starts with no paths |
| Arrays.ArrayFinder.Iterate | xsdtopydantic/converter.py:20-38 | `iterate` adds exactly the paths `Found` describes |
| Arrays.ArrayFinder.IterateAlternatives | xsdtopydantic/converter.py:34-38 | The `anyOf` loop adds exactly `FoundAlts` |
| Arrays.ArrayFinder.IterateFields | xsdtopydantic/converter.py:28-31 | The field loop adds exactly `FoundIn` |
| Arrays.FindArrays | xsdtopydantic/converter.py:40-45 | The root loop collects exactly `FoundRoots` |

## Left out

- Reading the XSD file, loading the generated module, `model_json_schema()`,
  the `from_xml`/`to_xml` template and writing `output_path`
  (`converter.py:50`, `converter.py:95-134`, `utils.py:22-58`). These are
  file and network I/O, dynamic import, and a set repr whose order depends
  on hashing. `Converter.Convert` ends at the text before the template, and
  `Arrays.FindArrays` takes the JSON schema as a tree passed in.
- pydantic parsing and the field validators of the XSD models
  (`xsd.py:226-260`). `Converter.Convert` takes the parse as a parameter
  `parse`. Facet values arrive already parsed to integers.
- Float-valued `minInclusive`/`maxInclusive`: floating point. Facet values
  are integers, printed in decimal.
- The spelling of `xsd_data` inside the generated `Document` class. That is
  the Python `repr` of a mapping, so `Converter.Convert` takes it as a
  parameter `dataRepr`.
- `Xsd.ListRepr`: the `repr` of the enumeration list in `Literal[...]` is
  modelled only for values made of printable characters without quotes or
  backslashes. Python escapes or re-quotes any other value.
- The root of the parsed file is a mapping of element names to mappings of
  attributes and children (`Converter.Document`). A root that is not a
  mapping is not modelled.
- `Arrays.FindArrays`: `Arrays.Node` represents only fields that have
  `anyOf` or `type`, array fields that have `items`, and definitions that
  have `properties`. The schema always carries a definitions map. In the
  source each missing key raises `KeyError`, and `schema["$defs"]` is absent
  when the model has no nested models (`converter.py:26`,
  `converter.py:41`). The model covers none of these cases; only a missing
  `$ref` inside `items` or an `anyOf` alternative is modelled.
- `Utils.Lower`, `Utils.SnakeCase`: names are taken to be ASCII. The
  underscore is inserted before ASCII capitals only, as the source's pattern
  `[A-Z]` does. Python's `str.lower` also lowers non-ASCII capitals
  (`"Émile"` becomes `"émile"`), and some of them lengthen the text (`"İ"`
  becomes two code points). Both are left out.
- The import tuple of `convert` is modelled as the sorted union of
  `imports` and the three fixed names. That is exact only because
  `Emission.KnownImportsApart` and `Converter.CompiledFresh` show they are
  disjoint; a caller that put a fixed name into `imports` beforehand would
  see it twice in the source.
