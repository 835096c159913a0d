/** `converter.convert` up to the loading of the generated module: the root
    check, the `xsd_data` filter, the compile of the schema into a fresh
    `ConverterState`, and the text assembled from the compiled state. */
module Converter {
  import opened Wrappers
  import opened PyStr
  import opened PyDict
  import opened Api
  import opened Emission
  import Xsd

  /** The message of the `ValueError` raised when the file has no
      `xsd:schema` root. */
  const RootMissing: string := "Root node not present, this does not look like an XSD file."

  // ---------------------------------------------------------------------
  // xsd_data
  // ---------------------------------------------------------------------

  /** The keys that start with `"@"`, in their order. */
  function AtKeys(keys: seq<string>): (r: seq<string>)
    ensures forall k :: k in r <==> k in keys && StartsWith(k, "@")
    ensures Distinct(keys) ==> Distinct(r)
    decreases |keys|
  {
    if keys == [] then []
    else
      var before := AtKeys(keys[..|keys| - 1]);
      var k := keys[|keys| - 1];
      assert keys == keys[..|keys| - 1] + [k];
      if StartsWith(k, "@") then before + [k] else before
  }

  /** `{k: v for k, v in root.items() if k.startswith("@")}`: the root's
      attributes (its namespace declarations among them), in their order,
      with their values. */
  function XsdData(root: Dict<XmlValue>): (r: Dict<XmlValue>)
    requires root.Valid()
    ensures r.Valid()
    ensures r.keys == AtKeys(root.keys)
    ensures forall k :: r.Get(k) == if StartsWith(k, "@") then root.Get(k) else None
  {
    Dict(AtKeys(root.keys), map k | k in root.entries && StartsWith(k, "@") :: root.entries[k])
  }

  // ---------------------------------------------------------------------
  // convert
  // ---------------------------------------------------------------------

  /** The parsed file: each top-level element name with the mapping of its
      attributes and children. */
  type Document = Dict<Dict<XmlValue>>

  ghost predicate WellFormed(data: Document) {
    && data.Valid()
    && forall k :: k in data.entries ==> data.entries[k].Valid()
  }

  /** `convert` as far as the text of the generated module before its
      `from_xml`/`to_xml` methods. `parse` stands for `xsd.XSD(**root)` (an
      error is the validation error it raises) and `dataRepr` for the
      spelling of the `xsd_data` mapping inside the generated text. A file
      without an `xsd:schema` root is refused with `RootMissing`; otherwise
      the schema is compiled into a fresh state holding the root's
      attributes, and the text is assembled from that state. */
  function Convert(data: Document, parse: Dict<XmlValue> -> Result<Xsd.Schema, string>,
                   dataRepr: Dict<XmlValue> -> string): (r: Result<string, string>)
    requires WellFormed(data)
    ensures "xsd:schema" !in data.keys ==> r == Err(RootMissing)
    ensures "xsd:schema" in data.keys && parse(data.entries["xsd:schema"]).Err?
            ==> r == Err(parse(data.entries["xsd:schema"]).error)
    ensures r.Ok? ==> "xsd:schema" in data.keys && parse(data.entries["xsd:schema"]).Ok?
  {
    match data.Get("xsd:schema")
    case None => Err(RootMissing)
    case Some(root) =>
      match parse(root)
      case Err(e) => Err(e)
      case Ok(schema) =>
        var xsdData := XsdData(root);
        Ok(Emitted(schema.Compiled(Initial(xsdData)), dataRepr(xsdData)))
  }

  /** The state `compile` leaves in a fresh `ConverterState`: the root
      annotation is recorded, `imports` holds `pydantic` and only names of
      the compiler's own, so none of the three fixed imports of the
      generated file is listed twice; the document attributes follow the
      elements' first occurrences, and the classes and abstract classes the
      complex types'. */
  lemma CompiledFresh(schema: Xsd.Schema, xsdData: Dict<XmlValue>)
    requires xsdData.Valid()
    ensures var c := schema.Compiled(Initial(xsdData));
      && c.xsdData == xsdData
      && c.rootAnnotation == Some(schema.RootAnnotation())
      && "pydantic" in c.imports && c.imports !! FixedImports
      && c.typingImports <= KnownTypingImports
      && c.documentAttributes.keys == AppendNew([], Xsd.ElementNames(schema.elements))
      && c.classes.keys == AppendNew([], Xsd.ConcreteNames(schema.complexTypes))
      && c.abstractClasses.keys == AppendNew([], Xsd.AbstractNames(schema.complexTypes))
  {
    var c := schema.Compiled(Initial(xsdData));
    KnownImportsApart(c.imports);
  }

  /** The imperative `convert`: the root check, the validation, the filter,
      the compile into a new state object and the emission from it. */
  method ConvertFile(data: Document, parse: Dict<XmlValue> -> Result<Xsd.Schema, string>,
                     dataRepr: Dict<XmlValue> -> string) returns (r: Result<string, string>)
    requires WellFormed(data)
    ensures r == Convert(data, parse, dataRepr)
  {
    if "xsd:schema" !in data.entries {
      return Err(RootMissing);
    }
    var root := data.entries["xsd:schema"];
    var parsed := parse(root);
    if parsed.Err? {
      return Err(parsed.error);
    }
    var xsdData := XsdData(root);
    var st := new ConverterState(xsdData);
    var state := parsed.value.Compile(st);
    var output := Emit(state, dataRepr(xsdData));
    return Ok(output);
  }
}
