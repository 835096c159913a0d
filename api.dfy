/** `api.ConverterState`: the one mutable record every converter writes into
    while a schema is compiled. `State` is its value at one moment; the class
    `ConverterState` is the object the converters update in place. */
module Api {
  import opened Wrappers
  import opened PyDict

  /** A value of the mapping the XML parser gives for the schema root: the
      text of an `@attribute`, or the content of a child element (which the
      model only sees through the parsed schema tree). */
  datatype XmlValue = Text(text: string) | Nested

  /** The import names the compiler itself ever adds to `imports`. */
  const KnownImports: set<string> := {"pydantic", "datetime", "abc", "annotated_types"}

  /** The names the compiler ever adds to `typing_imports`. */
  const KnownTypingImports: set<string> := {"Sequence", "Optional", "Literal", "TypeAlias", "Annotated"}

  datatype State = State(
    xsdData: Dict<XmlValue>,
    rootAnnotation: Option<string>,
    documentAttributes: Dict<string>,
    baseTypeAliases: Dict<string>,
    simpleTypes: Dict<string>,
    typingImports: set<string>,
    imports: set<string>,
    abstractClasses: Dict<string>,
    classes: Dict<string>,
    inComplex: bool)
  {
    ghost predicate Valid() {
      && xsdData.Valid()
      && documentAttributes.Valid()
      && baseTypeAliases.Valid()
      && simpleTypes.Valid()
      && abstractClasses.Valid()
      && classes.Valid()
    }
  }

  /** The state `ConverterState(xsd_data)` starts in: every other field at
      its dataclass default. */
  function Initial(xsdData: Dict<XmlValue>): State {
    State(xsdData, None, Dict.Empty(), Dict.Empty(), Dict.Empty(), {}, {"pydantic"},
          Dict.Empty(), Dict.Empty(), false)
  }

  class ConverterState {
    var xsdData: Dict<XmlValue>
    var rootAnnotation: Option<string>
    var documentAttributes: Dict<string>
    var baseTypeAliases: Dict<string>
    var simpleTypes: Dict<string>
    var typingImports: set<string>
    var imports: set<string>
    var abstractClasses: Dict<string>
    var classes: Dict<string>
    var inComplex: bool

    function Value(): State
      reads this
    {
      State(xsdData, rootAnnotation, documentAttributes, baseTypeAliases, simpleTypes,
            typingImports, imports, abstractClasses, classes, inComplex)
    }

    ghost predicate Valid()
      reads this
    {
      Value().Valid()
    }

    /** `ConverterState(xsd_data)`: the mapping is kept as given, `imports`
        starts as `{"pydantic"}`, every other collection empty, no root
        annotation yet and outside complex-type context. */
    constructor (xsdData: Dict<XmlValue>)
      requires xsdData.Valid()
      ensures this.xsdData == xsdData
      ensures rootAnnotation == None
      ensures imports == {"pydantic"} && typingImports == {}
      ensures documentAttributes.keys == [] && baseTypeAliases.keys == [] && simpleTypes.keys == []
      ensures abstractClasses.keys == [] && classes.keys == []
      ensures !inComplex
      ensures Valid() && Value() == Initial(xsdData)
    {
      this.xsdData := xsdData;
      rootAnnotation := None;
      documentAttributes := Dict.Empty();
      baseTypeAliases := Dict.Empty();
      simpleTypes := Dict.Empty();
      typingImports := {};
      imports := {"pydantic"};
      abstractClasses := Dict.Empty();
      classes := Dict.Empty();
      inComplex := false;
    }
  }
}
