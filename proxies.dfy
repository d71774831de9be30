/** Plain snapshots of compiler symbols (the `*DataProxy` records), the enums
    they carry, and the library's fixed names. */
module Proxies {
  import opened Wrappers
  import Text

  /** `NullableStrategy`: how the generated code treats nullable references. */
  datatype NullableStrategy = Default | Enabled | Disabled

  /** The kind of a member's declared type; only `Interface` matters to the generator. */
  datatype TypeKind = Class | Interface | Struct | Enum | Delegate | TypeParameter | OtherKind

  /** Roslyn's `MethodKind`, reduced to the kinds the generator distinguishes. */
  datatype MethodKind = Ordinary | Constructor | StaticConstructor | PropertyGet | PropertySet | OtherMethodKind

  /** Roslyn's `Accessibility`. */
  datatype Accessibility = Public | Internal | Protected | Private | ProtectedOrInternal | ProtectedAndInternal | NotApplicable

  /** An `ImmutableArray<string>`: `DefaultArray` is the uninitialised (IsDefault) array. */
  datatype StringArray = DefaultArray | Items(values: seq<string>)

  /** `TypedSymbolDataProxy`: a property or parameter with its declared type. The
      naming-convention helpers are not part of this model, so both converted
      names arrive as given fields. `allInterfacesAreNotEnumerable` holds when no
      interface of the type is `System.Collections.IEnumerable`. */
  datatype SymbolData = SymbolData(
    name: string,
    pascalCaseName: string,
    underScoreName: string,
    typeFullName: string,
    typeName: string,
    typeKind: TypeKind,
    allInterfacesAreNotEnumerable: bool)

  /** `ConstructorDataProxy`: a constructor or static method with its ordered
      parameters; its record equality compares the name and the parameters. */
  datatype ConstructorData = ConstructorData(name: string, parameters: seq<SymbolData>)

  /** `MethodDataProxy`: a method already written on the builder.
      `firstParameterTypeName` is the short type name of the only parameter, and
      "" unless there is exactly one parameter. */
  datatype MethodData = MethodData(
    kind: MethodKind,
    name: string,
    parametersLength: nat,
    isImplicitlyDeclared: bool,
    firstParameterTypeName: string)

  /** `FieldDataProxy`: a field already declared on the builder. */
  datatype FieldData = FieldData(name: string)

  /** `BuilderDataProxy`: the hand-written part of the builder (its source
      location is not part of this model). */
  datatype BuilderData = BuilderData(
    containingNamespace: string,
    name: string,
    fullName: string,
    methods: seq<MethodData>,
    fields: seq<FieldData>)

  /** The namespaces argument of the mocking and fixture attributes:
      `(argument?.Split(',') ?? []).ToImmutableArray()`. The result is never the
      default array; a null argument gives no namespaces, and otherwise joining
      the pieces with commas gives the argument back. */
  function NamespacesArgument(argument: Option<string>): (r: StringArray)
    ensures r.Items?
    ensures argument.None? ==> r.values == []
    ensures argument.Some? ==>
      && r.values == Text.Split(argument.value, ',')
      && |r.values| > 0
      && Text.Join(r.values, ",") == argument.value
      && forall n <- r.values :: ',' !in n
  {
    match argument
    case None => Items([])
    case Some(text) =>
      Text.SplitJoinRoundTrip(text, ',');
      Text.SplitPiecesLackSeparator(text, ',');
      Items(Text.Split(text, ','))
  }

  /** The advisory diagnostics, by descriptor. */
  datatype Diagnostic = BuildMethodOverriden | DefaultConstructorOverriden

  /** Emitted source text, one element per line, indentation left out. */
  type Code = seq<string>

  // The library's fixed names (`DefaultConstants`).
  const DefaultBuildingMethodsPrefix: string := "With"
  const BuildMethodName: string := "Build"
  const PostBuildMethodName: string := "PostBuild"
  const NullBox: string := "NullBox"
  const ValueLiteral: string := "value"
  const SetupActionLiteral: string := "setupAction"
  const FixtureLiteral: string := "_fixture"
}
