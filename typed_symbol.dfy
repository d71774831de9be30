/** `TypedSymbol`: one property or constructor parameter of the target type,
    classified as mockable and/or fakeable, with the code fragments rendered
    from that classification. */
module TypedSymbols {
  import opened Wrappers
  import opened Proxies
  import Mocking
  import Fixture
  import Text

  // Fragments of the rendered expressions.
  const HasValueTest: string := ".HasValue ? "
  const ValueOrNew: string := ".Value : new "
  const BoxedObject: string := ")).Object"
  const DefaultOpen: string := "default("
  const ActionOpen: string := "Action<"
  const OpenParen: string := "("
  const CloseParen: string := ")"
  const ActionClose: string := "> "
  const Assign: string := " = "
  const GenericOpen: string := "<"
  const NullableGenericClose: string := ">?"
  const BoxArgumentOpen: string := ">("

  datatype TypedSymbol = TypedSymbol(
    underScoreName: string,
    typeFullName: string,
    typeName: string,
    symbolPascalName: string,
    symbolName: string,
    isFakeable: bool,
    isMockable: bool,
    mocking: Option<Mocking.MockingProperties>,
    fixture: Option<Fixture.FixtureProperties>,
    nullableStrategy: NullableStrategy)
  {
    /** A symbol is only mockable under a mocking configuration and only
        fakeable under a fixture configuration; every `TypedSymbol` the
        generator builds satisfies this. */
    predicate Valid()
    {
      (isMockable ==> mocking.Some?) && (isFakeable ==> fixture.Some?)
    }
  }

  /** The `IsMockable` switch: an interface under strategy `All`, or an
      interface none of whose interfaces is `IEnumerable` under strategy
      `WithoutGenericCollection`; never without a mocking configuration. */
  function IsMockable(mocking: Option<Mocking.MockingProperties>, typeKind: TypeKind, allInterfacesAreNotEnumerable: bool): (r: bool)
    ensures r <==>
      && mocking.Some?
      && typeKind == Interface
      && (|| mocking.value.strategy == Mocking.All
          || (mocking.value.strategy == Mocking.WithoutGenericCollection && allInterfacesAreNotEnumerable))
  {
    match mocking
    case None => false
    case Some(properties) =>
      match properties.strategy
      case All => typeKind == Interface
      case WithoutGenericCollection => typeKind == Interface && allInterfacesAreNotEnumerable
      case None => false
  }

  /** The `IsFakeable` switch: false without a fixture configuration, false for
      an interface under `None`, false for a non-enumerable interface under
      `OnlyGenericCollections`, and true otherwise. */
  function IsFakeable(fixture: Option<Fixture.FixtureProperties>, typeKind: TypeKind, allInterfacesAreNotEnumerable: bool): (r: bool)
    ensures r <==>
      && fixture.Some?
      && !(&& typeKind == Interface
           && (|| fixture.value.strategy == Fixture.None
               || (fixture.value.strategy == Fixture.OnlyGenericCollections && allInterfacesAreNotEnumerable)))
  {
    match fixture
    case None => false
    case Some(properties) =>
      match properties.strategy
      case None => typeKind != Interface
      case OnlyGenericCollections => !(typeKind == Interface && allInterfacesAreNotEnumerable)
      case All => true
  }

  /** The `TypedSymbol(TypedSymbolDataProxy, ...)` constructor: copies the
      names and classifies the symbol once, by the two tables above. */
  function NewTypedSymbol(
    symbol: SymbolData,
    mocking: Option<Mocking.MockingProperties>,
    fixture: Option<Fixture.FixtureProperties>,
    nullableStrategy: NullableStrategy): (t: TypedSymbol)
    ensures t.Valid()
    ensures t.isMockable <==> IsMockable(mocking, symbol.typeKind, symbol.allInterfacesAreNotEnumerable)
    ensures t.isFakeable <==> IsFakeable(fixture, symbol.typeKind, symbol.allInterfacesAreNotEnumerable)
    ensures t.underScoreName == symbol.underScoreName && t.symbolPascalName == symbol.pascalCaseName
    ensures t.symbolName == symbol.name
    ensures t.typeFullName == symbol.typeFullName && t.typeName == symbol.typeName
    ensures t.mocking == mocking && t.fixture == fixture && t.nullableStrategy == nullableStrategy
  {
    TypedSymbol(
      symbol.underScoreName,
      symbol.typeFullName,
      symbol.typeName,
      symbol.pascalCaseName,
      symbol.name,
      IsFakeable(fixture, symbol.typeKind, symbol.allInterfacesAreNotEnumerable),
      IsMockable(mocking, symbol.typeKind, symbol.allInterfacesAreNotEnumerable),
      mocking,
      fixture,
      nullableStrategy)
  }

  /** `GenerateFieldInitialization`: assigns the field its default mock, the
      configuration's default-value format filled with the member's full type
      name; it is non-empty whenever a mocking configuration is present,
      mockable or not. */
  function GenerateFieldInitialization(t: TypedSymbol): (r: string)
    ensures r != "" <==> t.mocking.Some?
    ensures t.mocking.Some? ==> Text.StartsWith(r, t.underScoreName + Assign) && r[|r| - 1] == ';'
    ensures t.mocking.Some? ==>
      var front := t.underScoreName + Assign;
      |front| < |r| && r[|front|..|r| - 1] == Text.Fmt(t.mocking.value.fieldDefaultValueAssignmentFormat, [t.typeFullName])
  {
    match t.mocking
    case None => ""
    case Some(properties) =>
      var front := t.underScoreName + Assign;
      var value := Text.Fmt(properties.fieldDefaultValueAssignmentFormat, [t.typeFullName]);
      assert (front + value + ";")[|front|..|front + value|] == value;
      front + value + ";"
  }

  /** `NeedsFieldInit`: exactly the mockable symbols need their field
      initialised, and each of them has a non-empty initialisation. */
  function NeedsFieldInit(t: TypedSymbol): (r: bool)
    requires t.Valid()
    ensures r <==> t.isMockable
    ensures r ==> GenerateFieldInitialization(t) != ""
  {
    t.isMockable
  }

  /** `GenerateMockableFieldType`: the mock type declared for the member's type. */
  function MockableFieldType(t: TypedSymbol): (r: string)
    requires t.mocking.Some?
    ensures r == Text.Fmt(t.mocking.value.typeDeclarationFormat, [t.typeFullName])
  {
    Text.Fmt(t.mocking.value.typeDeclarationFormat, [t.typeFullName])
  }

  /** `GenerateFieldType`: the mock type when mockable, the member's own type otherwise. */
  function GenerateFieldType(t: TypedSymbol): (r: string)
    requires t.Valid()
    ensures t.isMockable ==> r == MockableFieldType(t)
    ensures !t.isMockable ==> r == t.typeFullName
  {
    if t.isMockable then MockableFieldType(t) else t.typeFullName
  }

  /** `GenerateLazyFieldType`: like the field type for a mockable symbol, and
      otherwise that type boxed in a nullable `NullBox`. */
  function GenerateLazyFieldType(t: TypedSymbol): (r: string)
    requires t.Valid()
    ensures t.isMockable ==> r == GenerateFieldType(t)
    ensures !t.isMockable ==> r == NullBox + GenericOpen + GenerateFieldType(t) + NullableGenericClose
  {
    if t.isMockable then MockableFieldType(t) else NullBox + GenericOpen + t.typeFullName + NullableGenericClose
  }

  /** `GenerateFieldValueReturn`: the mocked object when mockable, and otherwise
      exactly the field's name. */
  function GenerateFieldValueReturn(t: TypedSymbol): (r: string)
    requires t.Valid()
    ensures t.isMockable ==> r == Text.Fmt(t.mocking.value.returnObjectFormat, [t.underScoreName])
    ensures !t.isMockable ==> r == t.underScoreName
  {
    if t.isMockable then Text.Fmt(t.mocking.value.returnObjectFormat, [t.underScoreName])
    else t.underScoreName
  }

  /** The value a lazy field falls back to when it was never set: a fixture
      value (marked non-null under `Enabled`) when fakeable, else `default(T)`. */
  function LazyFallbackValue(t: TypedSymbol): (r: string)
    requires t.Valid()
    ensures !t.isFakeable ==> r == DefaultOpen + t.typeFullName + CloseParen
    ensures t.isFakeable && t.nullableStrategy == Enabled ==>
      r == Text.Fmt(t.fixture.value.createSingleFormat, [t.typeFullName, t.symbolName, FixtureLiteral]) + "!"
    ensures t.isFakeable && t.nullableStrategy != Enabled ==>
      r == Text.Fmt(t.fixture.value.createSingleFormat, [t.typeFullName, t.symbolName, FixtureLiteral])
  {
    if t.isFakeable then
      Text.Fmt(t.fixture.value.createSingleFormat, [t.typeFullName, t.symbolName, FixtureLiteral])
      + (if t.nullableStrategy == Enabled then "!" else "")
    else DefaultOpen + t.typeFullName + CloseParen
  }

  /** `GenerateLazyFieldValueReturn`: the mocked object when mockable, and
      otherwise the boxed field's value if it was set, else the fallback. */
  function GenerateLazyFieldValueReturn(t: TypedSymbol): (r: string)
    requires t.Valid()
    ensures t.isMockable ==> r == GenerateFieldValueReturn(t)
    ensures !t.isMockable ==> r == BoxedLazyValue(t)
  {
    if t.isMockable then Text.Fmt(t.mocking.value.returnObjectFormat, [t.underScoreName])
    else BoxedLazyValue(t)
  }

  /** The lazy value of a non-mockable field: the boxed value if it was set,
      else a new box around the fallback. */
  function BoxedLazyValue(t: TypedSymbol): (r: string)
    requires t.Valid()
    ensures Text.StartsWith(r, OpenParen + t.underScoreName + HasValueTest + t.underScoreName + ValueOrNew + NullBox + GenericOpen + t.typeFullName)
    ensures var tail := BoxArgumentOpen + LazyFallbackValue(t) + BoxedObject;
      |tail| <= |r| && r[|r| - |tail|..] == tail
    ensures var open := OpenParen + t.underScoreName + HasValueTest + t.underScoreName + ValueOrNew + NullBox + GenericOpen + t.typeFullName;
      |r| == |open| + |BoxArgumentOpen + LazyFallbackValue(t) + BoxedObject|
  {
    OpenParen + t.underScoreName + HasValueTest + t.underScoreName + ValueOrNew
    + NullBox + GenericOpen + t.typeFullName + BoxArgumentOpen + LazyFallbackValue(t) + BoxedObject
  }

  /** `GenerateMethodParameterDefinition`: the setter's parameter is a setup
      action over the field type when mockable, and a value of the field type
      otherwise. */
  function GenerateMethodParameterDefinition(t: TypedSymbol): (r: string)
    requires t.Valid()
    ensures t.isMockable ==> r == ActionOpen + GenerateFieldType(t) + ActionClose + SetupActionLiteral
    ensures !t.isMockable ==> r == GenerateFieldType(t) + " " + ValueLiteral
  {
    if t.isMockable then ActionOpen + MockableFieldType(t) + ActionClose + SetupActionLiteral
    else t.typeFullName + " " + ValueLiteral
  }

  /** The lazy renderings coincide with the plain ones exactly for the
      mockable symbols: only a non-mockable field is boxed. */
  lemma LazyDiffersExactlyWhenNotMockable(t: TypedSymbol)
    requires t.Valid()
    ensures GenerateLazyFieldType(t) == GenerateFieldType(t) <==> t.isMockable
    ensures GenerateLazyFieldValueReturn(t) == GenerateFieldValueReturn(t) <==> t.isMockable
  {
    if !t.isMockable {
      var lazyType := GenerateLazyFieldType(t);
      assert |lazyType| > |GenerateFieldType(t)|;
      var lazyValue := GenerateLazyFieldValueReturn(t);
      assert |lazyValue| > |GenerateFieldValueReturn(t)|;
    }
  }
}
