/** `EntityToBuild`: the target type as the generator sees it once the
    constructor to call is chosen and its properties are split into those the
    builder sets through the constructor and those it sets afterwards; and the
    text of the `Build` and `BuildDefault` methods rendered from it. */
module EntityModel {
  import opened Wrappers
  import opened Proxies
  import opened TypedSymbols
  import Mocking
  import Fixture
  import EntityDataProxies
  import Text

  // Fragments of the rendered `Build` and `BuildDefault` methods.
  const PragmaDisable: string := "#pragma warning disable "
  const PragmaRestore: string := "#pragma warning restore "
  const NullableArgumentWarning: string := "CS8604"
  const NullLiteralWarning: string := "CS8625"
  const PublicModifier: string := "public "
  const PublicStatic: string := "public static "
  const BuildDefaultOpen: string := " BuildDefault("
  const VarResult: string := "var result = "
  const NewResult: string := "var result = new "
  const ReturnKeyword: string := "return "
  const ReturnNew: string := "return new "
  const InitializerClose: string := "};"
  const ResultCall: string := "(result);"
  const ReturnResult: string := "return result;"
  const DefaultAssignment: string := " = default("
  const TypeHandleOpen: string := "var t = typeof("
  const GetPropertyOpen: string := "t.GetProperty(\""
  const SetValueOpen: string := ".SetValue(result, "
  const OpenBrace: string := "{"
  const CloseBrace: string := "}"
  const CloseCall: string := ");"
  const CloseQuote: string := "\")"
  const SetValueClose: string := ", System.Reflection.BindingFlags.NonPublic, null, null, null);"

  /** The one way building an entity can fail: `ToDictionary` meets two
      parameters with the same PascalCase name. */
  datatype EntityError = DuplicateParameterKey

  predicate AllValid(xs: seq<TypedSymbol>)
  {
    forall x <- xs :: x.Valid()
  }

  lemma AllValidPrefix(xs: seq<TypedSymbol>, n: nat)
    requires AllValid(xs) && n <= |xs|
    ensures AllValid(xs[..n])
  {
    forall x <- xs[..n] ensures x.Valid() {
      assert x in xs;
    }
  }

  /** No two parameters share a dictionary key. */
  predicate UniqueKeys(ps: seq<TypedSymbol>)
  {
    forall i, j :: 0 <= i < j < |ps| ==> ps[i].symbolPascalName != ps[j].symbolPascalName
  }

  /** The constructor the builder calls. Its parameters are the values of a
      dictionary keyed by PascalCase name, kept here in declaration order. */
  datatype Constructor =
    | ObjectConstructor(parameters: seq<TypedSymbol>)
    | StaticConstructor(parameters: seq<TypedSymbol>, name: string)
  {
    predicate Valid()
    {
      UniqueKeys(parameters) && AllValid(parameters)
    }
  }

  function KeysOf(ps: seq<TypedSymbol>): set<string>
  {
    set i | 0 <= i < |ps| :: ps[i].symbolPascalName
  }

  /** `ContainsParameter`: whether `parameterName` is one of the dictionary keys. */
  function ContainsParameter(c: Constructor, parameterName: string): (r: bool)
    ensures r <==> exists i :: 0 <= i < |c.parameters| && c.parameters[i].symbolPascalName == parameterName
  {
    parameterName in KeysOf(c.parameters)
  }

  /** The parameter dictionary. */
  function ParameterMap(ps: seq<TypedSymbol>): (m: map<string, TypedSymbol>)
    ensures m.Keys == KeysOf(ps)
  {
    if ps == [] then map[]
    else ParameterMap(ps[..|ps| - 1])[ps[|ps| - 1].symbolPascalName := ps[|ps| - 1]]
  }

  /** With unique keys the dictionary holds each parameter under its own key
      and has one entry per parameter. */
  lemma {:induction false} ParameterMapEntries(ps: seq<TypedSymbol>)
    requires UniqueKeys(ps)
    ensures |ParameterMap(ps)| == |ps|
    ensures forall i :: 0 <= i < |ps| ==> ParameterMap(ps)[ps[i].symbolPascalName] == ps[i]
  {
    if ps != [] {
      var init := ps[..|ps| - 1];
      var last := ps[|ps| - 1];
      ParameterMapEntries(init);
      assert last.symbolPascalName !in KeysOf(init) by {
        forall i | 0 <= i < |init| ensures init[i].symbolPascalName != last.symbolPascalName {
          assert init[i] == ps[i];
        }
      }
      forall i | 0 <= i < |ps| ensures ParameterMap(ps)[ps[i].symbolPascalName] == ps[i] {
        if i < |init| {
          assert ps[i] == init[i];
        }
      }
    }
  }

  /** `Constructor.Equals(Constructor)`: the same number of entries, and every
      entry of `b` is found under its key in `a` with an equal value. This is
      the overload the entity comparison reaches, so neither the variant nor a
      static factory's name takes part. */
  function ConstructorEquals(a: Constructor, b: Constructor): (r: bool)
    ensures r ==> |a.parameters| == |b.parameters|
  {
    |a.parameters| == |b.parameters| && Covers(a.parameters, b.parameters)
  }

  lemma SubsetOfSameSize(a: set<string>, b: set<string>)
    requires a <= b && |a| == |b|
    ensures a == b
  {
    assert |b - a| == |b| - |a| == 0;
    assert b == a + (b - a);
  }

  /** Every key of `b` is a key of `a`, under which `a` holds `b`'s value. */
  predicate Covers(a: seq<TypedSymbol>, b: seq<TypedSymbol>)
  {
    forall i :: 0 <= i < |b| ==>
      b[i].symbolPascalName in ParameterMap(a) && ParameterMap(a)[b[i].symbolPascalName] == b[i]
  }

  lemma CoversSameSizeIsMapEquality(a: seq<TypedSymbol>, b: seq<TypedSymbol>)
    requires UniqueKeys(a) && UniqueKeys(b) && |a| == |b| && Covers(a, b)
    ensures ParameterMap(a) == ParameterMap(b)
  {
    var ma, mb := ParameterMap(a), ParameterMap(b);
    ParameterMapEntries(a);
    ParameterMapEntries(b);
    assert mb.Keys <= ma.Keys by {
      forall k | k in mb.Keys ensures k in ma.Keys {
        var i :| 0 <= i < |b| && b[i].symbolPascalName == k;
      }
    }
    SubsetOfSameSize(mb.Keys, ma.Keys);
    forall k | k in ma.Keys ensures ma[k] == mb[k] {
      var i :| 0 <= i < |b| && b[i].symbolPascalName == k;
    }
  }

  lemma MapEqualityCovers(a: seq<TypedSymbol>, b: seq<TypedSymbol>)
    requires UniqueKeys(a) && UniqueKeys(b) && ParameterMap(a) == ParameterMap(b)
    ensures |a| == |b| && Covers(a, b)
  {
    ParameterMapEntries(a);
    ParameterMapEntries(b);
    forall i | 0 <= i < |b|
      ensures b[i].symbolPascalName in ParameterMap(a) && ParameterMap(a)[b[i].symbolPascalName] == b[i]
    {
      assert b[i].symbolPascalName in ParameterMap(b).Keys;
    }
  }

  /** For constructors with unique keys the comparison is exactly equality of
      the two parameter dictionaries: the order of the parameters does not matter. */
  lemma ConstructorEqualsIsMapEquality(a: Constructor, b: Constructor)
    requires UniqueKeys(a.parameters) && UniqueKeys(b.parameters)
    ensures ConstructorEquals(a, b) <==> ParameterMap(a.parameters) == ParameterMap(b.parameters)
  {
    if ConstructorEquals(a, b) {
      assert Covers(a.parameters, b.parameters);
      CoversSameSizeIsMapEquality(a.parameters, b.parameters);
    }
    if ParameterMap(a.parameters) == ParameterMap(b.parameters) {
      MapEqualityCovers(a.parameters, b.parameters);
    }
  }

  /** The comparison ignores the variant and the factory name: an object
      constructor equals a static factory with the same parameters. */
  lemma ConstructorEqualsIgnoresVariantAndName(ps: seq<TypedSymbol>, name: string)
    requires UniqueKeys(ps)
    ensures ConstructorEquals(ObjectConstructor(ps), Constructor.StaticConstructor(ps, name))
    ensures ConstructorEquals(Constructor.StaticConstructor(ps, name), ObjectConstructor(ps))
  {
    ConstructorEqualsIsMapEquality(ObjectConstructor(ps), Constructor.StaticConstructor(ps, name));
    ConstructorEqualsIsMapEquality(Constructor.StaticConstructor(ps, name), ObjectConstructor(ps));
  }

  /** Index of the selected constructor: `OrderByDescending` by parameter count
      then `First`, which, the sort being stable, is the first of the
      candidates with the most parameters. */
  function SelectConstructor(cs: seq<ConstructorData>): (i: nat)
    requires cs != []
    ensures i < |cs|
    ensures forall j :: 0 <= j < |cs| ==> |cs[j].parameters| <= |cs[i].parameters|
    ensures forall j :: 0 <= j < i ==> |cs[j].parameters| < |cs[i].parameters|
  {
    if |cs| == 1 then 0
    else
      var best := SelectConstructor(cs[..|cs| - 1]);
      if |cs[|cs| - 1].parameters| > |cs[best].parameters| then |cs| - 1 else best
  }

  /** The candidates: the instance constructors without a static factory
      name, the static methods with one. */
  function Candidates(entity: EntityDataProxies.EntityData, staticFactoryMethodName: Option<string>): seq<ConstructorData>
  {
    if staticFactoryMethodName.None? then entity.constructors else entity.staticMethods
  }

  predicate DistinctPascalNames(ps: seq<SymbolData>)
  {
    forall i, j :: 0 <= i < j < |ps| ==> ps[i].pascalCaseName != ps[j].pascalCaseName
  }

  /** Every symbol classified under one configuration. */
  function TypedAll(
    xs: seq<SymbolData>,
    mocking: Option<Mocking.MockingProperties>,
    fixture: Option<Fixture.FixtureProperties>,
    nullableStrategy: NullableStrategy): (r: seq<TypedSymbol>)
    ensures |r| == |xs| && AllValid(r)
    ensures forall i :: 0 <= i < |xs| ==>
      r[i].symbolPascalName == xs[i].pascalCaseName && r[i].symbolName == xs[i].name
  {
    if xs == [] then []
    else TypedAll(xs[..|xs| - 1], mocking, fixture, nullableStrategy)
         + [NewTypedSymbol(xs[|xs| - 1], mocking, fixture, nullableStrategy)]
  }

  /** `ToDictionary(x => x.PascalCaseName, ...)`: fails on a repeated key and
      otherwise keeps every parameter, classified, in order. */
  function ToParameterDictionary(
    ps: seq<SymbolData>,
    mocking: Option<Mocking.MockingProperties>,
    fixture: Option<Fixture.FixtureProperties>,
    nullableStrategy: NullableStrategy): (r: Result<seq<TypedSymbol>, EntityError>)
    ensures r.Success? <==> DistinctPascalNames(ps)
    ensures r.Success? ==> r.value == TypedAll(ps, mocking, fixture, nullableStrategy) && UniqueKeys(r.value)
  {
    if ps == [] then Success([])
    else
      var init := ps[..|ps| - 1];
      var last := ps[|ps| - 1];
      match ToParameterDictionary(init, mocking, fixture, nullableStrategy)
      case Failure(e) =>
        assert !DistinctPascalNames(ps) by {
          var i, j :| 0 <= i < j < |init| && init[i].pascalCaseName == init[j].pascalCaseName;
          assert ps[i] == init[i] && ps[j] == init[j];
        }
        Failure(e)
      case Success(prefix) =>
        if exists i :: 0 <= i < |init| && init[i].pascalCaseName == last.pascalCaseName then
          assert !DistinctPascalNames(ps) by {
            var i :| 0 <= i < |init| && init[i].pascalCaseName == last.pascalCaseName;
            assert ps[i] == init[i];
          }
          Failure(DuplicateParameterKey)
        else
          assert DistinctPascalNames(ps) by {
            forall i, j | 0 <= i < j < |ps| ensures ps[i].pascalCaseName != ps[j].pascalCaseName {
              assert ps[i] == init[i];
              if j < |init| {
                assert ps[j] == init[j];
              }
            }
          }
          Success(prefix + [NewTypedSymbol(last, mocking, fixture, nullableStrategy)])
  }

  /** `Constructor.CreateConstructorOrDefault`: no candidates give no
      constructor; otherwise the selected candidate's parameters are keyed by
      PascalCase name (failing on a repeated key) and wrapped as a static
      factory exactly when a factory name is configured. */
  function CreateConstructorOrDefault(
    entity: EntityDataProxies.EntityData,
    mocking: Option<Mocking.MockingProperties>,
    fixture: Option<Fixture.FixtureProperties>,
    nullableStrategy: NullableStrategy,
    staticFactoryMethodName: Option<string>): (r: Result<Option<Constructor>, EntityError>)
    ensures Candidates(entity, staticFactoryMethodName) == [] ==> r == Success(Option.None)
    ensures Candidates(entity, staticFactoryMethodName) != [] ==>
      var cs := Candidates(entity, staticFactoryMethodName);
      var selected := cs[SelectConstructor(cs)];
      && (r.Success? <==> DistinctPascalNames(selected.parameters))
      && (r.Success? ==>
            && r.value.Some?
            && r.value.value.Valid()
            && r.value.value.parameters == TypedAll(selected.parameters, mocking, fixture, nullableStrategy)
            && (forall c <- cs :: |c.parameters| <= |r.value.value.parameters|)
            && (r.value.value.StaticConstructor? <==> staticFactoryMethodName.Some?)
            && (r.value.value.StaticConstructor? ==> r.value.value.name == selected.name))
  {
    var cs := Candidates(entity, staticFactoryMethodName);
    if cs == [] then Success(Option.None)
    else
      var selected := cs[SelectConstructor(cs)];
      match ToParameterDictionary(selected.parameters, mocking, fixture, nullableStrategy)
      case Failure(e) => Failure(e)
      case Success(parameters) =>
        if staticFactoryMethodName.None? then Success(Some(ObjectConstructor(parameters)))
        else Success(Some(Constructor.StaticConstructor(parameters, selected.name)))
  }

  /** `Where(x => !ConstructorToBuild.ContainsParameter(x.SymbolName))`: the
      symbols whose own name is not a parameter key, in order. */
  function WithoutParameters(xs: seq<TypedSymbol>, c: Constructor): (r: seq<TypedSymbol>)
    ensures |r| <= |xs|
  {
    if xs == [] then []
    else
      WithoutParameters(xs[..|xs| - 1], c)
      + (if ContainsParameter(c, xs[|xs| - 1].symbolName) then [] else [xs[|xs| - 1]])
  }

  /** The filter keeps exactly the symbols whose name is not a parameter key. */
  lemma {:induction false} WithoutParametersMembers(xs: seq<TypedSymbol>, c: Constructor)
    ensures forall x :: x in WithoutParameters(xs, c) <==> x in xs && !ContainsParameter(c, x.symbolName)
  {
    if xs != [] {
      var init, last := xs[..|xs| - 1], xs[|xs| - 1];
      WithoutParametersMembers(init, c);
      assert xs == init + [last];
    }
  }

  /** The filter keeps order: it distributes over concatenation. */
  lemma {:induction false} WithoutParametersDistributes(xs: seq<TypedSymbol>, ys: seq<TypedSymbol>, c: Constructor)
    ensures WithoutParameters(xs + ys, c) == WithoutParameters(xs, c) + WithoutParameters(ys, c)
  {
    if ys == [] {
      assert xs + ys == xs;
    } else {
      var init := ys[..|ys| - 1];
      var last := ys[|ys| - 1];
      assert (xs + ys)[..|xs + ys| - 1] == xs + init;
      assert (xs + ys)[|xs + ys| - 1] == last;
      WithoutParametersDistributes(xs, init, c);
    }
  }

  /** The filter changes nothing when no name is a parameter key. */
  lemma {:induction false} WithoutParametersKeepsUncovered(xs: seq<TypedSymbol>, c: Constructor)
    requires forall i :: 0 <= i < |xs| ==> !ContainsParameter(c, xs[i].symbolName)
    ensures WithoutParameters(xs, c) == xs
  {
    if xs != [] {
      var init, last := xs[..|xs| - 1], xs[|xs| - 1];
      forall i | 0 <= i < |init| ensures !ContainsParameter(c, init[i].symbolName) {
        assert init[i] == xs[i];
      }
      WithoutParametersKeepsUncovered(init, c);
      assert WithoutParameters(xs, c) == WithoutParameters(init, c) + [last];
      assert xs == init + [last];
    }
  }

  /** The entity the builder is generated for. `properties` are the
      properties set after construction, `uniqueTypedSymbols` those followed by
      the constructor's parameters, and `uniqueReadOnlyTypedSymbols` the
      read-only properties no parameter covers. */
  datatype EntityToBuild = EntityToBuild(
    name: string,
    fullName: string,
    fullNameWithConstraints: string,
    constructorToBuild: Option<Constructor>,
    properties: seq<TypedSymbol>,
    uniqueTypedSymbols: seq<TypedSymbol>,
    uniqueReadOnlyTypedSymbols: seq<TypedSymbol>,
    additionalNamespaces: StringArray,
    nullableStrategy: NullableStrategy)
  {
    predicate Valid()
    {
      && (constructorToBuild.Some? ==> constructorToBuild.value.Valid())
      && AllValid(properties)
      && AllValid(uniqueTypedSymbols)
      && AllValid(uniqueReadOnlyTypedSymbols)
    }
  }

  lemma TypedAllStep(
    xs: seq<SymbolData>,
    mocking: Option<Mocking.MockingProperties>,
    fixture: Option<Fixture.FixtureProperties>,
    nullableStrategy: NullableStrategy,
    i: nat)
    requires i < |xs|
    ensures TypedAll(xs[..i + 1], mocking, fixture, nullableStrategy)
      == TypedAll(xs[..i], mocking, fixture, nullableStrategy) + [NewTypedSymbol(xs[i], mocking, fixture, nullableStrategy)]
  {
    assert xs[..i + 1][..i] == xs[..i];
  }

  /** One `foreach` of `DividePropertiesBySetability`: classifies each
      property, in order, into a fresh list. */
  method ClassifyEach(
    properties: seq<SymbolData>,
    mocking: Option<Mocking.MockingProperties>,
    fixture: Option<Fixture.FixtureProperties>,
    nullableStrategy: NullableStrategy)
    returns (typed: seq<TypedSymbol>)
    ensures typed == TypedAll(properties, mocking, fixture, nullableStrategy)
  {
    typed := [];
    for i := 0 to |properties|
      invariant typed == TypedAll(properties[..i], mocking, fixture, nullableStrategy)
    {
      TypedAllStep(properties, mocking, fixture, nullableStrategy, i);
      typed := typed + [NewTypedSymbol(properties[i], mocking, fixture, nullableStrategy)];
    }
    assert properties[..|properties|] == properties;
  }

  /** `DividePropertiesBySetability`: the settable and the unsettable
      properties, each classified in its own loop. */
  method DividePropertiesBySetability(
    entity: EntityDataProxies.EntityData,
    mocking: Option<Mocking.MockingProperties>,
    fixture: Option<Fixture.FixtureProperties>,
    nullableStrategy: NullableStrategy)
    returns (settable: seq<TypedSymbol>, readOnly: seq<TypedSymbol>)
    ensures settable == TypedAll(entity.settableProperties, mocking, fixture, nullableStrategy)
    ensures readOnly == TypedAll(entity.unsettableProperties, mocking, fixture, nullableStrategy)
  {
    settable := ClassifyEach(entity.settableProperties, mocking, fixture, nullableStrategy);
    readOnly := ClassifyEach(entity.unsettableProperties, mocking, fixture, nullableStrategy);
  }

  /** The `EntityToBuild` constructor. Without a constructor to call, every
      settable property is set through the builder and the read-only list is
      kept whole. With one, the properties its parameters cover are dropped
      from both lists, and the parameters follow the remaining settable ones
      in the unique list. */
  method NewEntityToBuild(
    entity: EntityDataProxies.EntityData,
    mocking: Option<Mocking.MockingProperties>,
    fixture: Option<Fixture.FixtureProperties>,
    nullableStrategy: NullableStrategy,
    staticFactoryMethodName: Option<string>)
    returns (r: Result<EntityToBuild, EntityError>)
    ensures r.Failure? <==> CreateConstructorOrDefault(entity, mocking, fixture, nullableStrategy, staticFactoryMethodName).Failure?
    ensures r.Success? ==>
      && r.value.Valid()
      && r.value.name == entity.name
      && r.value.fullName == entity.fullName
      && r.value.fullNameWithConstraints == entity.fullNameWithConstraints
      && r.value.additionalNamespaces == entity.additionalNamespaces
      && r.value.nullableStrategy == nullableStrategy
      && r.value.constructorToBuild
         == CreateConstructorOrDefault(entity, mocking, fixture, nullableStrategy, staticFactoryMethodName).value
    ensures r.Success? ==>
      var settable := TypedAll(entity.settableProperties, mocking, fixture, nullableStrategy);
      var readOnly := TypedAll(entity.unsettableProperties, mocking, fixture, nullableStrategy);
      match r.value.constructorToBuild
      case None =>
        && r.value.properties == settable
        && r.value.uniqueTypedSymbols == settable
        && r.value.uniqueReadOnlyTypedSymbols == readOnly
      case Some(c) =>
        && r.value.properties == WithoutParameters(settable, c)
        && r.value.uniqueTypedSymbols == WithoutParameters(settable, c) + c.parameters
        && r.value.uniqueReadOnlyTypedSymbols == WithoutParameters(readOnly, c)
  {
    var created := CreateConstructorOrDefault(entity, mocking, fixture, nullableStrategy, staticFactoryMethodName);
    if created.Failure? {
      return Failure(created.error);
    }
    var constructorToBuild := created.value;
    var properties, uniqueReadOnly := DividePropertiesBySetability(entity, mocking, fixture, nullableStrategy);
    var unique := properties;
    if constructorToBuild.Some? {
      WithoutParametersMembers(properties, constructorToBuild.value);
      WithoutParametersMembers(uniqueReadOnly, constructorToBuild.value);
      properties := WithoutParameters(properties, constructorToBuild.value);
      unique := properties + constructorToBuild.value.parameters;
      uniqueReadOnly := WithoutParameters(uniqueReadOnly, constructorToBuild.value);
    }
    r := Success(EntityToBuild(
      entity.name, entity.fullName, entity.fullNameWithConstraints, constructorToBuild,
      properties, unique, uniqueReadOnly, entity.additionalNamespaces, nullableStrategy));
  }

  // ---------------------------------------------------------------------
  // Rendering of `Build` and `BuildDefault`.

  /** The lazy value of each symbol, in order. */
  function LazyValues(xs: seq<TypedSymbol>): (r: seq<string>)
    requires AllValid(xs)
    ensures |r| == |xs|
  {
    if xs == [] then []
    else LazyValues(xs[..|xs| - 1]) + [GenerateLazyFieldValueReturn(xs[|xs| - 1])]
  }

  /** The plain value of each symbol, in order. */
  function Values(xs: seq<TypedSymbol>): (r: seq<string>)
    requires AllValid(xs)
    ensures |r| == |xs|
  {
    if xs == [] then []
    else Values(xs[..|xs| - 1]) + [GenerateFieldValueReturn(xs[|xs| - 1])]
  }

  /** The i-th plain value is that of the i-th symbol. */
  lemma {:induction false} ValuesAt(xs: seq<TypedSymbol>, i: nat)
    requires AllValid(xs) && i < |xs|
    ensures Values(xs)[i] == GenerateFieldValueReturn(xs[i])
  {
    var init := xs[..|xs| - 1];
    AllValidPrefix(xs, |xs| - 1);
    assert Values(xs) == Values(init) + [GenerateFieldValueReturn(xs[|xs| - 1])];
    if i < |init| {
      ValuesAt(init, i);
      assert xs[i] == init[i];
    }
  }

  /** `Name = value` for each property, with lazy or plain values. */
  function Assignments(xs: seq<TypedSymbol>, lazy: bool): (r: seq<string>)
    requires AllValid(xs)
    ensures |r| == |xs|
  {
    if xs == [] then []
    else Assignments(xs[..|xs| - 1], lazy) + [Assignment(xs[|xs| - 1], lazy)]
  }

  /** The i-th assignment sets the i-th property by its name. */
  lemma {:induction false} AssignmentsAt(xs: seq<TypedSymbol>, lazy: bool, i: nat)
    requires AllValid(xs) && i < |xs|
    ensures Assignments(xs, lazy)[i] == Assignment(xs[i], lazy)
  {
    var init := xs[..|xs| - 1];
    AllValidPrefix(xs, |xs| - 1);
    assert Assignments(xs, lazy) == Assignments(init, lazy) + [Assignment(xs[|xs| - 1], lazy)];
    if i < |init| {
      AssignmentsAt(init, lazy, i);
      assert xs[i] == init[i];
    }
  }

  /** `Name = value` for one property. */
  function Assignment(x: TypedSymbol, lazy: bool): string
    requires x.Valid()
  {
    x.symbolName + " = " + (if lazy then GenerateLazyFieldValueReturn(x) else GenerateFieldValueReturn(x))
  }

  /** The object initializer after `new T(...)`: the assignments line is left
      out when there is nothing to assign. */
  function InitializerLines(assignment: string): Code
  {
    [OpenBrace] + (if assignment == "" then [] else [assignment]) + [InitializerClose]
  }

  /** The pragma pair around a method, present only under `Enabled`. */
  function DisableWarning(nullableStrategy: NullableStrategy, warning: string): Code
  {
    if nullableStrategy == Enabled then [PragmaDisable + warning] else []
  }

  function RestoreWarning(nullableStrategy: NullableStrategy, warning: string): Code
  {
    if nullableStrategy == Enabled then [PragmaRestore + warning] else []
  }

  /** The statement fetching the entity's type for reflection. */
  function TypeHandleLine(fullName: string): string
  {
    TypeHandleOpen + fullName + CloseCall
  }

  /** `t.GetProperty("Name")`. */
  function PropertyLookup(name: string): string
  {
    GetPropertyOpen + name + CloseQuote
  }

  /** The null-forgiving operator, written only under `Enabled`. */
  function NullForgiving(nullableStrategy: NullableStrategy): string
  {
    if nullableStrategy == Enabled then "!" else ""
  }

  /** The `SetValue` call storing the symbol's lazy value. */
  function SetValueCall(a: TypedSymbol): string
    requires a.Valid()
  {
    SetValueOpen + GenerateLazyFieldValueReturn(a) + SetValueClose
  }

  /** One reflection line of `GenerateUnreachableProperties`: its three appends. */
  function ReflectionSetLine(a: TypedSymbol, nullableStrategy: NullableStrategy): string
    requires a.Valid()
  {
    PropertyLookup(a.symbolName) + NullForgiving(nullableStrategy) + SetValueCall(a)
  }

  function ReflectionSetLines(xs: seq<TypedSymbol>, nullableStrategy: NullableStrategy): (r: Code)
    requires AllValid(xs)
    ensures |r| == |xs|
  {
    if xs == [] then []
    else ReflectionSetLines(xs[..|xs| - 1], nullableStrategy) + [ReflectionSetLine(xs[|xs| - 1], nullableStrategy)]
  }

  /** What `GenerateUnreachableProperties` appends: the type handle, then one
      reflection `SetValue` line per read-only property no parameter covers. */
  function UnreachablePropertiesCode(e: EntityToBuild): Code
    requires e.Valid()
  {
    [TypeHandleLine(e.fullName)] + ReflectionSetLines(e.uniqueReadOnlyTypedSymbols, e.nullableStrategy)
  }

  /** The local function `GenerateUnreachableProperties`, appending line by line. */
  method GenerateUnreachableProperties(e: EntityToBuild) returns (output: Code)
    requires e.Valid()
    ensures output == UnreachablePropertiesCode(e)
  {
    output := [TypeHandleLine(e.fullName)];
    var readOnly := e.uniqueReadOnlyTypedSymbols;
    for i := 0 to |readOnly|
      invariant AllValid(readOnly[..i])
      invariant output == [TypeHandleLine(e.fullName)] + ReflectionSetLines(readOnly[..i], e.nullableStrategy)
    {
      AllValidPrefix(readOnly, i + 1);
      var a := readOnly[i];
      var line := PropertyLookup(a.symbolName);
      line := line + NullForgiving(e.nullableStrategy);
      line := line + SetValueCall(a);
      assert line == ReflectionSetLine(a, e.nullableStrategy);
      ReflectionSetLinesStep(readOnly, e.nullableStrategy, i);
      Text.AppendAfterHeader(TypeHandleLine(e.fullName), ReflectionSetLines(readOnly[..i], e.nullableStrategy), line);
      output := output + [line];
    }
    assert readOnly[..|readOnly|] == readOnly;
  }

  lemma ReflectionSetLinesStep(xs: seq<TypedSymbol>, nullableStrategy: NullableStrategy, i: nat)
    requires AllValid(xs) && i < |xs|
    ensures ReflectionSetLines(xs[..i + 1], nullableStrategy)
      == ReflectionSetLines(xs[..i], nullableStrategy) + [ReflectionSetLine(xs[i], nullableStrategy)]
  {
    assert xs[..i + 1][..i] == xs[..i];
  }

  /** The reflection block: the type handle, then for each read-only property
      no parameter covers, in order, its `SetValue` line. */
  lemma UnreachablePropertiesShape(e: EntityToBuild)
    requires e.Valid()
    ensures var code := UnreachablePropertiesCode(e);
      && |code| == 1 + |e.uniqueReadOnlyTypedSymbols|
      && code[0] == TypeHandleLine(e.fullName)
      && forall i :: 0 <= i < |e.uniqueReadOnlyTypedSymbols| ==>
           code[i + 1] == ReflectionSetLine(e.uniqueReadOnlyTypedSymbols[i], e.nullableStrategy)
  {
    var readOnly := e.uniqueReadOnlyTypedSymbols;
    var lines := ReflectionSetLines(readOnly, e.nullableStrategy);
    Text.LinesAfterHeader(TypeHandleLine(e.fullName), lines);
    forall i | 0 <= i < |readOnly|
      ensures lines[i] == ReflectionSetLine(readOnly[i], e.nullableStrategy)
    {
      ReflectionSetLinesAt(readOnly, e.nullableStrategy, i);
    }
  }

  /** A reflection line sets the property of that name through `GetProperty`,
      with the null-forgiving `!` exactly under `Enabled`. */
  lemma ReflectionSetLineShape(a: TypedSymbol, nullableStrategy: NullableStrategy)
    requires a.Valid()
    ensures Text.StartsWith(ReflectionSetLine(a, nullableStrategy),
      GetPropertyOpen + a.symbolName + CloseQuote + NullForgiving(nullableStrategy) + SetValueOpen)
  {
    Text.StartsWithOpening(PropertyLookup(a.symbolName) + NullForgiving(nullableStrategy),
      SetValueOpen, GenerateLazyFieldValueReturn(a), SetValueClose);
  }

  lemma {:induction false} ReflectionSetLinesAt(xs: seq<TypedSymbol>, nullableStrategy: NullableStrategy, i: nat)
    requires AllValid(xs) && i < |xs|
    ensures ReflectionSetLines(xs, nullableStrategy)[i] == ReflectionSetLine(xs[i], nullableStrategy)
  {
    var init := xs[..|xs| - 1];
    var front := ReflectionSetLines(init, nullableStrategy);
    assert ReflectionSetLines(xs, nullableStrategy) == front + [ReflectionSetLine(xs[|xs| - 1], nullableStrategy)];
    if i < |init| {
      ReflectionSetLinesAt(init, nullableStrategy, i);
      assert xs[i] == init[i];
    } else {
      assert i == |init|;
    }
  }

  /** `GenerateLazyBuildEntityString`: creates `result` through the factory or
      through `new` with an initializer for the properties, optionally sets
      the unreachable properties by reflection, then runs `PostBuild`. */
  function LazyBuildEntityLines(e: EntityToBuild, c: Constructor, unreachable: bool): (r: Code)
    requires e.Valid() && c.Valid()
    ensures var creation := CreationLines(e, c);
      && |r| == |creation| + (if unreachable then 1 + |e.uniqueReadOnlyTypedSymbols| else 0) + 2
      && r[..|creation|] == creation
      && r[|r| - 2] == PostBuildMethodName + ResultCall
      && r[|r| - 1] == ReturnResult
  {
    CreationLines(e, c)
    + (if unreachable then UnreachablePropertiesCode(e) else [])
    + [PostBuildMethodName + ResultCall, ReturnResult]
  }

  /** The statement creating `result`, with lazy values. */
  function CreationLines(e: EntityToBuild, c: Constructor): Code
    requires e.Valid() && c.Valid()
  {
    var arguments := Text.ComaJoin(LazyValues(c.parameters));
    match c
    case StaticConstructor(_, name) => [VarResult + e.fullName + "." + name + "(" + arguments + CloseCall]
    case ObjectConstructor(_) =>
      [NewResult + e.fullName + "(" + arguments + ")"]
      + InitializerLines(Text.ComaJoin(Assignments(e.properties, true)))
  }

  /** `Build` creates `result` through the static factory, passing the lazy
      values of the constructor's parameters in order, or through `new` with
      those values followed by an initializer that assigns the lazy value of
      every property. */
  lemma CreationLinesShape(e: EntityToBuild, c: Constructor)
    requires e.Valid() && c.Valid()
    ensures var r := CreationLines(e, c);
      c.StaticConstructor? ==>
      var front := VarResult + e.fullName + "." + c.name + "(";
      && |r| == 1
      && Text.StartsWith(r[0], front)
      && |front| + |CloseCall| <= |r[0]|
      && r[0][|front|..|r[0]| - |CloseCall|] == Text.ComaJoin(LazyValues(c.parameters))
      && r[0][|r[0]| - |CloseCall|..] == CloseCall
    ensures var r := CreationLines(e, c);
      c.ObjectConstructor? ==>
      var front := NewResult + e.fullName + "(";
      var assignment := Text.ComaJoin(Assignments(e.properties, true));
      && |r| == (if assignment == "" then 3 else 4)
      && Text.StartsWith(r[0], front)
      && |front| < |r[0]|
      && r[0][|front|..|r[0]| - 1] == Text.ComaJoin(LazyValues(c.parameters))
      && r[0][|r[0]| - 1] == ')'
      && r[1] == OpenBrace && r[|r| - 1] == InitializerClose
      && (assignment != "" ==> r[2] == assignment)
  {
    var arguments := Text.ComaJoin(LazyValues(c.parameters));
    match c
    case StaticConstructor(_, name) =>
      Text.Enclosed(VarResult + e.fullName + "." + name + "(", arguments, CloseCall);
    case ObjectConstructor(_) =>
      Text.Enclosed(NewResult + e.fullName + "(", arguments, ")");
  }

  function BuildHeader(e: EntityToBuild): Code
  {
    DisableWarning(e.nullableStrategy, NullableArgumentWarning) + [PublicModifier + e.fullName + " " + BuildMethodName + "()", OpenBrace]
  }

  /** `GenerateBuildsCode`: nothing without a constructor; otherwise the
      `Build` method, between the CS8604 pragmas under `Enabled`. */
  function GenerateBuildsCode(e: EntityToBuild, shouldGenerateMethodsForUnreachableProperties: bool): (r: Code)
    requires e.Valid()
    ensures r == [] <==> e.constructorToBuild.None?
  {
    match e.constructorToBuild
    case None => []
    case Some(c) =>
      BuildHeader(e)
      + LazyBuildEntityLines(e, c, shouldGenerateMethodsForUnreachableProperties)
      + [CloseBrace]
      + RestoreWarning(e.nullableStrategy, NullableArgumentWarning)
  }

  /** The CS8604 pragmas open and close the `Build` method exactly under
      `Enabled`; otherwise the method's own header and brace do. */
  lemma BuildsCodePragmas(e: EntityToBuild, unreachable: bool)
    requires e.Valid() && e.constructorToBuild.Some?
    ensures var code := GenerateBuildsCode(e, unreachable);
      && (code[0] == PragmaDisable + NullableArgumentWarning <==> e.nullableStrategy == Enabled)
      && (code[|code| - 1] == PragmaRestore + NullableArgumentWarning <==> e.nullableStrategy == Enabled)
      && (e.nullableStrategy != Enabled ==>
            code[0] == PublicModifier + e.fullName + " " + BuildMethodName + "()" && code[|code| - 1] == CloseBrace)
  {
    var code := GenerateBuildsCode(e, unreachable);
    if e.nullableStrategy != Enabled {
      assert code[0] == PublicModifier + e.fullName + " " + BuildMethodName + "()";
      assert code[0][0] == 'p';
    }
  }

  /** The `Build` method always ends by running `PostBuild` on the result,
      returning it and closing the method. */
  lemma BuildsCodeEndsWithPostBuild(e: EntityToBuild, unreachable: bool)
    requires e.Valid() && e.constructorToBuild.Some?
    ensures var code := GenerateBuildsCode(e, unreachable);
      var end := |code| - |RestoreWarning(e.nullableStrategy, NullableArgumentWarning)|;
      && 3 <= end
      && code[end - 3] == PostBuildMethodName + ResultCall
      && code[end - 2] == ReturnResult
      && code[end - 1] == CloseBrace
  {
    var c := e.constructorToBuild.value;
    var restore := RestoreWarning(e.nullableStrategy, NullableArgumentWarning);
    var body := LazyBuildEntityLines(e, c, unreachable);
    var code := GenerateBuildsCode(e, unreachable);
    assert code == BuildHeader(e) + body + [CloseBrace] + restore;
    var end := |code| - |restore|;
    assert end == |BuildHeader(e)| + |body| + 1;
    assert code[end - 1] == CloseBrace;
    assert code[end - 2] == body[|body| - 1] == ReturnResult;
    assert code[end - 3] == body[|body| - 2];
  }

  /** The unreachable-properties flag only inserts the reflection block just
      before the `PostBuild` call; everything else is the same. */
  lemma BuildsCodeUnreachableBlock(e: EntityToBuild)
    requires e.Valid() && e.constructorToBuild.Some?
    ensures var without := GenerateBuildsCode(e, false);
      var k := |without| - |RestoreWarning(e.nullableStrategy, NullableArgumentWarning)| - 3;
      && 0 <= k
      && GenerateBuildsCode(e, true) == without[..k] + UnreachablePropertiesCode(e) + without[k..]
      && |GenerateBuildsCode(e, true)| == |without| + 1 + |e.uniqueReadOnlyTypedSymbols|
  {
    var c := e.constructorToBuild.value;
    var header, front, block := BuildHeader(e), CreationLines(e, c), UnreachablePropertiesCode(e);
    var back, trailer := [PostBuildMethodName + ResultCall, ReturnResult], RestoreWarning(e.nullableStrategy, NullableArgumentWarning);
    assert LazyBuildEntityLines(e, c, false) == front + [] + back;
    assert LazyBuildEntityLines(e, c, true) == front + block + back;
    assert GenerateBuildsCode(e, false) == header + (front + [] + back) + [CloseBrace] + trailer;
    assert GenerateBuildsCode(e, true) == header + (front + block + back) + [CloseBrace] + trailer;
    Text.InsertBlock(header, front, block, back, [CloseBrace], trailer);
  }

  /** One `T _name = default(T)` parameter per symbol, in order. */
  function DefaultBuildParameters(xs: seq<TypedSymbol>): (r: seq<string>)
    requires AllValid(xs)
    ensures |r| == |xs|
  {
    if xs == [] then []
    else
      var x := xs[|xs| - 1];
      DefaultBuildParameters(xs[..|xs| - 1])
      + [GenerateFieldType(x) + " " + x.underScoreName + DefaultAssignment + GenerateFieldType(x) + ")"]
  }

  /** The mock initialisations `BuildDefault` starts with: one per mockable
      symbol, in order. */
  function MockInitLines(xs: seq<TypedSymbol>): (r: Code)
    requires AllValid(xs)
    ensures |r| <= |xs|
  {
    if xs == [] then []
    else
      var x := xs[|xs| - 1];
      MockInitLines(xs[..|xs| - 1]) + (if x.isMockable then [GenerateFieldInitialization(x)] else [])
  }

  /** The initialisations keep the symbols' order: they distribute over
      concatenation. */
  lemma {:induction false} MockInitLinesDistributes(xs: seq<TypedSymbol>, ys: seq<TypedSymbol>)
    requires AllValid(xs) && AllValid(ys)
    ensures AllValid(xs + ys)
    ensures MockInitLines(xs + ys) == MockInitLines(xs) + MockInitLines(ys)
    decreases |ys|
  {
    if ys == [] {
      assert xs + ys == xs;
    } else {
      var init := ys[..|ys| - 1];
      var last := ys[|ys| - 1];
      AllValidPrefix(ys, |ys| - 1);
      assert (xs + ys)[..|xs + ys| - 1] == xs + init;
      assert (xs + ys)[|xs + ys| - 1] == last;
      MockInitLinesDistributes(xs, init);
    }
  }

  /** Every mockable symbol gets its initialisation line. */
  lemma {:induction false} MockInitLinesComplete(xs: seq<TypedSymbol>)
    requires AllValid(xs)
    ensures forall i :: 0 <= i < |xs| && xs[i].isMockable ==> GenerateFieldInitialization(xs[i]) in MockInitLines(xs)
  {
    if xs != [] {
      var init := xs[..|xs| - 1];
      MockInitLinesComplete(init);
      forall i | 0 <= i < |xs| - 1 && xs[i].isMockable
        ensures GenerateFieldInitialization(xs[i]) in MockInitLines(xs)
      {
        assert xs[i] == init[i];
      }
    }
  }

  /** Every line is the (non-empty) initialisation of a mockable symbol. */
  lemma {:induction false} MockInitLinesOnlyMockable(xs: seq<TypedSymbol>)
    requires AllValid(xs)
    ensures forall l <- MockInitLines(xs) ::
      exists i :: 0 <= i < |xs| && xs[i].isMockable && l == GenerateFieldInitialization(xs[i])
    ensures forall l <- MockInitLines(xs) :: l != ""
  {
    if xs != [] {
      var init := xs[..|xs| - 1];
      var last := xs[|xs| - 1];
      MockInitLinesOnlyMockable(init);
      forall l <- MockInitLines(xs)
        ensures exists i :: 0 <= i < |xs| && xs[i].isMockable && l == GenerateFieldInitialization(xs[i])
      {
        if l in MockInitLines(init) {
          var i :| 0 <= i < |init| && init[i].isMockable && l == GenerateFieldInitialization(init[i]);
          assert xs[i] == init[i];
        } else {
          assert xs[|xs| - 1] == last;
        }
      }
      forall l <- MockInitLines(xs) ensures l != "" {
        if l !in MockInitLines(init) {
          assert last in xs;
        }
      }
    }
  }

  /** `GenerateDefaultBuildEntityString`: returns the entity made through the
      factory or through `new` with an initializer, with plain values. */
  function DefaultBuildEntityLines(e: EntityToBuild, c: Constructor): (r: Code)
    requires e.Valid() && c.Valid()
    ensures c.StaticConstructor? ==>
      |r| == 1 && Text.StartsWith(r[0], ReturnKeyword + e.fullName + "." + c.name + "(")
    ensures c.ObjectConstructor? ==>
      && 3 <= |r| <= 4
      && Text.StartsWith(r[0], ReturnNew + e.fullName + "(")
      && r[1] == OpenBrace && r[|r| - 1] == InitializerClose
    ensures c.StaticConstructor? ==>
      var front := ReturnKeyword + e.fullName + "." + c.name + "(";
      && |front| + |CloseCall| <= |r[0]|
      && r[0][|front|..|r[0]| - |CloseCall|] == Text.ComaJoin(Values(c.parameters))
      && r[0][|r[0]| - |CloseCall|..] == CloseCall
    ensures c.ObjectConstructor? ==>
      var front := ReturnNew + e.fullName + "(";
      var assignment := Text.ComaJoin(Assignments(e.properties, false));
      && |r| == (if assignment == "" then 3 else 4)
      && |front| < |r[0]|
      && r[0][|front|..|r[0]| - 1] == Text.ComaJoin(Values(c.parameters))
      && r[0][|r[0]| - 1] == ')'
      && (assignment != "" ==> r[2] == assignment)
  {
    var arguments := Text.ComaJoin(Values(c.parameters));
    match c
    case StaticConstructor(_, name) =>
      Text.Enclosed(ReturnKeyword + e.fullName + "." + name + "(", arguments, CloseCall);
      [ReturnKeyword + e.fullName + "." + name + "(" + arguments + CloseCall]
    case ObjectConstructor(_) =>
      Text.Enclosed(ReturnNew + e.fullName + "(", arguments, ")");
      [ReturnNew + e.fullName + "(" + arguments + ")"]
      + InitializerLines(Text.ComaJoin(Assignments(e.properties, false)))
  }

  /** `GenerateDefaultBuildsCode`: nothing without a constructor; otherwise the
      static `BuildDefault` method, taking one defaulted parameter per
      constructor parameter and then per property, between the CS8625 pragmas
      under `Enabled`. */
  function GenerateDefaultBuildsCode(e: EntityToBuild): (r: Code)
    requires e.Valid()
    ensures r == [] <==> e.constructorToBuild.None?
  {
    match e.constructorToBuild
    case None => []
    case Some(c) =>
      DisableWarning(e.nullableStrategy, NullLiteralWarning)
      + [PublicStatic + e.fullName + BuildDefaultOpen + Text.ComaJoin(DefaultBuildParameters(c.parameters + e.properties)) + ")", OpenBrace]
      + MockInitLines(c.parameters + e.properties)
      + DefaultBuildEntityLines(e, c)
      + [CloseBrace]
      + RestoreWarning(e.nullableStrategy, NullLiteralWarning)
  }

  /** The shape of `BuildDefault`: CS8625 pragmas exactly under `Enabled`, a
      header declaring one parameter per constructor parameter and then per
      property, followed by the mock initialisations of the mockable ones. */
  lemma DefaultBuildsCodeShape(e: EntityToBuild)
    requires e.Valid() && e.constructorToBuild.Some?
    ensures var code := GenerateDefaultBuildsCode(e);
      var c := e.constructorToBuild.value;
      var d := |DisableWarning(e.nullableStrategy, NullLiteralWarning)|;
      var inits := MockInitLines(c.parameters + e.properties);
      && (code[0] == PragmaDisable + NullLiteralWarning <==> e.nullableStrategy == Enabled)
      && (code[|code| - 1] == PragmaRestore + NullLiteralWarning <==> e.nullableStrategy == Enabled)
      && |DefaultBuildParameters(c.parameters + e.properties)| == |c.parameters| + |e.properties|
      && code[d] == PublicStatic + e.fullName + BuildDefaultOpen
                    + Text.ComaJoin(DefaultBuildParameters(c.parameters + e.properties)) + ")"
      && code[d + 2..d + 2 + |inits|] == inits
  {
    var code := GenerateDefaultBuildsCode(e);
    var c := e.constructorToBuild.value;
    var disable := DisableWarning(e.nullableStrategy, NullLiteralWarning);
    var header := [PublicStatic + e.fullName + BuildDefaultOpen + Text.ComaJoin(DefaultBuildParameters(c.parameters + e.properties)) + ")", OpenBrace];
    var inits := MockInitLines(c.parameters + e.properties);
    var rest := DefaultBuildEntityLines(e, c) + [CloseBrace] + RestoreWarning(e.nullableStrategy, NullLiteralWarning);
    assert code == disable + header + inits + rest;
    assert code[|disable| + 2..|disable| + 2 + |inits|] == inits;
    if e.nullableStrategy != Enabled {
      assert code[0][0] == 'p';
      assert code[|code| - 1] == CloseBrace;
    }
  }

  /** `EntityToBuild.Equals`: the full name with constraints, the constructor
      (both absent, or equal by `ConstructorEquals`), the nullable strategy,
      the properties and the namespaces. The plain names and the unique and
      read-only lists are not compared. */
  function Equals(a: EntityToBuild, b: EntityToBuild): (r: bool)
    ensures r ==>
      && a.fullNameWithConstraints == b.fullNameWithConstraints
      && a.nullableStrategy == b.nullableStrategy
      && a.properties == b.properties
      && a.additionalNamespaces == b.additionalNamespaces
      && (a.constructorToBuild.Some? <==> b.constructorToBuild.Some?)
  {
    && b.fullNameWithConstraints == a.fullNameWithConstraints
    && (|| (b.constructorToBuild.None? && a.constructorToBuild.None?)
        || (b.constructorToBuild.Some? && a.constructorToBuild.Some?
            && ConstructorEquals(b.constructorToBuild.value, a.constructorToBuild.value)))
    && b.nullableStrategy == a.nullableStrategy
    && b.properties == a.properties
    && b.additionalNamespaces == a.additionalNamespaces
  }

  /** On valid entities the comparison is an equivalence relation, and two
      entities that differ only in what it does not compare are equal. */
  lemma EqualsIsEquivalence(a: EntityToBuild, b: EntityToBuild, c: EntityToBuild)
    requires a.Valid() && b.Valid() && c.Valid()
    ensures Equals(a, a)
    ensures Equals(a, b) ==> Equals(b, a)
    ensures Equals(a, b) && Equals(b, c) ==> Equals(a, c)
    ensures Equals(a, a.(name := b.name, fullName := b.fullName,
                         uniqueTypedSymbols := b.uniqueTypedSymbols,
                         uniqueReadOnlyTypedSymbols := b.uniqueReadOnlyTypedSymbols))
  {
    if a.constructorToBuild.Some? {
      ConstructorEqualsIsMapEquality(a.constructorToBuild.value, a.constructorToBuild.value);
      if b.constructorToBuild.Some? {
        ConstructorEqualsIsMapEquality(a.constructorToBuild.value, b.constructorToBuild.value);
        ConstructorEqualsIsMapEquality(b.constructorToBuild.value, a.constructorToBuild.value);
        if c.constructorToBuild.Some? {
          ConstructorEqualsIsMapEquality(b.constructorToBuild.value, c.constructorToBuild.value);
          ConstructorEqualsIsMapEquality(c.constructorToBuild.value, b.constructorToBuild.value);
          ConstructorEqualsIsMapEquality(c.constructorToBuild.value, a.constructorToBuild.value);
        }
      }
    }
  }
}
