/** `PropertiesStringGenerator`: the builder's backing fields and its
    `With…` setter methods, one per entity member the hand-written builder
    does not already declare. */
module PropertiesGenerator {
  import opened Proxies
  import opened TypedSymbols
  import opened EntityModel
  import opened BuilderConfig
  import Text

  const PrivateModifier: string := "private "
  const ReturnThis: string := "return this;"
  const NewBoxAssignment: string := " = new "

  /** The members that get a field and a setter: the settable ones, plus the
      read-only ones when unreachable properties are wanted or there is no
      constructor to build through. */
  function PropertiesToGenerate(b: BuilderProperties, e: EntityToBuild): (r: seq<TypedSymbol>)
    requires e.Valid()
    ensures AllValid(r)
    ensures e.uniqueTypedSymbols <= r
    ensures forall x <- r :: x in e.uniqueTypedSymbols || x in e.uniqueReadOnlyTypedSymbols
    ensures b.shouldGenerateMethodsForUnreachableProperties || e.constructorToBuild.None? ==>
      r == e.uniqueTypedSymbols + e.uniqueReadOnlyTypedSymbols
    ensures !(b.shouldGenerateMethodsForUnreachableProperties || e.constructorToBuild.None?) ==> r == e.uniqueTypedSymbols
  {
    if b.shouldGenerateMethodsForUnreachableProperties || e.constructorToBuild.None? then
      e.uniqueTypedSymbols + e.uniqueReadOnlyTypedSymbols
    else e.uniqueTypedSymbols
  }

  /** A field is generated only when the builder declares none of that name:
      no field of the hand-written builder is called by the member's
      underscore name. */
  predicate IsNotYetDeclaredField(b: BuilderProperties, x: TypedSymbol)
  {
    x.underScoreName !in b.fields
  }

  /** With the field map built from the builder's declared fields, a member
      gets a field exactly when no declared field has its underscore name. */
  lemma NotYetDeclaredFieldOfBuilder(b: BuilderProperties, builder: BuilderData, x: TypedSymbol)
    requires b.fields == FieldsMap(builder.fields)
    ensures IsNotYetDeclaredField(b, x) <==> forall f <- builder.fields :: f.name != x.underScoreName
  {
  }

  /** The setter's name: the building-method prefix and the member's PascalCase name. */
  function CreateMethodName(b: BuilderProperties, x: TypedSymbol): (r: string)
    ensures Text.StartsWith(r, b.buildingMethodsPrefix)
    ensures |r| == |b.buildingMethodsPrefix| + |x.symbolPascalName|
    ensures r[|b.buildingMethodsPrefix|..] == x.symbolPascalName
  {
    b.buildingMethodsPrefix + x.symbolPascalName
  }

  /** A setter is generated unless the builder already has a building method
      of that name taking exactly one parameter of the member's type. */
  function IsNotYetDeclaredMethod(b: BuilderProperties, x: TypedSymbol): (r: bool)
    ensures !r <==>
      && CreateMethodName(b, x) in b.buildingMethods
      && b.buildingMethods[CreateMethodName(b, x)].parametersLength == 1
      && b.buildingMethods[CreateMethodName(b, x)].firstParameterTypeName == x.typeName
  {
    var name := CreateMethodName(b, x);
    name !in b.buildingMethods
    || !(b.buildingMethods[name].parametersLength == 1 && b.buildingMethods[name].firstParameterTypeName == x.typeName)
  }

  /** The members that get a field, in order. */
  function FieldTargets(b: BuilderProperties, xs: seq<TypedSymbol>): (r: seq<TypedSymbol>)
    ensures |r| <= |xs|
    ensures forall x :: x in r <==> x in xs && IsNotYetDeclaredField(b, x)
  {
    if xs == [] then []
    else
      var x := xs[|xs| - 1];
      assert xs == xs[..|xs| - 1] + [x];
      FieldTargets(b, xs[..|xs| - 1]) + (if IsNotYetDeclaredField(b, x) then [x] else [])
  }

  /** The members that get a setter, in order. */
  function SetterTargets(b: BuilderProperties, xs: seq<TypedSymbol>): (r: seq<TypedSymbol>)
    ensures |r| <= |xs|
    ensures forall x :: x in r <==> x in xs && IsNotYetDeclaredMethod(b, x)
  {
    if xs == [] then []
    else
      var x := xs[|xs| - 1];
      assert xs == xs[..|xs| - 1] + [x];
      SetterTargets(b, xs[..|xs| - 1]) + (if IsNotYetDeclaredMethod(b, x) then [x] else [])
  }

  /** Field targets keep the members' order: they distribute over
      concatenation. */
  lemma {:induction false} FieldTargetsDistributes(b: BuilderProperties, xs: seq<TypedSymbol>, ys: seq<TypedSymbol>)
    ensures FieldTargets(b, xs + ys) == FieldTargets(b, xs) + FieldTargets(b, ys)
    decreases |ys|
  {
    if ys == [] {
      assert xs + ys == xs;
    } else {
      var init, last := ys[..|ys| - 1], ys[|ys| - 1];
      var tail := if IsNotYetDeclaredField(b, last) then [last] else [];
      assert (xs + ys)[..|xs + ys| - 1] == xs + init;
      assert (xs + ys)[|xs + ys| - 1] == last;
      assert FieldTargets(b, xs + ys) == FieldTargets(b, xs + init) + tail;
      assert FieldTargets(b, ys) == FieldTargets(b, init) + tail;
      FieldTargetsDistributes(b, xs, init);
    }
  }

  /** Setter targets keep the members' order: they distribute over
      concatenation. */
  lemma {:induction false} SetterTargetsDistributes(b: BuilderProperties, xs: seq<TypedSymbol>, ys: seq<TypedSymbol>)
    ensures SetterTargets(b, xs + ys) == SetterTargets(b, xs) + SetterTargets(b, ys)
    decreases |ys|
  {
    if ys == [] {
      assert xs + ys == xs;
    } else {
      var init, last := ys[..|ys| - 1], ys[|ys| - 1];
      var tail := if IsNotYetDeclaredMethod(b, last) then [last] else [];
      assert (xs + ys)[..|xs + ys| - 1] == xs + init;
      assert (xs + ys)[|xs + ys| - 1] == last;
      assert SetterTargets(b, xs + ys) == SetterTargets(b, xs + init) + tail;
      assert SetterTargets(b, ys) == SetterTargets(b, init) + tail;
      SetterTargetsDistributes(b, xs, init);
    }
  }

  /** The backing field: private, with the lazy field type (the mock type,
      or a nullable `NullBox` of the member's type) and the underscore name,
      ending in `;`. */
  function FieldDeclaration(x: TypedSymbol): (r: string)
    requires x.Valid()
    ensures Text.StartsWith(r, PrivateModifier + GenerateLazyFieldType(x) + " " + x.underScoreName)
    ensures !x.isMockable ==> Text.StartsWith(r, PrivateModifier + NullBox + GenericOpen + x.typeFullName + NullableGenericClose)
    ensures r[|r| - 1] == ';'
    ensures |r| == |PrivateModifier + GenerateLazyFieldType(x) + " " + x.underScoreName| + 1
  {
    var front := PrivateModifier + GenerateLazyFieldType(x) + " " + x.underScoreName;
    Text.StartsWithConcat(front, ";");
    if !x.isMockable then
      var boxed := PrivateModifier + NullBox + GenericOpen + x.typeFullName + NullableGenericClose;
      Text.StartsWithConcat(boxed, " " + x.underScoreName);
      Text.StartsWithTransitive(front + ";", front, boxed);
      front + ";"
    else front + ";"
  }

  /** The setter's body statement: the setup action on the mock when the
      member is mockable, and otherwise the passed value boxed into the
      member's field. */
  function ValueAssignment(x: TypedSymbol): (r: string)
    ensures x.isMockable ==> r == SetupActionLiteral + "(" + x.underScoreName + ")"
    ensures !x.isMockable ==> Text.StartsWith(r, x.underScoreName + NewBoxAssignment + NullBox + "<" + x.typeFullName + ">")
    ensures !x.isMockable ==>
      var front := x.underScoreName + NewBoxAssignment + NullBox + "<" + x.typeFullName + ">";
      |front| <= |r| && r[|front|..] == "(" + ValueLiteral + ")"
  {
    if x.isMockable then SetupActionLiteral + "(" + x.underScoreName + ")"
    else
      var front := x.underScoreName + NewBoxAssignment + NullBox + "<" + x.typeFullName + ">";
      Text.StartsWithConcat(front, "(" + ValueLiteral + ")");
      front + ("(" + ValueLiteral + ")")
  }

  /** The setter's signature: public, returning the builder's own type (so
      calls chain), named by the prefix and the member's PascalCase name. */
  function MethodHeader(b: BuilderProperties, x: TypedSymbol): (r: string)
    requires x.Valid()
    ensures Text.StartsWith(r, PublicModifier + b.fullName + " " + b.buildingMethodsPrefix + x.symbolPascalName + "(")
    ensures r[|r| - 1] == ')'
    ensures var front := PublicModifier + b.fullName + " " + b.buildingMethodsPrefix + x.symbolPascalName + "(";
      |front| < |r| && r[|front|..|r| - 1] == GenerateMethodParameterDefinition(x)
  {
    var front := PublicModifier + b.fullName + " " + CreateMethodName(b, x) + "(";
    assert front == PublicModifier + b.fullName + " " + b.buildingMethodsPrefix + x.symbolPascalName + "(";
    Text.Enclosed(front, GenerateMethodParameterDefinition(x), ")");
    front + GenerateMethodParameterDefinition(x) + ")"
  }

  /** `GenerateMethodDefinition`: a fluent setter of five lines. */
  function MethodDefinition(b: BuilderProperties, x: TypedSymbol): (r: Code)
    requires x.Valid()
    ensures |r| == 5
    ensures r[0] == MethodHeader(b, x) && r[1] == OpenBrace && r[2] == ValueAssignment(x) + ";"
    ensures r[3] == ReturnThis && r[4] == CloseBrace
  {
    [MethodHeader(b, x), OpenBrace, ValueAssignment(x) + ";", ReturnThis, CloseBrace]
  }

  /** The field declarations of the given members, in order. */
  function FieldLines(ts: seq<TypedSymbol>): (r: Code)
    requires AllValid(ts)
    ensures |r| == |ts|
  {
    if ts == [] then [] else FieldLines(ts[..|ts| - 1]) + [FieldDeclaration(ts[|ts| - 1])]
  }

  /** The setter definitions of the given members, in order. */
  function MethodLines(b: BuilderProperties, ts: seq<TypedSymbol>): (r: Code)
    requires AllValid(ts)
    ensures |r| == 5 * |ts|
  {
    if ts == [] then [] else MethodLines(b, ts[..|ts| - 1]) + MethodDefinition(b, ts[|ts| - 1])
  }

  /** What `GeneratePropertiesCode` returns: every field before every setter. */
  function PropertiesCode(b: BuilderProperties, e: EntityToBuild): Code
    requires e.Valid()
  {
    var properties := PropertiesToGenerate(b, e);
    FieldLines(FieldTargets(b, properties)) + MethodLines(b, SetterTargets(b, properties))
  }

  /** The field loop. */
  method AppendFields(ts: seq<TypedSymbol>) returns (output: Code)
    requires AllValid(ts)
    ensures output == FieldLines(ts)
  {
    output := [];
    for i := 0 to |ts|
      invariant output == FieldLines(ts[..i])
    {
      assert ts[..i + 1][..i] == ts[..i];
      output := output + [FieldDeclaration(ts[i])];
    }
    assert ts[..|ts|] == ts;
  }

  /** The setter loop. */
  method AppendSetters(b: BuilderProperties, ts: seq<TypedSymbol>) returns (output: Code)
    requires AllValid(ts)
    ensures output == MethodLines(b, ts)
  {
    output := [];
    for i := 0 to |ts|
      invariant output == MethodLines(b, ts[..i])
    {
      assert ts[..i + 1][..i] == ts[..i];
      output := output + MethodDefinition(b, ts[i]);
    }
    assert ts[..|ts|] == ts;
  }

  /** `GeneratePropertiesCode`. */
  method GeneratePropertiesCode(b: BuilderProperties, e: EntityToBuild) returns (output: Code)
    requires e.Valid()
    ensures output == PropertiesCode(b, e)
  {
    var properties := PropertiesToGenerate(b, e);
    output := AppendFields(FieldTargets(b, properties));
    var setters := AppendSetters(b, SetterTargets(b, properties));
    output := output + setters;
  }

  lemma {:induction false} FieldLinesAt(ts: seq<TypedSymbol>, i: nat)
    requires AllValid(ts) && i < |ts|
    ensures FieldLines(ts)[i] == FieldDeclaration(ts[i])
  {
    var init := ts[..|ts| - 1];
    var front := FieldLines(init);
    var last := FieldDeclaration(ts[|ts| - 1]);
    assert FieldLines(ts) == front + [last];
    if i < |init| {
      FieldLinesAt(init, i);
      assert ts[i] == init[i];
    } else {
      assert i == |init|;
    }
  }

  lemma {:induction false} MethodLinesAt(b: BuilderProperties, ts: seq<TypedSymbol>, k: nat, j: nat)
    requires AllValid(ts) && k < |ts| && j < 5
    ensures MethodLines(b, ts)[5 * k + j] == MethodDefinition(b, ts[k])[j]
  {
    var init := ts[..|ts| - 1];
    var front := MethodLines(b, init);
    var last := MethodDefinition(b, ts[|ts| - 1]);
    assert MethodLines(b, ts) == front + last;
    if k < |init| {
      MethodLinesAt(b, init, k, j);
      assert ts[k] == init[k];
    } else {
      assert k == |init|;
    }
  }

  lemma FieldLinesFirst(fs: seq<TypedSymbol>, rest: Code)
    requires AllValid(fs)
    ensures forall i :: 0 <= i < |fs| ==> (FieldLines(fs) + rest)[i] == FieldDeclaration(fs[i])
  {
    forall i | 0 <= i < |fs|
      ensures (FieldLines(fs) + rest)[i] == FieldDeclaration(fs[i])
    {
      var lines := FieldLines(fs);
      assert (lines + rest)[i] == lines[i];
      FieldLinesAt(fs, i);
    }
  }

  lemma MethodLinesAfter(b: BuilderProperties, front: Code, ms: seq<TypedSymbol>)
    requires AllValid(ms)
    ensures forall k, j :: 0 <= k < |ms| && 0 <= j < 5 ==>
      (front + MethodLines(b, ms))[|front| + 5 * k + j] == MethodDefinition(b, ms[k])[j]
  {
    forall k, j | 0 <= k < |ms| && 0 <= j < 5
      ensures (front + MethodLines(b, ms))[|front| + 5 * k + j] == MethodDefinition(b, ms[k])[j]
    {
      MethodLinesAt(b, ms, k, j);
    }
  }

  /** The layout of the generated members: first one field declaration per
      member without a declared field, then one five-line setter per member
      without a matching building method, each in member order. */
  lemma PropertiesCodeLayout(b: BuilderProperties, e: EntityToBuild)
    requires e.Valid()
    ensures var properties := PropertiesToGenerate(b, e);
      var fs, ms := FieldTargets(b, properties), SetterTargets(b, properties);
      var code := PropertiesCode(b, e);
      && |code| == |fs| + 5 * |ms|
      && (forall i :: 0 <= i < |fs| ==> code[i] == FieldDeclaration(fs[i]))
      && (forall k, j :: 0 <= k < |ms| && 0 <= j < 5 ==> code[|fs| + 5 * k + j] == MethodDefinition(b, ms[k])[j])
  {
    var properties := PropertiesToGenerate(b, e);
    var fs, ms := FieldTargets(b, properties), SetterTargets(b, properties);
    FieldLinesFirst(fs, MethodLines(b, ms));
    MethodLinesAfter(b, FieldLines(fs), ms);
  }

  /** A member with a field the builder declares gets no generated field, and
      a member whose setter the builder declares gets no generated setter;
      every other member gets both. */
  lemma DeclaredMembersAreSkipped(b: BuilderProperties, e: EntityToBuild, x: TypedSymbol)
    requires e.Valid()
    requires x in PropertiesToGenerate(b, e)
    ensures x in FieldTargets(b, PropertiesToGenerate(b, e)) <==> x.underScoreName !in b.fields
    ensures x in SetterTargets(b, PropertiesToGenerate(b, e)) <==>
      !(&& CreateMethodName(b, x) in b.buildingMethods
        && b.buildingMethods[CreateMethodName(b, x)].parametersLength == 1
        && b.buildingMethods[CreateMethodName(b, x)].firstParameterTypeName == x.typeName)
  {
  }
}
