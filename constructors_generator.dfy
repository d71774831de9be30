/** `ConstructorsGenerator`: the builder's parameterless constructor, which
    initialises every mock field and applies the fixture's additional
    configuration; it is omitted when it would have an empty body. */
module ConstructorsGenerator {
  import opened Wrappers
  import opened Proxies
  import opened TypedSymbols
  import opened EntityModel
  import Fixture
  import Text

  const ConstructorParentheses: string := "()"

  /** The statement applying the fixture's additional configuration, if the
      fixture has one. */
  function ConfigurationLines(fixture: Option<Fixture.FixtureProperties>): (r: Code)
    ensures |r| <= 1
    ensures r != [] <==> fixture.Some? && Fixture.NeedsAdditionalConfiguration(fixture.value)
  {
    if fixture.Some? && Fixture.NeedsAdditionalConfiguration(fixture.value) then
      [Fixture.GenerateAdditionalConfiguration(fixture.value) + ";"]
    else []
  }

  /** Whether the constructor has any statement in its body. */
  predicate HasAnyBody(e: EntityToBuild, fixture: Option<Fixture.FixtureProperties>)
  {
    || (exists x <- e.uniqueTypedSymbols :: x.isMockable)
    || (fixture.Some? && Fixture.NeedsAdditionalConfiguration(fixture.value))
  }

  /** What `GenerateConstructor` returns; nothing exactly when no settable
      member is mockable and the fixture needs no additional configuration. The summary comment comes from
      `CommentsGenerator`, which is not part of this model, and is passed in. */
  function ConstructorCode(builderName: string, e: EntityToBuild, fixture: Option<Fixture.FixtureProperties>, summaryComment: string)
    : (r: Code)
    requires e.Valid()
    ensures r == [] <==>
      && (forall x <- e.uniqueTypedSymbols :: !x.isMockable)
      && (fixture.None? || fixture.value.additionalConfiguration.None?)
  {
    if !HasAnyBody(e, fixture) then []
    else
      [summaryComment, PublicModifier + builderName + ConstructorParentheses, OpenBrace]
      + MockInitLines(e.uniqueTypedSymbols) + ConfigurationLines(fixture) + [CloseBrace]
  }

  /** The loop over the settable members: one initialisation per member that
      needs one, noting whether there was any. */
  method InitialiseFields(xs: seq<TypedSymbol>, header: Code) returns (output: Code, hasAnyBody: bool)
    requires AllValid(xs)
    ensures output == header + MockInitLines(xs)
    ensures hasAnyBody <==> exists x <- xs :: x.isMockable
  {
    output, hasAnyBody := header, false;
    for i := 0 to |xs|
      invariant output == header + MockInitLines(xs[..i])
      invariant hasAnyBody <==> exists x <- xs[..i] :: x.isMockable
    {
      var x := xs[i];
      assert xs[..i + 1] == xs[..i] + [x];
      if NeedsFieldInit(x) {
        output := output + [GenerateFieldInitialization(x)];
        hasAnyBody := true;
      }
    }
    assert xs[..|xs|] == xs;
  }

  /** `GenerateConstructor`. */
  method GenerateConstructor(builderName: string, e: EntityToBuild, fixture: Option<Fixture.FixtureProperties>, summaryComment: string)
    returns (output: Code)
    requires e.Valid()
    ensures output == ConstructorCode(builderName, e, fixture, summaryComment)
  {
    var hasAnyBody;
    output, hasAnyBody := InitialiseFields(
      e.uniqueTypedSymbols,
      [summaryComment, PublicModifier + builderName + ConstructorParentheses, OpenBrace]);
    if fixture.Some? && Fixture.NeedsAdditionalConfiguration(fixture.value) {
      output := output + [Fixture.GenerateAdditionalConfiguration(fixture.value) + ";"];
      hasAnyBody := true;
    }
    output := output + [CloseBrace];
    if !hasAnyBody {
      output := [];
    }
  }

  /** A generated constructor is public and parameterless, and ends with the
      fixture configuration when there is one. */
  lemma ConstructorLayout(builderName: string, e: EntityToBuild, fixture: Option<Fixture.FixtureProperties>, summaryComment: string)
    requires e.Valid()
    requires HasAnyBody(e, fixture)
    ensures var code := ConstructorCode(builderName, e, fixture, summaryComment);
      && |code| == 4 + |MockInitLines(e.uniqueTypedSymbols)| + |ConfigurationLines(fixture)|
      && code[1] == PublicModifier + builderName + ConstructorParentheses
      && code[|code| - 1] == CloseBrace
      && (fixture.Some? && fixture.value.additionalConfiguration.Some? ==>
            code[|code| - 2] == Fixture.GenerateAdditionalConfiguration(fixture.value) + ";")
  {
    var header := [summaryComment, PublicModifier + builderName + ConstructorParentheses, OpenBrace];
    var inits := MockInitLines(e.uniqueTypedSymbols);
    var config := ConfigurationLines(fixture);
    assert ConstructorCode(builderName, e, fixture, summaryComment) == header + inits + config + [CloseBrace];
  }

  /** A generated constructor initialises the field of every mockable settable
      member. */
  lemma ConstructorInitialisesEveryMock(builderName: string, e: EntityToBuild, fixture: Option<Fixture.FixtureProperties>, summaryComment: string)
    requires e.Valid()
    requires HasAnyBody(e, fixture)
    ensures forall x <- e.uniqueTypedSymbols :: x.isMockable ==>
      GenerateFieldInitialization(x) in ConstructorCode(builderName, e, fixture, summaryComment)
  {
    var xs := e.uniqueTypedSymbols;
    var inits := MockInitLines(xs);
    Text.BlockInside([summaryComment, PublicModifier + builderName + ConstructorParentheses, OpenBrace],
      inits, ConfigurationLines(fixture) + [CloseBrace]);
    MockInitLinesComplete(xs);
    forall x <- xs | x.isMockable
      ensures GenerateFieldInitialization(x) in inits
    {
      var i :| 0 <= i < |xs| && xs[i] == x;
    }
  }

  /** The lines after a generated constructor's opening brace, up to the
      fixture configuration, initialise mockable settable members only. */
  lemma ConstructorInitialisesOnlyMocks(builderName: string, e: EntityToBuild, fixture: Option<Fixture.FixtureProperties>, summaryComment: string)
    requires e.Valid()
    requires HasAnyBody(e, fixture)
    ensures var code := ConstructorCode(builderName, e, fixture, summaryComment);
      forall k :: 3 <= k < 3 + |MockInitLines(e.uniqueTypedSymbols)| ==>
        exists x <- e.uniqueTypedSymbols :: x.isMockable && code[k] == GenerateFieldInitialization(x)
  {
    var xs := e.uniqueTypedSymbols;
    var inits := MockInitLines(xs);
    var header := [summaryComment, PublicModifier + builderName + ConstructorParentheses, OpenBrace];
    var code := ConstructorCode(builderName, e, fixture, summaryComment);
    Text.BlockInside(header, inits, ConfigurationLines(fixture) + [CloseBrace]);
    MockInitLinesOnlyMockable(xs);
    forall k | 3 <= k < 3 + |inits|
      ensures exists x <- xs :: x.isMockable && code[k] == GenerateFieldInitialization(x)
    {
      assert code[k] == inits[k - 3];
      assert inits[k - 3] in inits;
      var i :| 0 <= i < |xs| && xs[i].isMockable && inits[k - 3] == GenerateFieldInitialization(xs[i]);
      assert xs[i] in xs;
    }
  }
}
