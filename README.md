# Buildenator core, modelled in Dafny

Buildenator is a C# source generator. For every class marked with
`[MakeBuilder(typeof(T))]` it writes a fluent builder for `T`. The builder has
one lazily initialised field and one `With…` setter per member. It also gets a
`Build` method that calls the richest constructor (or a configured static
factory), an optional `BuildDefault` method, a parameterless constructor that
initialises mocks, and the `using` directives the code needs. Mocking (for
example Moq) and fixture (for example AutoFixture) settings can be given per
builder or assembly-wide.

This project models the deterministic core of that generator with Roslyn
abstracted away. A type symbol becomes a record of its direct members plus
its base-type levels. An attribute becomes a record of optional arguments.
Generated code becomes a sequence of lines (`Code = seq<string>`). The model
has one module per source class:

- `Proxies` and `Text` hold the shared records and the .NET string operations
  the generator relies on: `string.Join`, `Split(',')`, `string.Format` for
  `{0}`..`{9}`, `IsNullOrWhiteSpace` and `StartsWith`.
- `Mocking` and `Fixture` hold the mocking and fixture settings: building them
  from attribute arguments, merging local settings over global ones, the
  fixture's additional configuration, and equality.
- `TypedSymbols` holds the member classifier. It has the `IsMockable` and
  `IsFakeable` decision tables and the text helpers that render a member's
  field, its value and its setter parameter.
- `EntityDataProxies` models the type-shape extraction. The member loop sorts
  direct members into settable and unsettable properties, constructors and
  static factories. The base-type loop then appends inherited properties
  whose names are not yet covered.
- `EntityModel` models the entity to build: constructor selection, splitting
  properties against the constructor's parameter keys, equality, and the
  `Build`/`BuildDefault` code.
- `BuilderConfig` models the builder's configuration. It covers three-tier
  resolution (per type, then global, then default), the nullable rule, the
  empty-prefix error, and the scan of the builder's own methods into building
  methods, override flags and diagnostics.
- `PropertiesGenerator`, `ConstructorsGenerator` and `NamespacesGenerator`
  model the three renderers: fields and setters, the optional constructor, and
  the deduplicated `using` block.

The source's loops are methods with loop invariants, each proved equal to a
specification function. The properties the source promises are lemmas about
those functions. Errors the source raises as exceptions are `Failure` values:
a repeated constructor-parameter key, a repeated building-method name and an
empty building-method prefix.

Where the code and the library's documentation differ, the code is modelled:

- Constructor parameters are matched against a property's plain `SymbolName`,
  not its PascalCase name.
- An ordinary `PostBuild` method sets its flag whatever its parameter count.

The generator's constants are taken as `With`, `Build`, `PostBuild`,
`NullBox`, `value`, `setupAction` and `_fixture`. `DefaultConstants.cs` is not
part of this model.

## Model

| member | source | states |
|---|---|---|
| Proxies.NamespacesArgument | Buildenator/Configuration/MockingProperties.cs:27-34 | The namespaces argument always yields an initialised array. It is empty when the argument is absent. Otherwise it is the comma split of the argument, with at least one piece; the pieces contain no comma and join back with commas to the argument. |
| Text.SplitJoinRoundTrip | Buildenator/Configuration/MockingProperties.cs:34 | Splitting on a separator and joining with it again gives the input back. |
| Text.SplitPiecesLackSeparator | Buildenator/Configuration/FixtureProperties.cs:41 | No piece of a split contains the separator. |
| Mocking.CreateOrDefault | Buildenator/Configuration/MockingProperties.cs:17-35 | No settings exactly when the attribute arguments are missing. Otherwise the strategy and the three formats are copied from arguments 0-3, and the namespaces are the comma-split of argument 4. |
| Mocking.CreateOrDefaultWithGlobal | Buildenator/Configuration/MockingProperties.cs:36-43 | Local settings replace global ones wholesale. Global ones apply only when there are no local ones. The result is absent only when both are absent. |
| Mocking.Equals | Buildenator/Configuration/MockingProperties.cs:45-51 | Equality of strategy, the three formats and the namespace list holds exactly when the two records are equal. |
| Fixture.CreateOrDefault | Buildenator/Configuration/FixtureProperties.cs:20-43 | No settings exactly when the arguments are missing. Otherwise the name, create format, constructor parameters, configuration and strategy are copied, and the namespaces are the comma-split of argument 5. |
| Fixture.CreateOrDefaultWithGlobal | Buildenator/Configuration/FixtureProperties.cs:27-32 | Local replaces global. The result is absent only when both are. |
| Fixture.GenerateAdditionalConfiguration | Buildenator/Configuration/FixtureProperties.cs:45-46 | Empty when there is no additional configuration. Otherwise it is that format applied to `_fixture` and the fixture name. |
| Fixture.NeedsAdditionalConfiguration | Buildenator/Configuration/FixtureProperties.cs:48 | True exactly when an additional configuration is present. |
| Fixture.Equals | Buildenator/Configuration/FixtureProperties.cs:50-55 | Field-wise equality with namespaces compared element-wise holds exactly when the records are equal. |
| TypedSymbols.IsMockable | Buildenator/CodeAnalysis/TypedSymbol.cs:25-32 | Mockable exactly when mocking is configured, the type is an interface, and the strategy is `All`, or `WithoutGenericCollection` with no `IEnumerable` interface. |
| TypedSymbols.IsFakeable | Buildenator/CodeAnalysis/TypedSymbol.cs:33-41 | Fakeable exactly when a fixture is configured and the type is not an interface excluded by `None` or by `OnlyGenericCollections` (for a non-enumerable interface). |
| TypedSymbols.NewTypedSymbol | Buildenator/CodeAnalysis/TypedSymbol.cs:11-42 | The classified member is well formed. It copies the underscore, PascalCase and plain names, the full and short type names, the mocking and fixture settings and the nullable strategy, and its two flags agree with the decision tables above. |
| TypedSymbols.GenerateFieldInitialization | Buildenator/CodeAnalysis/TypedSymbol.cs:102-103 | Non-empty exactly when mocking is configured, whether or not the member is mockable. When non-empty, it assigns to the underscore field the configuration's default-value format filled with the full type name, and ends in `;`. |
| TypedSymbols.NeedsFieldInit | Buildenator/CodeAnalysis/TypedSymbol.cs:87 | Equals `IsMockable`, and then the initialisation is non-empty. |
| TypedSymbols.GenerateFieldType | Buildenator/CodeAnalysis/TypedSymbol.cs:105-106 | The mock declaration type when mockable, else the full type name. |
| TypedSymbols.GenerateLazyFieldType | Buildenator/CodeAnalysis/TypedSymbol.cs:108-109 | The plain field type when mockable, else `NullBox<T>?` around it. |
| TypedSymbols.GenerateFieldValueReturn | Buildenator/CodeAnalysis/TypedSymbol.cs:119-122 | The mock's return format applied to the underscore name when mockable, else exactly the underscore name. |
| TypedSymbols.LazyFallbackValue | Buildenator/CodeAnalysis/TypedSymbol.cs:114-117 | `default(T)` when not fakeable. Otherwise the fixture's create format applied to the full type name, the symbol name and the fixture literal, followed by `!` exactly under `Enabled`. |
| TypedSymbols.BoxedLazyValue | Buildenator/CodeAnalysis/TypedSymbol.cs:114-117 | A field without a mock is read as its value when it has one and otherwise as a new `NullBox<T>` of the fallback value, then unwrapped with `.Object`. The expression is exactly the `HasValue` test, the value and the box type, followed by the fallback and `)).Object`, with nothing in between. |
| TypedSymbols.MockableFieldType | Buildenator/CodeAnalysis/TypedSymbol.cs:127 | The mock field type is the mocking configuration's type-declaration format filled with the member's full type name. |
| TypedSymbols.GenerateLazyFieldValueReturn | Buildenator/CodeAnalysis/TypedSymbol.cs:111-117 | The same as the plain value return when mockable, else the NullBox fallback expression. |
| TypedSymbols.GenerateMethodParameterDefinition | Buildenator/CodeAnalysis/TypedSymbol.cs:124-125 | An `Action<mock type> setupAction` parameter when mockable, else `T value`. |
| TypedSymbols.LazyDiffersExactlyWhenNotMockable | Buildenator/CodeAnalysis/TypedSymbol.cs:105-122 | The lazy field type and the lazy value differ from the plain ones exactly for non-mockable members. |
| EntityDataProxies.DirectPropertiesPartition | Buildenator/Configuration/EntityDataProxy.cs:45-61 | Every visible direct property (a getter neither private nor protected) lands in exactly one of the settable and unsettable lists, decided by settability. |
| EntityDataProxies.RoleOf | Buildenator/Configuration/EntityDataProxy.cs:45-69 | A member is a settable (unsettable) property exactly when it is a property with a getter neither private nor protected that is (is not) settable; an instance constructor exactly when it is a public or internal constructor; a static method exactly when it is a public or internal static non-constructor. |
| EntityDataProxies.NotCovered | Buildenator/Configuration/EntityDataProxy.cs:92 | Keeps exactly the new properties whose name is not yet covered. |
| EntityDataProxies.TakeNotCoveredProperties | Buildenator/Configuration/EntityDataProxy.cs:89-98 | The old list is a prefix of the result. Every appended property is new and uncovered, and every uncovered new property is appended. The name set grows by exactly the appended names and stays the set of the list's names. |
| EntityDataProxies.MergeBasesPreserves | Buildenator/Configuration/EntityDataProxy.cs:70-78 | Walking the base levels never removes or reorders collected properties, appends only names not covered before, and keeps each name set equal to its list's names. |
| EntityDataProxies.MergeBasesCovers | Buildenator/Configuration/EntityDataProxy.cs:70-78 | After the walk, every property of every base level has its name covered in its own category, so shadowing is per category. |
| EntityDataProxies.SortMembers | Buildenator/Configuration/EntityDataProxy.cs:37-69 | The member loop yields the visible direct properties per category with their name sets, the public or internal constructors, and the other public or internal static methods, in declaration order. |
| EntityDataProxies.WalkBases | Buildenator/Configuration/EntityDataProxy.cs:70-78 | The base loop visits the levels nearest first and equals the level-by-level merge. |
| EntityDataProxies.NewEntityDataProxy | Buildenator/Configuration/EntityDataProxy.cs:22-87 | Constraint namespaces are set only for generic types, one per constraint type with duplicates kept, and otherwise stay default. The remaining fields come from the two loops. |
| EntityDataProxies.Equals | Buildenator/Configuration/EntityDataProxy.cs:100-106 | True exactly when the proxies are equal apart from `Name` and `FullName`. |
| EntityModel.ContainsParameter | Buildenator/Configuration/EntityToBuild.cs:229 | True exactly when the name is one of the parameters' PascalCase keys. |
| EntityModel.ParameterMapEntries | Buildenator/Configuration/EntityToBuild.cs:218-220 | With unique keys, the dictionary has one entry per parameter, each under its PascalCase name. |
| EntityModel.ConstructorEqualsIsMapEquality | Buildenator/Configuration/EntityToBuild.cs:231-236 | Count-plus-per-key comparison is exactly equality of the parameter dictionaries, so it ignores order. |
| EntityModel.ConstructorEqualsIgnoresVariantAndName | Buildenator/Configuration/EntityToBuild.cs:182 | Through the base comparison, an object constructor and a static factory with the same parameters compare equal whatever the factory's name. |
| EntityModel.SelectConstructor | Buildenator/Configuration/EntityToBuild.cs:215-217 | The chosen candidate has the most parameters, and every earlier candidate has strictly fewer, so ties go to the first. |
| EntityModel.TypedAll | Buildenator/Configuration/EntityToBuild.cs:218-220 | Classifies one member per input, in order, keeping the names and PascalCase names. |
| EntityModel.ToParameterDictionary | Buildenator/Configuration/EntityToBuild.cs:218-220 | Fails exactly when two parameters share a PascalCase name. Otherwise it keeps every parameter, classified, in order, with unique keys. |
| EntityModel.CreateConstructorOrDefault | Buildenator/Configuration/EntityToBuild.cs:195-225 | Candidates are the constructors, or the static methods when a factory name is given. No candidates gives no constructor. Otherwise the widest candidate is used, failing on a repeated key. |
| EntityModel.WithoutParametersMembers | Buildenator/Configuration/EntityToBuild.cs:45-47 | The filter keeps exactly the members whose name is not a parameter key. |
| EntityModel.WithoutParametersDistributes | Buildenator/Configuration/EntityToBuild.cs:45-47 | Filtering a concatenation filters each part, so order is kept. |
| EntityModel.WithoutParametersKeepsUncovered | Buildenator/Configuration/EntityToBuild.cs:45-47 | A list with no member named like a parameter is left unchanged. |
| EntityModel.ClassifyEach | Buildenator/Configuration/EntityToBuild.cs:114-118 | The loop classifies each property in order. |
| EntityModel.DividePropertiesBySetability | Buildenator/Configuration/EntityToBuild.cs:110-126 | Settable and unsettable lists are classified element by element. |
| EntityModel.NewEntityToBuild | Buildenator/Configuration/EntityToBuild.cs:27-51 | Fails exactly when constructor creation fails. Without a constructor, both lists are the classified properties. With one, the settable list drops parameter-named members, the unique list appends the parameters, and matching read-only members are dropped. |
| EntityModel.GenerateUnreachableProperties | Buildenator/Configuration/EntityToBuild.cs:96-107 | The loop emits the `typeof` line, then one reflection line per unmatched read-only member. |
| EntityModel.UnreachablePropertiesShape | Buildenator/Configuration/EntityToBuild.cs:96-107 | The block has one line more than there are unmatched read-only members. The first line is the type handle, and line i+1 sets the i-th member. |
| EntityModel.ReflectionSetLineShape | Buildenator/Configuration/EntityToBuild.cs:102-104 | A reflection line looks the property up by name, with `!` exactly under `Enabled`. |
| EntityModel.GenerateBuildsCode | Buildenator/Configuration/EntityToBuild.cs:53-71 | The `Build` method is emitted exactly when there is a constructor to build through. |
| EntityModel.LazyBuildEntityLines | Buildenator/Configuration/EntityToBuild.cs:73-94 | The body starts with the creation lines, adds the type handle and one reflection line per unmatched read-only member exactly when unreachable properties are wanted, and ends with `PostBuild(result);` and `return result;`. |
| EntityModel.CreationLinesShape | Buildenator/Configuration/EntityToBuild.cs:75-88 | `Build` creates `result` through the static factory or through `new`. Either way it passes exactly the comma-joined lazy values of the constructor's parameters. The object form adds `{`, the assignments line exactly when there is something to assign (exactly the comma-joined lazy `Name = value` of the properties), and `};`. |
| EntityModel.GenerateDefaultBuildsCode | Buildenator/Configuration/EntityToBuild.cs:128-160 | The `BuildDefault` method is emitted exactly when there is a constructor to build through. |
| EntityModel.DefaultBuildEntityLines | Buildenator/Configuration/EntityToBuild.cs:162-176 | A static factory gives a single `return Entity.Factory(args);` line. An object constructor gives `return new Entity(args)`, then `{`, the assignments line exactly when there is something to assign, and `};`. In both, `args` is exactly the comma-joined plain values of the constructor's parameters, and the assignments line is exactly the comma-joined `Name = value` of the properties. |
| EntityModel.ValuesAt | Buildenator/Configuration/EntityToBuild.cs:166-171 | The i-th argument value is the plain value of the i-th parameter. |
| EntityModel.AssignmentsAt | Buildenator/Configuration/EntityToBuild.cs:170 | The i-th assignment sets the i-th property, by its name, to its lazy or plain value. |
| EntityModel.BuildsCodePragmas | Buildenator/Configuration/EntityToBuild.cs:58-70 | `Build` opens with the CS8604 disable and closes with the restore exactly under `Enabled`. Otherwise it starts with the method header and ends with the brace. |
| EntityModel.BuildsCodeEndsWithPostBuild | Buildenator/Configuration/EntityToBuild.cs:91-94 | The body always ends with `PostBuild(result);`, `return result;` and the closing brace. |
| EntityModel.BuildsCodeUnreachableBlock | Buildenator/Configuration/EntityToBuild.cs:91-94 | The unreachable-properties flag only inserts the reflection block just before the `PostBuild` call. Everything else is unchanged. |
| EntityModel.DefaultBuildsCodeShape | Buildenator/Configuration/EntityToBuild.cs:128-160 | `BuildDefault` has the CS8625 pragmas exactly under `Enabled`. It has one `= default(T)` parameter per constructor parameter and then per settable property, followed by the mock initialisations. |
| EntityModel.MockInitLinesComplete | Buildenator/Configuration/EntityToBuild.cs:133-136 | Every mockable member gets its initialisation line. |
| EntityModel.MockInitLinesOnlyMockable | Buildenator/Configuration/EntityToBuild.cs:133-136 | Every initialisation line belongs to a mockable member and is non-empty. |
| EntityModel.MockInitLinesDistributes | Buildenator/Configuration/EntityToBuild.cs:133-138 | Initialisations of a concatenation are those of each part in turn, so member order is kept. |
| EntityModel.Equals | Buildenator/Configuration/EntityToBuild.cs:178-186 | Equal entities agree on full name with constraints, nullable strategy, settable properties, namespaces and whether there is a constructor. |
| EntityModel.EqualsIsEquivalence | Buildenator/Configuration/EntityToBuild.cs:178-186 | On well-formed entities the comparison is reflexive, symmetric and transitive. It ignores the names and the unique and read-only lists. |
| BuilderConfig.MergeNullable | Buildenator/Configuration/BuilderProperties.cs:40-45 | Per-type beats global. The result is `Enabled` exactly when the coalesced value is `Enabled`, or annotations are on and it is unset or `Default`. In every other case the coalesced value is kept unchanged, so an explicit `Disabled` survives, an explicit `Default` without annotations stays `Default`, and the result is unset only when nothing is set and annotations are off. |
| BuilderConfig.MergeAttributes | Buildenator/Configuration/BuilderProperties.cs:17-59 | Each optional setting is per-type, else global. The nullable setting follows its own rule, and the static factory name comes from the per-type attribute only. |
| BuilderConfig.ResolutionOrder | Buildenator/Configuration/BuilderProperties.cs:51-73 | A resolved setting is the per-type value if present, else the global one, else the library default. |
| BuilderConfig.NullableResolution | Buildenator/Configuration/BuilderProperties.cs:40-45 | An explicit `Disabled` survives, and annotations turn anything else into `Enabled`. Without annotations the resolved strategy is the coalesced one, with `Default` for an unset strategy. |
| BuilderConfig.RoleOf | Buildenator/Configuration/BuilderProperties.cs:81-103 | Each role is characterised in both directions. A building method is ordinary, prefixed and not `Build`. A `PostBuild` override is an ordinary unprefixed method named `PostBuild`. A `Build` override is an ordinary parameterless `Build`. A default-constructor override is an explicit parameterless constructor. |
| BuilderConfig.FailureIsFinal | Buildenator/Configuration/BuilderProperties.cs:79-86 | Once a duplicate building method makes the scan fail, later methods cannot undo it. |
| BuilderConfig.BuildingMethodsExactly | Buildenator/Configuration/BuilderProperties.cs:79-86 | The scan fails exactly on a name clash. Otherwise the dictionary holds exactly the building methods, each under its own name. |
| BuilderConfig.DiagnosticsExactly | Buildenator/Configuration/BuilderProperties.cs:91-101 | There is a build-override diagnostic exactly when some method overrides `Build`, and a constructor diagnostic exactly when one overrides the default constructor. There are never more diagnostics than methods. |
| BuilderConfig.FieldsMap | Buildenator/Configuration/BuilderProperties.cs:105 | The fields map has exactly the field names as keys, each mapped to its field. |
| BuilderConfig.NewBuilderProperties | Buildenator/Configuration/BuilderProperties.cs:61-106 | A blank prefix is an error, and so is a building-method name clash. Otherwise the defaults `With`/true/false/false/false apply, the flags and diagnostics are the scan's, and the fields map is keyed by name. |
| BuilderConfig.Create | Buildenator/Configuration/BuilderProperties.cs:17-59 | The builder properties are those of the merged attribute data. With a non-blank prefix, creation fails exactly when building-method names clash. On success the namespace and names are the builder's, the three override flags say whether some method has that role, and the fields map is keyed by the builder's field names. |
| PropertiesGenerator.PropertiesToGenerate | Buildenator/Generators/PropertiesStringGenerator.cs:16-21 | The unique settable list, followed by the unmatched read-only members exactly when the unreachable flag is set or there is no constructor. |
| PropertiesGenerator.CreateMethodName | Buildenator/Generators/PropertiesStringGenerator.cs:61 | A setter's name is the prefix followed by exactly the member's PascalCase name. |
| PropertiesGenerator.IsNotYetDeclaredMethod | Buildenator/Generators/PropertiesStringGenerator.cs:42-43 | A setter is already declared exactly when a building method of that name takes one parameter of the member's type. |
| PropertiesGenerator.NotYetDeclaredFieldOfBuilder | Buildenator/Generators/PropertiesStringGenerator.cs:40 | With the builder's field map, a member needs a field exactly when no declared field has its underscore name. |
| PropertiesGenerator.FieldTargets | Buildenator/Generators/PropertiesStringGenerator.cs:25-40 | Keeps exactly the members whose underscore name is not a builder field. |
| PropertiesGenerator.SetterTargets | Buildenator/Generators/PropertiesStringGenerator.cs:30-43 | Keeps exactly the members whose setter is not yet declared. |
| PropertiesGenerator.FieldTargetsDistributes | Buildenator/Generators/PropertiesStringGenerator.cs:25-28 | Filtering a concatenation filters each part in turn, so member order is kept. |
| PropertiesGenerator.SetterTargetsDistributes | Buildenator/Generators/PropertiesStringGenerator.cs:30-36 | Filtering a concatenation filters each part in turn, so member order is kept. |
| PropertiesGenerator.FieldDeclaration | Buildenator/Generators/PropertiesStringGenerator.cs:27 | A field is declared private with the lazy field type, for a non-mockable member `NullBox<T>?`, then the underscore name and `;`, with nothing else in the line. |
| PropertiesGenerator.ValueAssignment | Buildenator/Generators/PropertiesStringGenerator.cs:56-59 | A mockable member's setter calls the setup action on its field. Any other member assigns to its field a new `NullBox<T>` whose argument is exactly `(value)`. |
| PropertiesGenerator.MethodHeader | Buildenator/Generators/PropertiesStringGenerator.cs:53-54 | A setter is public, returns the builder's full name, is named prefix plus PascalCase name, and its parameter list holds exactly the member's parameter definition. |
| PropertiesGenerator.MethodDefinition | Buildenator/Generators/PropertiesStringGenerator.cs:46-51 | A setter definition is exactly five lines: its header, `{`, the value assignment with `;`, `return this;` and `}`. |
| PropertiesGenerator.AppendFields | Buildenator/Generators/PropertiesStringGenerator.cs:25-28 | The field loop emits one declaration per target, in order. |
| PropertiesGenerator.AppendSetters | Buildenator/Generators/PropertiesStringGenerator.cs:30-36 | The setter loop emits one definition per target, in order. |
| PropertiesGenerator.GeneratePropertiesCode | Buildenator/Generators/PropertiesStringGenerator.cs:14-44 | The output is the fields, then the setters, of the members to generate. |
| PropertiesGenerator.PropertiesCodeLayout | Buildenator/Generators/PropertiesStringGenerator.cs:25-36 | All field declarations come first, in order, followed by the setter definitions, five lines each, in order. |
| PropertiesGenerator.DeclaredMembersAreSkipped | Buildenator/Generators/PropertiesStringGenerator.cs:25-43 | A candidate gets a field exactly when the builder lacks that field, and a setter exactly when the builder lacks a matching building method. |
| ConstructorsGenerator.ConfigurationLines | Buildenator/Generators/ConstructorsGenerator.cs:28-32 | At most one configuration line, present exactly when the fixture needs additional configuration. |
| ConstructorsGenerator.ConstructorCode | Buildenator/Generators/ConstructorsGenerator.cs:10-38 | Empty exactly when no settable member is mockable and there is no fixture with additional configuration. |
| ConstructorsGenerator.InitialiseFields | Buildenator/Generators/ConstructorsGenerator.cs:22-26 | The loop emits one initialisation per member needing it, in order, and sets the body flag exactly when some member is mockable. |
| ConstructorsGenerator.GenerateConstructor | Buildenator/Generators/ConstructorsGenerator.cs:10-38 | The method returns the constructor code above. |
| ConstructorsGenerator.ConstructorLayout | Buildenator/Generators/ConstructorsGenerator.cs:15-37 | A generated constructor is public, parameterless and named after the builder. It closes its brace and ends with the fixture configuration when there is one. |
| ConstructorsGenerator.ConstructorInitialisesEveryMock | Buildenator/Generators/ConstructorsGenerator.cs:22-26 | Every mockable member's field initialisation appears. |
| ConstructorsGenerator.ConstructorInitialisesOnlyMocks | Buildenator/Generators/ConstructorsGenerator.cs:22-26 | The lines between the brace and the configuration initialise mockable members only. |
| NamespacesGenerator.Contributed | Buildenator/Generators/NamespacesGenerator.cs:10-15 | A namespace is contributed exactly when some non-null provider with an initialised array lists it. |
| NamespacesGenerator.ContributedDistributes | Buildenator/Generators/NamespacesGenerator.cs:10-15 | The contributions of a concatenation are those of each part in turn, so provider order is kept. |
| NamespacesGenerator.Distinct | Buildenator/Generators/NamespacesGenerator.cs:23 | Deduplication never lengthens the list and keeps the first element first. |
| NamespacesGenerator.DistinctMembers | Buildenator/Generators/NamespacesGenerator.cs:23 | Deduplication keeps every namespace and adds none. |
| NamespacesGenerator.DistinctHasNoDuplicates | Buildenator/Generators/NamespacesGenerator.cs:23 | Deduplication never repeats an element. |
| NamespacesGenerator.DistinctOfDistinct | Buildenator/Generators/NamespacesGenerator.cs:23 | Deduplication leaves a repeat-free list unchanged. |
| NamespacesGenerator.DistinctPrefix | Buildenator/Generators/NamespacesGenerator.cs:16-23 | The first occurrences of a prefix come first, in order. |
| NamespacesGenerator.CollectNamespaces | Buildenator/Generators/NamespacesGenerator.cs:10-15 | The provider loop collects the contributed namespaces in provider order. |
| NamespacesGenerator.EmitDistinct | Buildenator/Generators/NamespacesGenerator.cs:23-29 | The output loop emits one directive per first occurrence, in order. |
| NamespacesGenerator.GenerateNamespaces | Buildenator/Generators/NamespacesGenerator.cs:8-31 | The directives of the distinct providers' namespaces, followed by the three fixed ones. |
| NamespacesGenerator.UsingLineInjective | Buildenator/Generators/NamespacesGenerator.cs:27 | Different namespaces give different directives. |
| NamespacesGenerator.NamespacesExactly | Buildenator/Generators/NamespacesGenerator.cs:8-31 | `using X;` appears exactly when X is contributed or is one of `System`, `System.Linq` and `Buildenator.Abstraction.Helpers`. No directive repeats. |
| NamespacesGenerator.ProvidersComeFirst | Buildenator/Generators/NamespacesGenerator.cs:16-23 | The providers' directives come first, in provider order. |

## Left out

- Roslyn symbol APIs are not modelled. `GetMembers`, `ToDisplayString`, `AllInterfaces`, `TypedConstant`, `AttributeData`, `Location` and the symbol-reading constructors become input records.
- `IsSettableProperty`, `PascalCaseName`, `UnderScoreName` and the type display names are given fields of the member record.
- `GetOrThrow` on attribute arguments is not modelled. Arguments are given as already typed values, so a missing required argument cannot occur.
- `CommentsGenerator` is not part of this model. The constructor's summary comment is a parameter.
- `DefaultConstants.cs` is not part of this model. Its values are taken as listed above.
- `GetHashCode` overrides and the integer mixing in them are not modelled.
- `Text.Fmt` models `string.Format` for the placeholders `{0}` to `{9}` only. Escaped braces, alignment and the `FormatException` for a missing argument are not modelled; such text is copied unchanged.
- Exact whitespace, indentation and blank lines are not modelled. The code is modelled as a list of lines, and the properties are about which lines appear and in what order.
- `Text.StartsWith` is an ordinal prefix test. Culture-sensitive comparison is not modelled.
- The .NET dictionary's value order behind `Constructor.Parameters` is taken as declaration order.
- The `EntityToBuild` diagnostics list is always empty in the source and is not modelled.
- `Enumerable.Distinct` is modelled as its first-occurrence result. Deferred execution is not modelled.
- A default (uninitialised) namespace array is unequal to an initialised one in the equality functions, and two default arrays are equal. In .NET the element-wise comparison of a default array may instead throw.
- `ToImmutableDictionary` on two builder fields of the same name cannot fail in the model, because both entries are the same.
- The runtime behaviour of the generated code is out of scope, including Moq, AutoFixture, reflection `SetValue` and `NullBox`.
- The `PropertiesStringGenerator` instance fields are passed as parameters. They are never reassigned.
- NamespacesGenerator.Distinct: its own contract gives only the length bound and the first element. Membership and the absence of repeats are the lemmas `DistinctMembers` and `DistinctHasNoDuplicates`.
- EntityModel.Equals: its contract states only the fields that equal entities share, not the converse. The constructor part is characterised by `ConstructorEqualsIsMapEquality` and `EqualsIsEquivalence`.
