/** `FixtureProperties`: how random values are created for non-mocked members. */
module Fixture {
  import opened Wrappers
  import opened Proxies
  import Text

  /** `FixtureInterfacesStrategy`. */
  datatype FixtureInterfacesStrategy = None | OnlyGenericCollections | All

  /** The resolved fixture configuration. */
  datatype FixtureProperties = FixtureProperties(
    name: string,
    createSingleFormat: string,
    constructorParameters: Option<string>,
    additionalConfiguration: Option<string>,
    strategy: FixtureInterfacesStrategy,
    additionalNamespaces: StringArray)

  /** The positional arguments of the fixture attribute, already unpacked;
      the third, fourth and sixth may be null. */
  datatype FixtureAttributeArguments = FixtureAttributeArguments(
    name: string,
    createSingleFormat: string,
    constructorParameters: Option<string>,
    additionalConfiguration: Option<string>,
    strategy: FixtureInterfacesStrategy,
    additionalNamespaces: Option<string>)

  /** `CreateOrDefault(arguments)` with the private constructor: no attribute
      gives no configuration; the namespaces argument is split at commas, and a
      null one gives no namespaces. */
  function CreateOrDefault(local: Option<FixtureAttributeArguments>): (r: Option<FixtureProperties>)
    ensures r.None? <==> local.None?
    ensures r.Some? ==>
      && r.value.name == local.value.name
      && r.value.createSingleFormat == local.value.createSingleFormat
      && r.value.constructorParameters == local.value.constructorParameters
      && r.value.additionalConfiguration == local.value.additionalConfiguration
      && r.value.strategy == local.value.strategy
      && r.value.additionalNamespaces == NamespacesArgument(local.value.additionalNamespaces)
  {
    match local
    case None => Option.None
    case Some(arguments) =>
      Some(FixtureProperties(
        arguments.name,
        arguments.createSingleFormat,
        arguments.constructorParameters,
        arguments.additionalConfiguration,
        arguments.strategy,
        NamespacesArgument(arguments.additionalNamespaces)))
  }

  /** `CreateOrDefault(global, local)`: the per-type configuration replaces the
      global one wholesale. */
  function CreateOrDefaultWithGlobal(global: Option<FixtureProperties>, local: Option<FixtureProperties>): (r: Option<FixtureProperties>)
    ensures local.Some? ==> r == local
    ensures local.None? ==> r == global
    ensures r.None? <==> global.None? && local.None?
  {
    match local
    case Some(properties) => Some(properties)
    case None => global
  }

  /** `NeedsAdditionalConfiguration`. */
  function NeedsAdditionalConfiguration(f: FixtureProperties): (r: bool)
    ensures r <==> f.additionalConfiguration.Some?
  {
    f.additionalConfiguration.Some?
  }

  /** `GenerateAdditionalConfiguration`: the configuration format applied to the
      fixture variable and the fixture name; "" exactly when no configuration
      is needed. */
  function GenerateAdditionalConfiguration(f: FixtureProperties): (r: string)
    ensures !NeedsAdditionalConfiguration(f) ==> r == ""
    ensures NeedsAdditionalConfiguration(f) ==>
      r == Text.Fmt(f.additionalConfiguration.value, [FixtureLiteral, f.name])
  {
    match f.additionalConfiguration
    case None => ""
    case Some(format) => Text.Fmt(format, [FixtureLiteral, f.name])
  }

  /** `Equals`: every field, the namespaces element-wise, which is equality of
      the whole record. */
  function Equals(a: FixtureProperties, b: FixtureProperties): (r: bool)
    ensures r <==> a == b
  {
    && a.name == b.name
    && a.createSingleFormat == b.createSingleFormat
    && a.constructorParameters == b.constructorParameters
    && a.strategy == b.strategy
    && a.additionalConfiguration == b.additionalConfiguration
    && a.additionalNamespaces == b.additionalNamespaces
  }
}
