/** `MockingProperties`: how interface-typed members are mocked. */
module Mocking {
  import opened Wrappers
  import opened Proxies

  /** `MockingInterfacesStrategy`. */
  datatype MockingInterfacesStrategy = None | All | WithoutGenericCollection

  /** The resolved mocking configuration: the formats that declare a mock field,
      give it its default value and take the mocked object out of it. */
  datatype MockingProperties = MockingProperties(
    strategy: MockingInterfacesStrategy,
    typeDeclarationFormat: string,
    fieldDefaultValueAssignmentFormat: string,
    returnObjectFormat: string,
    additionalNamespaces: StringArray)

  /** The positional arguments of the mocking attribute, already unpacked;
      the fifth, the comma-separated namespaces, may be null. */
  datatype MockingAttributeArguments = MockingAttributeArguments(
    strategy: MockingInterfacesStrategy,
    typeDeclarationFormat: string,
    fieldDefaultValueAssignmentFormat: string,
    returnObjectFormat: string,
    additionalNamespaces: Option<string>)

  /** `CreateOrDefault(arguments)`: no attribute gives no configuration; the
      namespaces argument is split at commas, and a null one gives no namespaces. */
  function CreateOrDefault(local: Option<MockingAttributeArguments>): (r: Option<MockingProperties>)
    ensures r.None? <==> local.None?
    ensures r.Some? ==>
      && r.value.strategy == local.value.strategy
      && r.value.typeDeclarationFormat == local.value.typeDeclarationFormat
      && r.value.fieldDefaultValueAssignmentFormat == local.value.fieldDefaultValueAssignmentFormat
      && r.value.returnObjectFormat == local.value.returnObjectFormat
      && r.value.additionalNamespaces == NamespacesArgument(local.value.additionalNamespaces)
  {
    match local
    case None => Option.None
    case Some(arguments) =>
      Some(MockingProperties(
        arguments.strategy,
        arguments.typeDeclarationFormat,
        arguments.fieldDefaultValueAssignmentFormat,
        arguments.returnObjectFormat,
        NamespacesArgument(arguments.additionalNamespaces)))
  }

  /** `CreateOrDefault(global, local)`: the per-type configuration replaces the
      global one wholesale; nothing is merged field by field. */
  function CreateOrDefaultWithGlobal(global: Option<MockingProperties>, local: Option<MockingProperties>): (r: Option<MockingProperties>)
    ensures local.Some? ==> r == local
    ensures local.None? ==> r == global
    ensures r.None? <==> global.None? && local.None?
  {
    match local
    case Some(properties) => Some(properties)
    case None => global
  }

  /** `Equals`: strategy, the three formats and the namespaces element-wise,
      which is equality of the whole record. */
  function Equals(a: MockingProperties, b: MockingProperties): (r: bool)
    ensures r <==> a == b
  {
    && a.strategy == b.strategy
    && a.typeDeclarationFormat == b.typeDeclarationFormat
    && a.fieldDefaultValueAssignmentFormat == b.fieldDefaultValueAssignmentFormat
    && a.returnObjectFormat == b.returnObjectFormat
    && a.additionalNamespaces == b.additionalNamespaces
  }
}
