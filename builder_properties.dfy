/** `BuilderProperties`: the builder's settings, resolved from the per-type
    attribute, the assembly-wide attribute and the library defaults, and what
    the hand-written part of the builder already declares. */
module BuilderConfig {
  import opened Wrappers
  import opened Proxies
  import EntityDataProxies
  import Text

  /** `MakeBuilderDataProxy`: the per-type attribute's arguments, already
      unpacked; every setting may be left null. */
  datatype MakeBuilderData = MakeBuilderData(
    typeForBuilder: EntityDataProxies.EntityData,
    buildingMethodsPrefix: Option<string>,
    generateDefaultBuildMethod: Option<bool>,
    nullableStrategy: Option<NullableStrategy>,
    generateMethodsForUnreachableProperties: Option<bool>,
    implicitCast: Option<bool>,
    staticFactoryMethodName: Option<string>,
    generateStaticPropertyForBuilderCreation: Option<bool>)

  /** `GlobalMakeBuilderDataProxy`: the assembly-wide attribute's arguments;
      it has no type and no static factory name. */
  datatype GlobalMakeBuilderData = GlobalMakeBuilderData(
    buildingMethodsPrefix: Option<string>,
    generateDefaultBuildMethod: Option<bool>,
    nullableStrategy: Option<NullableStrategy>,
    generateMethodsForUnreachableProperties: Option<bool>,
    implicitCast: Option<bool>,
    generateStaticPropertyForBuilderCreation: Option<bool>)

  /** What the private constructor throws: `ArgumentNullException` for a
      blank prefix, and `Dictionary.Add`'s exception for two building methods
      of the same name. */
  datatype BuilderError = EmptyPrefix | DuplicateBuildingMethod

  datatype BuilderProperties = BuilderProperties(
    containingNamespace: string,
    name: string,
    fullName: string,
    buildingMethodsPrefix: string,
    nullableStrategy: NullableStrategy,
    generateDefaultBuildMethod: bool,
    implicitCast: bool,
    isPostBuildMethodOverriden: bool,
    isDefaultConstructorOverriden: bool,
    shouldGenerateMethodsForUnreachableProperties: bool,
    isBuildMethodOverriden: bool,
    staticFactoryMethodName: Option<string>,
    generateStaticPropertyForBuilderCreation: bool,
    buildingMethods: map<string, MethodData>,
    fields: map<string, FieldData>,
    diagnostics: seq<Diagnostic>)

  /** `local ?? global`. */
  function Coalesce<T>(local: Option<T>, global: Option<T>): (r: Option<T>)
    ensures local.Some? ==> r == local
    ensures local.None? ==> r == global
  {
    if local.Some? then local else global
  }

  /** The global attribute's settings; with no global attribute every
      setting is null. */
  function Globals(global: Option<GlobalMakeBuilderData>): (g: GlobalMakeBuilderData)
    ensures global.Some? ==> g == global.value
    ensures global.None? ==>
      && g.buildingMethodsPrefix.None? && g.generateDefaultBuildMethod.None? && g.nullableStrategy.None?
      && g.generateMethodsForUnreachableProperties.None? && g.implicitCast.None?
      && g.generateStaticPropertyForBuilderCreation.None?
  {
    global.GetOr(GlobalMakeBuilderData(Option.None, Option.None, Option.None, Option.None, Option.None, Option.None))
  }

  /** The nullable rule of `Create`: a per-type value beats the global one; a
      missing or `Default` strategy becomes `Enabled` when the compilation has
      nullable annotations enabled. */
  function MergeNullable(local: Option<NullableStrategy>, global: Option<NullableStrategy>, nullableAnnotationEnabled: bool)
    : (r: Option<NullableStrategy>)
    ensures r == Some(Enabled) <==>
      || Coalesce(local, global) == Some(Enabled)
      || (nullableAnnotationEnabled && (Coalesce(local, global).None? || Coalesce(local, global) == Some(Default)))
    ensures Coalesce(local, global) == Some(Disabled) ==> r == Some(Disabled)
    ensures r.None? <==> Coalesce(local, global).None? && !nullableAnnotationEnabled
    ensures !(nullableAnnotationEnabled && (Coalesce(local, global).None? || Coalesce(local, global) == Some(Default))) ==>
      r == Coalesce(local, global)
  {
    var strategy := if local.None? then global else local;
    if (strategy.None? || strategy == Some(Default)) && nullableAnnotationEnabled then Some(Enabled)
    else strategy
  }

  /** The attribute data `Create` hands to the private constructor: each
      setting is the per-type value, else the global one; the nullable
      strategy follows its own rule; the static factory name is only ever
      per-type. */
  function MergeAttributes(attribute: MakeBuilderData, global: Option<GlobalMakeBuilderData>, nullableAnnotationEnabled: bool)
    : (r: MakeBuilderData)
    ensures r.typeForBuilder == attribute.typeForBuilder
    ensures r.buildingMethodsPrefix == Coalesce(attribute.buildingMethodsPrefix, Globals(global).buildingMethodsPrefix)
    ensures r.generateDefaultBuildMethod == Coalesce(attribute.generateDefaultBuildMethod, Globals(global).generateDefaultBuildMethod)
    ensures r.nullableStrategy == MergeNullable(attribute.nullableStrategy, Globals(global).nullableStrategy, nullableAnnotationEnabled)
    ensures r.generateMethodsForUnreachableProperties
      == Coalesce(attribute.generateMethodsForUnreachableProperties, Globals(global).generateMethodsForUnreachableProperties)
    ensures r.implicitCast == Coalesce(attribute.implicitCast, Globals(global).implicitCast)
    ensures r.staticFactoryMethodName == attribute.staticFactoryMethodName
    ensures r.generateStaticPropertyForBuilderCreation
      == Coalesce(attribute.generateStaticPropertyForBuilderCreation, Globals(global).generateStaticPropertyForBuilderCreation)
  {
    var g := Globals(global);
    MakeBuilderData(
      attribute.typeForBuilder,
      Coalesce(attribute.buildingMethodsPrefix, g.buildingMethodsPrefix),
      Coalesce(attribute.generateDefaultBuildMethod, g.generateDefaultBuildMethod),
      MergeNullable(attribute.nullableStrategy, g.nullableStrategy, nullableAnnotationEnabled),
      Coalesce(attribute.generateMethodsForUnreachableProperties, g.generateMethodsForUnreachableProperties),
      Coalesce(attribute.implicitCast, g.implicitCast),
      attribute.staticFactoryMethodName,
      Coalesce(attribute.generateStaticPropertyForBuilderCreation, g.generateStaticPropertyForBuilderCreation))
  }

  /** The case of the method switch a builder method falls into; the cases
      are tried in order, so each method takes the first that applies. */
  datatype MethodRole = BuildingMethod | PostBuildOverride | BuildOverride | DefaultConstructorOverride | Unrelated

  function RoleOf(m: MethodData, prefix: string): (r: MethodRole)
    ensures r == BuildingMethod <==> m.kind == Ordinary && Text.StartsWith(m.name, prefix) && m.name != BuildMethodName
    ensures r == PostBuildOverride <==>
      m.kind == Ordinary && m.name == PostBuildMethodName && !Text.StartsWith(m.name, prefix)
    ensures r == BuildOverride <==> m.kind == Ordinary && m.name == BuildMethodName && m.parametersLength == 0
    ensures r == DefaultConstructorOverride <==> m.kind == Constructor && m.parametersLength == 0 && !m.isImplicitlyDeclared
  {
    if m.kind == Ordinary && Text.StartsWith(m.name, prefix) && m.name != BuildMethodName then BuildingMethod
    else if m.kind == Ordinary && m.name == PostBuildMethodName then PostBuildOverride
    else if m.kind == Ordinary && m.name == BuildMethodName && m.parametersLength == 0 then BuildOverride
    else if m.kind == Constructor && m.parametersLength == 0 && !m.isImplicitlyDeclared then DefaultConstructorOverride
    else Unrelated
  }

  /** The diagnostic a role reports, if any. */
  function DiagnosticOf(role: MethodRole): seq<Diagnostic>
  {
    match role
    case BuildOverride => [BuildMethodOverriden]
    case DefaultConstructorOverride => [DefaultConstructorOverriden]
    case _ => []
  }

  /** The scan as a whole: the building methods by name (failing on a repeated
      name), in method order. */
  function BuildingMethodsOf(methods: seq<MethodData>, prefix: string): Result<map<string, MethodData>, BuilderError>
  {
    if methods == [] then Success(map[])
    else
      var last := methods[|methods| - 1];
      match BuildingMethodsOf(methods[..|methods| - 1], prefix)
      case Failure(e) => Failure(e)
      case Success(found) =>
        if RoleOf(last, prefix) != BuildingMethod then Success(found)
        else if last.name in found then Failure(DuplicateBuildingMethod)
        else Success(found[last.name := last])
  }

  /** Once the scan has failed, later methods cannot undo it. */
  lemma {:induction false} FailureIsFinal(methods: seq<MethodData>, prefix: string, n: nat)
    requires n <= |methods|
    requires BuildingMethodsOf(methods[..n], prefix).Failure?
    ensures BuildingMethodsOf(methods, prefix).Failure?
    decreases |methods| - n
  {
    if n < |methods| {
      assert methods[..n + 1][..n] == methods[..n];
      FailureIsFinal(methods, prefix, n + 1);
    } else {
      assert methods[..n] == methods;
    }
  }

  /** The diagnostics of the scan, in method order. */
  function DiagnosticsOf(methods: seq<MethodData>, prefix: string): seq<Diagnostic>
  {
    if methods == [] then []
    else DiagnosticsOf(methods[..|methods| - 1], prefix) + DiagnosticOf(RoleOf(methods[|methods| - 1], prefix))
  }

  predicate HasRole(methods: seq<MethodData>, prefix: string, role: MethodRole)
  {
    exists i :: 0 <= i < |methods| && RoleOf(methods[i], prefix) == role
  }

  /** Two building methods of the same name. */
  predicate NameClash(methods: seq<MethodData>, prefix: string)
  {
    exists i, j :: 0 <= i < j < |methods| && RoleOf(methods[i], prefix) == BuildingMethod
      && RoleOf(methods[j], prefix) == BuildingMethod && methods[i].name == methods[j].name
  }

  /** Whether some building method has the given name. */
  predicate HasBuildingMethod(methods: seq<MethodData>, prefix: string, name: string)
  {
    exists i :: 0 <= i < |methods| && RoleOf(methods[i], prefix) == BuildingMethod && methods[i].name == name
  }

  /** The building-method dictionary holds exactly the building methods, each
      under its own name; building it fails exactly when two of them share a
      name. */
  lemma {:induction false} BuildingMethodsExactly(methods: seq<MethodData>, prefix: string)
    ensures BuildingMethodsOf(methods, prefix).Failure? <==> NameClash(methods, prefix)
    ensures BuildingMethodsOf(methods, prefix).Success? ==>
      var found := BuildingMethodsOf(methods, prefix).value;
      && (forall name :: name in found <==> HasBuildingMethod(methods, prefix, name))
      && (forall name <- found :: found[name].name == name && RoleOf(found[name], prefix) == BuildingMethod)
  {
    if methods != [] {
      var init := methods[..|methods| - 1];
      var last := methods[|methods| - 1];
      BuildingMethodsExactly(init, prefix);
      HasBuildingMethodStep(methods, prefix);
      NameClashStep(methods, prefix);
      var before := BuildingMethodsOf(init, prefix);
      if before.Success? && RoleOf(last, prefix) == BuildingMethod && last.name in before.value {
        var i :| 0 <= i < |init| && RoleOf(init[i], prefix) == BuildingMethod && init[i].name == last.name;
        assert methods[i] == init[i];
      }
    }
  }

  /** A building method of a name occurs in a list exactly when it occurs
      before the last method or is the last method. */
  lemma HasBuildingMethodStep(methods: seq<MethodData>, prefix: string)
    requires methods != []
    ensures var init, last := methods[..|methods| - 1], methods[|methods| - 1];
      forall name :: HasBuildingMethod(methods, prefix, name) <==>
        HasBuildingMethod(init, prefix, name) || (RoleOf(last, prefix) == BuildingMethod && last.name == name)
  {
    var init, last := methods[..|methods| - 1], methods[|methods| - 1];
    forall name
      ensures HasBuildingMethod(methods, prefix, name) <==>
        HasBuildingMethod(init, prefix, name) || (RoleOf(last, prefix) == BuildingMethod && last.name == name)
    {
      if HasBuildingMethod(methods, prefix, name) {
        var i :| 0 <= i < |methods| && RoleOf(methods[i], prefix) == BuildingMethod && methods[i].name == name;
        if i < |init| {
          assert methods[i] == init[i];
        }
      }
      if HasBuildingMethod(init, prefix, name) {
        var i :| 0 <= i < |init| && RoleOf(init[i], prefix) == BuildingMethod && init[i].name == name;
        assert methods[i] == init[i];
      }
    }
  }

  /** A clash occurs in a list exactly when it occurs before the last method
      or the last method repeats an earlier building method's name. */
  lemma NameClashStep(methods: seq<MethodData>, prefix: string)
    requires methods != []
    ensures var init, last := methods[..|methods| - 1], methods[|methods| - 1];
      NameClash(methods, prefix) <==>
        NameClash(init, prefix) || (RoleOf(last, prefix) == BuildingMethod && HasBuildingMethod(init, prefix, last.name))
  {
    var init, last := methods[..|methods| - 1], methods[|methods| - 1];
    if NameClash(methods, prefix) {
      var i, j :| 0 <= i < j < |methods| && RoleOf(methods[i], prefix) == BuildingMethod
        && RoleOf(methods[j], prefix) == BuildingMethod && methods[i].name == methods[j].name;
      assert methods[i] == init[i];
      if j < |init| {
        assert methods[j] == init[j];
      }
    }
    if NameClash(init, prefix) {
      var i, j :| 0 <= i < j < |init| && RoleOf(init[i], prefix) == BuildingMethod
        && RoleOf(init[j], prefix) == BuildingMethod && init[i].name == init[j].name;
      assert methods[i] == init[i] && methods[j] == init[j];
    }
    if RoleOf(last, prefix) == BuildingMethod && HasBuildingMethod(init, prefix, last.name) {
      var i :| 0 <= i < |init| && RoleOf(init[i], prefix) == BuildingMethod && init[i].name == last.name;
      assert methods[i] == init[i];
    }
  }

  /** One diagnostic per overriding `Build` or default constructor, and no
      other: a diagnostic kind is reported exactly when a method of the
      matching case exists. */
  lemma {:induction false} DiagnosticsExactly(methods: seq<MethodData>, prefix: string)
    ensures BuildMethodOverriden in DiagnosticsOf(methods, prefix) <==> HasRole(methods, prefix, BuildOverride)
    ensures DefaultConstructorOverriden in DiagnosticsOf(methods, prefix) <==> HasRole(methods, prefix, DefaultConstructorOverride)
    ensures |DiagnosticsOf(methods, prefix)| <= |methods|
  {
    if methods != [] {
      var init := methods[..|methods| - 1];
      DiagnosticsExactly(init, prefix);
      HasRoleStep(methods, prefix);
    }
  }

  /** A role occurs in a list exactly when it occurs before the last method
      or is the last method's. */
  lemma HasRoleStep(methods: seq<MethodData>, prefix: string)
    requires methods != []
    ensures forall role :: HasRole(methods, prefix, role) <==>
      HasRole(methods[..|methods| - 1], prefix, role) || RoleOf(methods[|methods| - 1], prefix) == role
  {
    var init := methods[..|methods| - 1];
    forall role
      ensures HasRole(methods, prefix, role) <==> HasRole(init, prefix, role) || RoleOf(methods[|methods| - 1], prefix) == role
    {
      if HasRole(init, prefix, role) {
        var j :| 0 <= j < |init| && RoleOf(init[j], prefix) == role;
        assert methods[j] == init[j];
      }
      if HasRole(methods, prefix, role) {
        var j :| 0 <= j < |methods| && RoleOf(methods[j], prefix) == role;
        if j < |init| {
          assert methods[j] == init[j];
        }
      }
    }
  }

  /** The fields dictionary: each field under its name. Two fields of one name
      map to equal records, so building it never fails. */
  function FieldsMap(fields: seq<FieldData>): (m: map<string, FieldData>)
    ensures forall name :: name in m <==> exists f <- fields :: f.name == name
    ensures forall name <- m :: m[name] == FieldData(name)
  {
    map f <- fields :: f.name := FieldData(f.name)
  }

  /** The private constructor: applies the library defaults, rejects a blank
      prefix, then scans the builder's methods once. */
  method NewBuilderProperties(builder: BuilderData, attribute: MakeBuilderData) returns (r: Result<BuilderProperties, BuilderError>)
    ensures var prefix := attribute.buildingMethodsPrefix.GetOr(DefaultBuildingMethodsPrefix);
      && (Text.IsEmptyOrWhiteSpace(prefix) ==> r == Failure(EmptyPrefix))
      && (!Text.IsEmptyOrWhiteSpace(prefix) ==> (r.Failure? <==> BuildingMethodsOf(builder.methods, prefix).Failure?))
      && (r.Success? ==>
            && r.value.containingNamespace == builder.containingNamespace
            && r.value.name == builder.name
            && r.value.fullName == builder.fullName
            && r.value.buildingMethodsPrefix == prefix
            && r.value.nullableStrategy == attribute.nullableStrategy.GetOr(Default)
            && r.value.generateDefaultBuildMethod == attribute.generateDefaultBuildMethod.GetOr(true)
            && r.value.implicitCast == attribute.implicitCast.GetOr(false)
            && r.value.shouldGenerateMethodsForUnreachableProperties == attribute.generateMethodsForUnreachableProperties.GetOr(false)
            && r.value.staticFactoryMethodName == attribute.staticFactoryMethodName
            && r.value.generateStaticPropertyForBuilderCreation == attribute.generateStaticPropertyForBuilderCreation.GetOr(false)
            && BuildingMethodsOf(builder.methods, prefix) == Success(r.value.buildingMethods)
            && r.value.isPostBuildMethodOverriden == HasRole(builder.methods, prefix, PostBuildOverride)
            && r.value.isBuildMethodOverriden == HasRole(builder.methods, prefix, BuildOverride)
            && r.value.isDefaultConstructorOverriden == HasRole(builder.methods, prefix, DefaultConstructorOverride)
            && r.value.diagnostics == DiagnosticsOf(builder.methods, prefix)
            && r.value.fields == FieldsMap(builder.fields))
  {
    var prefix := attribute.buildingMethodsPrefix.GetOr(DefaultBuildingMethodsPrefix);
    if Text.IsEmptyOrWhiteSpace(prefix) {
      return Failure(EmptyPrefix);
    }
    var methods := builder.methods;
    var buildingMethods: map<string, MethodData> := map[];
    var diagnostics: seq<Diagnostic> := [];
    var isPostBuildMethodOverriden, isBuildMethodOverriden, isDefaultConstructorOverriden := false, false, false;
    for i := 0 to |methods|
      invariant BuildingMethodsOf(methods[..i], prefix) == Success(buildingMethods)
      invariant diagnostics == DiagnosticsOf(methods[..i], prefix)
      invariant isPostBuildMethodOverriden == HasRole(methods[..i], prefix, PostBuildOverride)
      invariant isBuildMethodOverriden == HasRole(methods[..i], prefix, BuildOverride)
      invariant isDefaultConstructorOverriden == HasRole(methods[..i], prefix, DefaultConstructorOverride)
    {
      var m := methods[i];
      assert methods[..i + 1][..i] == methods[..i];
      assert methods[..i + 1][i] == m;
      HasRoleStep(methods[..i + 1], prefix);
      if m.kind == Ordinary && Text.StartsWith(m.name, prefix) && m.name != BuildMethodName {
        if m.name in buildingMethods {
          FailureIsFinal(methods, prefix, i + 1);
          return Failure(DuplicateBuildingMethod);
        }
        buildingMethods := buildingMethods[m.name := m];
      } else if m.kind == Ordinary && m.name == PostBuildMethodName {
        isPostBuildMethodOverriden := true;
      } else if m.kind == Ordinary && m.name == BuildMethodName && m.parametersLength == 0 {
        isBuildMethodOverriden := true;
        diagnostics := diagnostics + [BuildMethodOverriden];
      } else if m.kind == Constructor && m.parametersLength == 0 && !m.isImplicitlyDeclared {
        isDefaultConstructorOverriden := true;
        diagnostics := diagnostics + [DefaultConstructorOverriden];
      }
    }
    assert methods[..|methods|] == methods;
    r := Success(BuilderProperties(
      builder.containingNamespace, builder.name, builder.fullName, prefix,
      attribute.nullableStrategy.GetOr(Default),
      attribute.generateDefaultBuildMethod.GetOr(true),
      attribute.implicitCast.GetOr(false),
      isPostBuildMethodOverriden,
      isDefaultConstructorOverriden,
      attribute.generateMethodsForUnreachableProperties.GetOr(false),
      isBuildMethodOverriden,
      attribute.staticFactoryMethodName,
      attribute.generateStaticPropertyForBuilderCreation.GetOr(false),
      buildingMethods,
      FieldsMap(builder.fields),
      diagnostics));
  }

  /** `Create`: merges the two attributes and runs the private constructor. */
  method Create(builder: BuilderData, attribute: MakeBuilderData, global: Option<GlobalMakeBuilderData>, nullableAnnotationEnabled: bool)
    returns (r: Result<BuilderProperties, BuilderError>)
    ensures var merged := MergeAttributes(attribute, global, nullableAnnotationEnabled);
      var prefix := merged.buildingMethodsPrefix.GetOr(DefaultBuildingMethodsPrefix);
      && (Text.IsEmptyOrWhiteSpace(prefix) ==> r == Failure(EmptyPrefix))
      && (!Text.IsEmptyOrWhiteSpace(prefix) ==> (r.Failure? <==> BuildingMethodsOf(builder.methods, prefix).Failure?))
      && (r.Success? ==>
            && r.value.containingNamespace == builder.containingNamespace
            && r.value.name == builder.name
            && r.value.fullName == builder.fullName
            && r.value.buildingMethodsPrefix == prefix
            && r.value.nullableStrategy == merged.nullableStrategy.GetOr(Default)
            && r.value.generateDefaultBuildMethod == merged.generateDefaultBuildMethod.GetOr(true)
            && r.value.implicitCast == merged.implicitCast.GetOr(false)
            && r.value.shouldGenerateMethodsForUnreachableProperties == merged.generateMethodsForUnreachableProperties.GetOr(false)
            && r.value.staticFactoryMethodName == attribute.staticFactoryMethodName
            && r.value.generateStaticPropertyForBuilderCreation == merged.generateStaticPropertyForBuilderCreation.GetOr(false)
            && BuildingMethodsOf(builder.methods, prefix) == Success(r.value.buildingMethods)
            && r.value.isPostBuildMethodOverriden == HasRole(builder.methods, prefix, PostBuildOverride)
            && r.value.isBuildMethodOverriden == HasRole(builder.methods, prefix, BuildOverride)
            && r.value.isDefaultConstructorOverriden == HasRole(builder.methods, prefix, DefaultConstructorOverride)
            && r.value.diagnostics == DiagnosticsOf(builder.methods, prefix)
            && r.value.fields == FieldsMap(builder.fields))
  {
    r := NewBuilderProperties(builder, MergeAttributes(attribute, global, nullableAnnotationEnabled));
  }

  /** Three-tier resolution of a setting: per-type, else global, else the
      library default applied by the private constructor. */
  lemma ResolutionOrder<T>(local: Option<T>, global: Option<T>, default: T)
    ensures local.Some? ==> Coalesce(local, global).GetOr(default) == local.value
    ensures local.None? && global.Some? ==> Coalesce(local, global).GetOr(default) == global.value
    ensures local.None? && global.None? ==> Coalesce(local, global).GetOr(default) == default
  {
  }

  /** The resolved nullable strategy: an explicit `Disabled` (per-type, or
      global with no per-type value) is kept; with annotations enabled nothing
      else but `Enabled` can result; without them the coalesced strategy is kept,
      an explicit `Default` included, and an unset strategy is `Default`. */
  lemma NullableResolution(local: Option<NullableStrategy>, global: Option<NullableStrategy>, nullableAnnotationEnabled: bool)
    ensures var resolved := MergeNullable(local, global, nullableAnnotationEnabled).GetOr(Default);
      && (local == Some(Disabled) ==> resolved == Disabled)
      && (local.None? && global == Some(Disabled) ==> resolved == Disabled)
      && (nullableAnnotationEnabled && Coalesce(local, global) != Some(Disabled) ==> resolved == Enabled)
      && (!nullableAnnotationEnabled && local.None? && global.None? ==> resolved == Default)
      && (local.Some? && local.value != Default ==> resolved == local.value)
      && (!nullableAnnotationEnabled ==> resolved == Coalesce(local, global).GetOr(Default))
  {
  }
}
