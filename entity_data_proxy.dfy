/** `EntityDataProxy`: the comparable snapshot of the type a builder is made
    for, with the properties inherited from its base types merged in. */
module EntityDataProxies {
  import opened Wrappers
  import opened Proxies

  /** A member of a type as the host compiler lists it. `isSettable` is the
      library's `IsSettableProperty` check, which is not part of this model. */
  datatype Member =
    | PropertyMember(symbol: SymbolData, getter: Option<Accessibility>, isSettable: bool)
    | MethodMember(kind: MethodKind, isStatic: bool, accessibility: Accessibility, name: string, parameters: seq<SymbolData>)
    | OtherMember

  /** The target type as the host compiler presents it. For a generic type the
      members are those of its unconstructed definition, and
      `constraintNamespaces` holds, per type parameter, the namespaces of its
      constraint types. `baseTypes` lists the members of each ancestor, nearest
      first, ending at the root. */
  datatype HostType = HostType(
    isGenericType: bool,
    constraintNamespaces: seq<seq<string>>,
    isAbstract: bool,
    name: string,
    fullName: string,
    fullNameWithConstraints: string,
    members: seq<Member>,
    baseTypes: seq<seq<Member>>)

  datatype EntityData = EntityData(
    isAbstract: bool,
    name: string,
    fullName: string,
    fullNameWithConstraints: string,
    additionalNamespaces: StringArray,
    constructors: seq<ConstructorData>,
    staticMethods: seq<ConstructorData>,
    settableProperties: seq<SymbolData>,
    unsettableProperties: seq<SymbolData>)

  /** Where the member switch puts a direct member. */
  datatype MemberRole = SettableProperty | UnsettableProperty | InstanceConstructor | StaticMethod | Ignored

  predicate IsPublicOrInternal(a: Accessibility)
  {
    a == Public || a == Internal
  }

  /** The member switch: a property whose getter exists and is neither private
      nor protected is sorted by settability; a public or internal constructor
      is a constructor; any other public or internal static method is a static
      factory candidate; everything else is ignored. */
  function RoleOf(m: Member): (r: MemberRole)
    ensures r == SettableProperty <==>
      m.PropertyMember? && m.getter.Some? && m.getter.value != Private && m.getter.value != Protected && m.isSettable
    ensures r == UnsettableProperty <==>
      m.PropertyMember? && m.getter.Some? && m.getter.value != Private && m.getter.value != Protected && !m.isSettable
    ensures r == InstanceConstructor <==>
      m.MethodMember? && m.kind == Constructor && IsPublicOrInternal(m.accessibility)
    ensures r == StaticMethod <==>
      m.MethodMember? && m.kind != Constructor && m.isStatic && IsPublicOrInternal(m.accessibility)
  {
    match m
    case PropertyMember(_, getter, isSettable) =>
      if getter.Some? && getter.value != Private && getter.value != Protected then
        (if isSettable then SettableProperty else UnsettableProperty)
      else Ignored
    case MethodMember(kind, isStatic, accessibility, _, _) =>
      if kind == Constructor && IsPublicOrInternal(accessibility) then InstanceConstructor
      else if isStatic && IsPublicOrInternal(accessibility) then StaticMethod
      else Ignored
    case OtherMember => Ignored
  }

  /** The properties the switch gives `role`, in declaration order. */
  function DirectProperties(members: seq<Member>, role: MemberRole): seq<SymbolData>
  {
    if members == [] then []
    else
      var last := members[|members| - 1];
      DirectProperties(members[..|members| - 1], role)
      + (if RoleOf(last) == role && last.PropertyMember? then [last.symbol] else [])
  }

  /** The constructors or static methods the switch gives `role`, in declaration order. */
  function DirectMethods(members: seq<Member>, role: MemberRole): seq<ConstructorData>
  {
    if members == [] then []
    else
      var last := members[|members| - 1];
      DirectMethods(members[..|members| - 1], role)
      + (if RoleOf(last) == role && last.MethodMember? then [ConstructorData(last.name, last.parameters)] else [])
  }

  /** The properties with an accessible getter, in declaration order. */
  function VisibleProperties(members: seq<Member>): seq<SymbolData>
  {
    if members == [] then []
    else
      var last := members[|members| - 1];
      VisibleProperties(members[..|members| - 1])
      + (if RoleOf(last) in {SettableProperty, UnsettableProperty} then [last.symbol] else [])
  }

  /** Every visible direct property lands in exactly one of the two lists, and a
      value is in the settable list exactly when a visible settable property
      carries it. */
  lemma {:induction false} DirectPropertiesPartition(members: seq<Member>)
    ensures |DirectProperties(members, SettableProperty)| + |DirectProperties(members, UnsettableProperty)|
            == |VisibleProperties(members)|
    ensures forall x :: x in DirectProperties(members, SettableProperty) <==>
      exists i :: 0 <= i < |members| && RoleOf(members[i]) == SettableProperty && members[i].symbol == x
    ensures forall x :: x in DirectProperties(members, UnsettableProperty) <==>
      exists i :: 0 <= i < |members| && RoleOf(members[i]) == UnsettableProperty && members[i].symbol == x
  {
    if members != [] {
      var init := members[..|members| - 1];
      DirectPropertiesPartition(init);
      forall x
        ensures x in DirectProperties(members, SettableProperty) <==>
          exists i :: 0 <= i < |members| && RoleOf(members[i]) == SettableProperty && members[i].symbol == x
        ensures x in DirectProperties(members, UnsettableProperty) <==>
          exists i :: 0 <= i < |members| && RoleOf(members[i]) == UnsettableProperty && members[i].symbol == x
      {
        forall i | 0 <= i < |init| ensures members[i] == init[i] { }
      }
    }
  }

  function NamesOf(properties: seq<SymbolData>): set<string>
  {
    set p | p in properties :: p.name
  }

  /** A base type's properties, split by settability (`OfType` then `Split`).
      No getter check is applied to base properties. */
  function BaseProperties(level: seq<Member>, settable: bool): seq<SymbolData>
  {
    if level == [] then []
    else
      var last := level[|level| - 1];
      BaseProperties(level[..|level| - 1], settable)
      + (if last.PropertyMember? && last.isSettable == settable then [last.symbol] else [])
  }

  /** The properties of `newProperties` whose name is not yet covered, in order. */
  function NotCovered(newProperties: seq<SymbolData>, names: set<string>): (r: seq<SymbolData>)
    ensures forall x :: x in r <==> x in newProperties && x.name !in names
    ensures forall p <- r :: p.name !in names
  {
    if newProperties == [] then []
    else
      NotCovered(newProperties[..|newProperties| - 1], names)
      + (if newProperties[|newProperties| - 1].name in names then [] else [newProperties[|newProperties| - 1]])
  }

  /** `TakeNotCoveredProperties`: appends the base properties whose name is not
      yet covered and adds their names to the set. Nothing already collected is
      removed or reordered, and a name set that matched its list still does. */
  function TakeNotCoveredProperties(properties: seq<SymbolData>, names: set<string>, newProperties: seq<SymbolData>)
    : (r: (seq<SymbolData>, set<string>))
    ensures properties <= r.0
    ensures forall k :: |properties| <= k < |r.0| ==> r.0[k] in newProperties && r.0[k].name !in names
    ensures forall p <- newProperties :: p.name !in names ==> p in r.0
    ensures r.1 == names + NamesOf(r.0[|properties|..])
    ensures names <= r.1 && forall p <- newProperties :: p.name in r.1
    ensures names == NamesOf(properties) ==> r.1 == NamesOf(r.0)
  {
    var added := NotCovered(newProperties, names);
    var merged := properties + added;
    assert merged[|properties|..] == added;
    assert names == NamesOf(properties) ==> NamesOf(merged) == names + NamesOf(added) by {
      assert forall p :: p in merged <==> p in properties || p in added;
    }
    (merged, names + NamesOf(added))
  }

  /** The four collections the extraction keeps while walking the base types. */
  datatype Collected = Collected(
    settable: seq<SymbolData>,
    setNames: set<string>,
    unsettable: seq<SymbolData>,
    unsetNames: set<string>)
  {
    predicate Consistent()
    {
      setNames == NamesOf(settable) && unsetNames == NamesOf(unsettable)
    }
  }

  /** The direct visible properties, with their name sets. */
  function DirectCollected(members: seq<Member>): Collected
  {
    var settable := DirectProperties(members, SettableProperty);
    var unsettable := DirectProperties(members, UnsettableProperty);
    Collected(settable, NamesOf(settable), unsettable, NamesOf(unsettable))
  }

  /** One step of the base-type walk: each category only looks at its own name set. */
  function MergeLevel(c: Collected, level: seq<Member>): Collected
  {
    var settable := TakeNotCoveredProperties(c.settable, c.setNames, BaseProperties(level, true));
    var unsettable := TakeNotCoveredProperties(c.unsettable, c.unsetNames, BaseProperties(level, false));
    Collected(settable.0, settable.1, unsettable.0, unsettable.1)
  }

  /** The base-type walk: the levels in order, nearest ancestor first. */
  function MergeBases(c: Collected, levels: seq<seq<Member>>): Collected
  {
    if levels == [] then c
    else MergeLevel(MergeBases(c, levels[..|levels| - 1]), levels[|levels| - 1])
  }

  /** One category of the collection: a list and its name set. */
  function Part(c: Collected, settable: bool): (seq<SymbolData>, set<string>)
  {
    if settable then (c.settable, c.setNames) else (c.unsettable, c.unsetNames)
  }

  /** A level merges each category on its own. */
  lemma MergeLevelPart(c: Collected, level: seq<Member>, settable: bool)
    ensures Part(MergeLevel(c, level), settable)
      == TakeNotCoveredProperties(Part(c, settable).0, Part(c, settable).1, BaseProperties(level, settable))
  {
  }

  /** One category of `MergeBasesPreserves`. */
  lemma {:induction false} MergeBasesPreservesPart(c: Collected, levels: seq<seq<Member>>, settable: bool)
    requires Part(c, settable).1 == NamesOf(Part(c, settable).0)
    ensures var after := Part(MergeBases(c, levels), settable);
      && after.1 == NamesOf(after.0)
      && Part(c, settable).0 <= after.0
      && Part(c, settable).1 <= after.1
      && forall k :: |Part(c, settable).0| <= k < |after.0| ==> after.0[k].name !in Part(c, settable).1
  {
    if levels != [] {
      var init := levels[..|levels| - 1];
      MergeBasesPreservesPart(c, init, settable);
      var start := Part(c, settable);
      var before := Part(MergeBases(c, init), settable);
      var after := Part(MergeBases(c, levels), settable);
      MergeLevelPart(MergeBases(c, init), levels[|levels| - 1], settable);
      assert after == TakeNotCoveredProperties(before.0, before.1, BaseProperties(levels[|levels| - 1], settable));
      forall k | |start.0| <= k < |after.0|
        ensures after.0[k].name !in start.1
      {
        if k < |before.0| {
          assert after.0[k] == before.0[k];
        }
      }
    }
  }

  /** The walk keeps each name set equal to the names in its list, only
      appends to the lists, and never appends a property whose name a derived
      type already has in the same category. */
  lemma MergeBasesPreserves(c: Collected, levels: seq<seq<Member>>)
    requires c.Consistent()
    ensures MergeBases(c, levels).Consistent()
    ensures c.settable <= MergeBases(c, levels).settable
    ensures c.unsettable <= MergeBases(c, levels).unsettable
    ensures forall k :: |c.settable| <= k < |MergeBases(c, levels).settable| ==>
      MergeBases(c, levels).settable[k].name !in c.setNames
    ensures forall k :: |c.unsettable| <= k < |MergeBases(c, levels).unsettable| ==>
      MergeBases(c, levels).unsettable[k].name !in c.unsetNames
  {
    MergeBasesPreservesPart(c, levels, true);
    MergeBasesPreservesPart(c, levels, false);
  }

  /** Every property of a level's category has its name in the set. */
  predicate Covered(names: set<string>, level: seq<Member>, settable: bool)
  {
    forall p <- BaseProperties(level, settable) :: p.name in names
  }

  lemma CoveredGrows(names: set<string>, more: set<string>, level: seq<Member>, settable: bool)
    requires Covered(names, level, settable) && names <= more
    ensures Covered(more, level, settable)
  {
  }

  /** A level's merge covers that level and keeps what was covered. */
  lemma MergeLevelCovers(c: Collected, level: seq<Member>, settable: bool)
    ensures Part(c, settable).1 <= Part(MergeLevel(c, level), settable).1
    ensures Covered(Part(MergeLevel(c, level), settable).1, level, settable)
  {
    MergeLevelPart(c, level, settable);
  }

  /** One category of `MergeBasesCovers`. */
  lemma {:induction false} MergeBasesCoversPart(c: Collected, levels: seq<seq<Member>>, settable: bool)
    ensures forall j :: 0 <= j < |levels| ==> Covered(Part(MergeBases(c, levels), settable).1, levels[j], settable)
  {
    if levels != [] {
      var init := levels[..|levels| - 1];
      var last := levels[|levels| - 1];
      MergeBasesCoversPart(c, init, settable);
      var previous := MergeBases(c, init);
      assert MergeBases(c, levels) == MergeLevel(previous, last);
      MergeLevelCovers(previous, last, settable);
      var before, after := Part(previous, settable).1, Part(MergeLevel(previous, last), settable).1;
      forall j | 0 <= j < |levels|
        ensures Covered(after, levels[j], settable)
      {
        if j < |init| {
          assert levels[j] == init[j];
          CoveredGrows(before, after, init[j], settable);
        }
      }
    }
  }

  /** Every ancestor's property name ends up covered in its category: either
      the property was appended or a nearer type already had the name. */
  lemma MergeBasesCovers(c: Collected, levels: seq<seq<Member>>)
    ensures forall j, p :: 0 <= j < |levels| && p in BaseProperties(levels[j], true) ==>
      p.name in MergeBases(c, levels).setNames
    ensures forall j, p :: 0 <= j < |levels| && p in BaseProperties(levels[j], false) ==>
      p.name in MergeBases(c, levels).unsetNames
  {
    MergeBasesCoversPart(c, levels, true);
    MergeBasesCoversPart(c, levels, false);
  }

  /** The `AdditionalNamespaces` of a generic type: one entry per constraint
      type, in type-parameter order, duplicates kept. */
  function ConstraintNamespaces(perTypeParameter: seq<seq<string>>): seq<string>
  {
    if perTypeParameter == [] then []
    else perTypeParameter[0] + ConstraintNamespaces(perTypeParameter[1..])
  }

  /** The member loop of the constructor: one pass sorts the direct members
      into the two property lists (with their name sets), the constructors and
      the static factory candidates. */
  method SortMembers(members: seq<Member>)
    returns (c: Collected, constructors: seq<ConstructorData>, staticMethods: seq<ConstructorData>)
    ensures c == DirectCollected(members)
    ensures constructors == DirectMethods(members, InstanceConstructor)
    ensures staticMethods == DirectMethods(members, StaticMethod)
  {
    var settable: seq<SymbolData> := [];
    var unsettable: seq<SymbolData> := [];
    var setNames: set<string> := {};
    var unsetNames: set<string> := {};
    constructors, staticMethods := [], [];
    for i := 0 to |members|
      invariant settable == DirectProperties(members[..i], SettableProperty)
      invariant unsettable == DirectProperties(members[..i], UnsettableProperty)
      invariant constructors == DirectMethods(members[..i], InstanceConstructor)
      invariant staticMethods == DirectMethods(members[..i], StaticMethod)
      invariant setNames == NamesOf(settable) && unsetNames == NamesOf(unsettable)
    {
      assert members[..i + 1][..i] == members[..i];
      match members[i]
      case PropertyMember(symbol, getter, isSettable) =>
        if getter.Some? && getter.value != Private && getter.value != Protected {
          if isSettable {
            settable := settable + [symbol];
            setNames := setNames + {symbol.name};
          } else {
            unsettable := unsettable + [symbol];
            unsetNames := unsetNames + {symbol.name};
          }
        }
      case MethodMember(kind, isStatic, accessibility, name, parameters) =>
        if kind == Constructor && IsPublicOrInternal(accessibility) {
          constructors := constructors + [ConstructorData(name, parameters)];
        } else if isStatic && IsPublicOrInternal(accessibility) {
          staticMethods := staticMethods + [ConstructorData(name, parameters)];
        }
      case OtherMember =>
    }
    assert members[..|members|] == members;
    c := Collected(settable, setNames, unsettable, unsetNames);
  }

  /** The base-type loop of the constructor: walks the ancestors nearest first,
      letting each category take the properties whose names it lacks. */
  method WalkBases(direct: Collected, levels: seq<seq<Member>>) returns (c: Collected)
    ensures c == MergeBases(direct, levels)
  {
    c := direct;
    var level := 0;
    while level < |levels|
      invariant 0 <= level <= |levels|
      invariant c == MergeBases(direct, levels[..level])
    {
      assert levels[..level + 1][..level] == levels[..level];
      var settable := TakeNotCoveredProperties(c.settable, c.setNames, BaseProperties(levels[level], true));
      var unsettable := TakeNotCoveredProperties(c.unsettable, c.unsetNames, BaseProperties(levels[level], false));
      c := Collected(settable.0, settable.1, unsettable.0, unsettable.1);
      level := level + 1;
    }
    assert levels[..level] == levels;
  }

  /** The `EntityDataProxy(INamedTypeSymbol)` constructor: sorts the direct
      members, then walks the base types until the root. */
  method NewEntityDataProxy(host: HostType) returns (e: EntityData)
    ensures e.isAbstract == host.isAbstract && e.name == host.name && e.fullName == host.fullName
    ensures e.fullNameWithConstraints == host.fullNameWithConstraints
    ensures e.additionalNamespaces ==
      (if host.isGenericType then Items(ConstraintNamespaces(host.constraintNamespaces)) else DefaultArray)
    ensures e.constructors == DirectMethods(host.members, InstanceConstructor)
    ensures e.staticMethods == DirectMethods(host.members, StaticMethod)
    ensures e.settableProperties == MergeBases(DirectCollected(host.members), host.baseTypes).settable
    ensures e.unsettableProperties == MergeBases(DirectCollected(host.members), host.baseTypes).unsettable
  {
    var additionalNamespaces := DefaultArray;
    if host.isGenericType {
      additionalNamespaces := Items(ConstraintNamespaces(host.constraintNamespaces));
    }
    var direct, constructors, staticMethods := SortMembers(host.members);
    var merged := WalkBases(direct, host.baseTypes);
    e := EntityData(host.isAbstract, host.name, host.fullName, host.fullNameWithConstraints,
                    additionalNamespaces, constructors, staticMethods, merged.settable, merged.unsettable);
  }

  /** `Equals`: compares everything except `Name` and `FullName`. */
  function Equals(a: EntityData, b: EntityData): (r: bool)
    ensures r <==> a.(name := b.name, fullName := b.fullName) == b
  {
    && a.fullNameWithConstraints == b.fullNameWithConstraints
    && a.isAbstract == b.isAbstract
    && a.constructors == b.constructors
    && a.staticMethods == b.staticMethods
    && a.settableProperties == b.settableProperties
    && a.unsettableProperties == b.unsettableProperties
    && a.additionalNamespaces == b.additionalNamespaces
  }
}
