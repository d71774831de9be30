/** `NamespacesGenerator`: the `using` directives of a generated builder,
    gathered from the entity, mocking and fixture configurations plus three
    namespaces every builder needs, without repeats. */
module NamespacesGenerator {
  import opened Wrappers
  import opened Proxies

  const UsingOpen: string := "using "
  const UsingClose: string := ";"

  /** The namespaces the generated code always uses. */
  const FixedNamespaces: seq<string> := ["System", "System.Linq", "Buildenator.Abstraction.Helpers"]

  /** What the providers contribute, in order: a null provider or one whose
      array is the default (uninitialised) one contributes nothing. */
  function Contributed(providers: seq<Option<StringArray>>): (r: seq<string>)
    ensures forall ns :: ns in r <==>
      exists i :: 0 <= i < |providers| && providers[i].Some? && providers[i].value.Items? && ns in providers[i].value.values
  {
    if providers == [] then []
    else
      var init, last := providers[..|providers| - 1], providers[|providers| - 1];
      assert forall i :: 0 <= i < |init| ==> providers[i] == init[i];
      Contributed(init) + (if last.Some? && last.value.Items? then last.value.values else [])
  }

  /** The providers contribute in their order: contribution distributes over
      concatenation. */
  lemma {:induction false} ContributedDistributes(ps: seq<Option<StringArray>>, qs: seq<Option<StringArray>>)
    ensures Contributed(ps + qs) == Contributed(ps) + Contributed(qs)
    decreases |qs|
  {
    if qs == [] {
      assert ps + qs == ps;
    } else {
      var init, last := qs[..|qs| - 1], qs[|qs| - 1];
      var tail := if last.Some? && last.value.Items? then last.value.values else [];
      assert (ps + qs)[..|ps + qs| - 1] == ps + init;
      assert (ps + qs)[|ps + qs| - 1] == last;
      assert Contributed(ps + qs) == Contributed(ps + init) + tail;
      assert Contributed(qs) == Contributed(init) + tail;
      ContributedDistributes(ps, init);
    }
  }

  /** `Enumerable.Distinct`: the first occurrence of each element, in order. */
  function Distinct(xs: seq<string>): (r: seq<string>)
    ensures |r| <= |xs|
    ensures xs != [] ==> |r| > 0 && r[0] == xs[0]
  {
    if xs == [] then []
    else Distinct(xs[..|xs| - 1]) + (if xs[|xs| - 1] in xs[..|xs| - 1] then [] else [xs[|xs| - 1]])
  }

  /** Distinct keeps every element and adds none. */
  lemma {:induction false} DistinctMembers(xs: seq<string>)
    ensures forall x :: x in Distinct(xs) <==> x in xs
  {
    if xs != [] {
      var init, last := xs[..|xs| - 1], xs[|xs| - 1];
      DistinctMembers(init);
      assert xs == init + [last];
    }
  }

  predicate NoDuplicates(xs: seq<string>)
  {
    forall i, j :: 0 <= i < j < |xs| ==> xs[i] != xs[j]
  }

  function UsingLine(ns: string): string
  {
    UsingOpen + ns + UsingClose
  }

  /** One directive per namespace, in order. */
  function UsingLines(namespaces: seq<string>): (r: Code)
    ensures |r| == |namespaces|
  {
    if namespaces == [] then []
    else UsingLines(namespaces[..|namespaces| - 1]) + [UsingLine(namespaces[|namespaces| - 1])]
  }

  lemma UsingLinesAppend(namespaces: seq<string>, ns: string)
    ensures UsingLines(namespaces + [ns]) == UsingLines(namespaces) + [UsingLine(ns)]
  {
    assert (namespaces + [ns])[..|namespaces|] == namespaces;
  }

  /** One more element: kept exactly when it has not occurred before. */
  lemma DistinctStep(xs: seq<string>, i: nat)
    requires i < |xs|
    ensures forall ns :: ns in xs[..i + 1] <==> ns in xs[..i] || ns == xs[i]
    ensures xs[i] in xs[..i] ==> UsingLines(Distinct(xs[..i + 1])) == UsingLines(Distinct(xs[..i]))
    ensures xs[i] !in xs[..i] ==> UsingLines(Distinct(xs[..i + 1])) == UsingLines(Distinct(xs[..i])) + [UsingLine(xs[i])]
  {
    var before := xs[..i];
    assert xs[..i + 1] == before + [xs[i]];
    assert xs[..i + 1][..i] == before;
    var d := Distinct(before);
    assert Distinct(xs[..i + 1]) == d + (if xs[i] in before then [] else [xs[i]]);
    if xs[i] !in before {
      UsingLinesAppend(d, xs[i]);
    } else {
      assert d + [] == d;
    }
  }

  /** What `GenerateNamespaces` returns. */
  function NamespacesCode(providers: seq<Option<StringArray>>): Code
  {
    UsingLines(Distinct(Contributed(providers) + FixedNamespaces))
  }

  /** The provider loop. */
  method CollectNamespaces(providers: seq<Option<StringArray>>) returns (namespaces: seq<string>)
    ensures namespaces == Contributed(providers)
  {
    namespaces := [];
    for i := 0 to |providers|
      invariant namespaces == Contributed(providers[..i])
    {
      assert providers[..i + 1][..i] == providers[..i];
      var provider := providers[i];
      if provider.Some? && !provider.value.DefaultArray? {
        namespaces := namespaces + provider.value.values;
      }
    }
    assert providers[..|providers|] == providers;
  }

  /** The output loop over the distinct namespaces; the set holds what the
      distinct filter has already let through. */
  method EmitDistinct(namespaces: seq<string>) returns (output: Code)
    ensures output == UsingLines(Distinct(namespaces))
  {
    output := [];
    var seen: set<string> := {};
    for i := 0 to |namespaces|
      invariant output == UsingLines(Distinct(namespaces[..i]))
      invariant forall ns :: ns in seen <==> ns in namespaces[..i]
    {
      var ns := namespaces[i];
      DistinctStep(namespaces, i);
      if ns !in seen {
        seen := seen + {ns};
        output := output + [UsingLine(ns)];
      }
    }
    assert namespaces[..|namespaces|] == namespaces;
  }

  /** `GenerateNamespaces`. */
  method GenerateNamespaces(providers: seq<Option<StringArray>>) returns (output: Code)
    ensures output == NamespacesCode(providers)
  {
    var namespaces := CollectNamespaces(providers);
    namespaces := namespaces + FixedNamespaces;
    output := EmitDistinct(namespaces);
  }

  /** Distinct never repeats an element. */
  lemma {:induction false} DistinctHasNoDuplicates(xs: seq<string>)
    ensures NoDuplicates(Distinct(xs))
  {
    if xs != [] {
      var init, last := xs[..|xs| - 1], xs[|xs| - 1];
      DistinctHasNoDuplicates(init);
      DistinctMembers(init);
    }
  }

  /** Distinct leaves a repeat-free sequence as it is. */
  lemma {:induction false} DistinctOfDistinct(xs: seq<string>)
    requires NoDuplicates(xs)
    ensures Distinct(xs) == xs
  {
    if xs != [] {
      var init, last := xs[..|xs| - 1], xs[|xs| - 1];
      assert NoDuplicates(init) by {
        forall i, j | 0 <= i < j < |init| ensures init[i] != init[j] {
          assert init[i] == xs[i] && init[j] == xs[j];
        }
      }
      DistinctOfDistinct(init);
      assert last !in init by {
        forall i | 0 <= i < |init| ensures init[i] != last {
          assert init[i] == xs[i];
        }
      }
      assert xs == init + [last];
    }
  }

  /** First occurrences keep their order: the distinct namespaces of a prefix
      come first, so the providers' namespaces precede the fixed ones that are
      not among them. */
  lemma {:induction false} DistinctPrefix(xs: seq<string>, ys: seq<string>)
    ensures Distinct(xs) <= Distinct(xs + ys)
    decreases |ys|
  {
    if ys == [] {
      assert xs + ys == xs;
    } else {
      var zs := xs + ys;
      var init := ys[..|ys| - 1];
      assert zs[..|zs| - 1] == xs + init;
      DistinctPrefix(xs, init);
    }
  }

  lemma {:induction false} UsingLinesAt(namespaces: seq<string>, i: nat)
    requires i < |namespaces|
    ensures UsingLines(namespaces)[i] == UsingLine(namespaces[i])
  {
    var init := namespaces[..|namespaces| - 1];
    var front := UsingLines(init);
    assert UsingLines(namespaces) == front + [UsingLine(namespaces[|namespaces| - 1])];
    if i < |init| {
      UsingLinesAt(init, i);
      assert namespaces[i] == init[i];
    } else {
      assert i == |init|;
    }
  }

  /** Different namespaces give different directives. */
  lemma UsingLineInjective(a: string, b: string)
    requires UsingLine(a) == UsingLine(b)
    ensures a == b
  {
    var la, lb := UsingLine(a), UsingLine(b);
    assert |a| == |b|;
    assert la[|UsingOpen|..|UsingOpen| + |a|] == a;
    assert lb[|UsingOpen|..|UsingOpen| + |b|] == b;
  }

  /** The directives: a namespace gets one exactly when a provider contributes
      it or it is one of the fixed three, and no directive is repeated. */
  lemma NamespacesExactly(providers: seq<Option<StringArray>>)
    ensures forall ns :: UsingLine(ns) in NamespacesCode(providers) <==>
      ns in Contributed(providers) || ns in FixedNamespaces
    ensures NoDuplicates(NamespacesCode(providers))
    ensures |NamespacesCode(providers)| <= |Contributed(providers)| + |FixedNamespaces|
  {
    var distinct := Distinct(Contributed(providers) + FixedNamespaces);
    var code := NamespacesCode(providers);
    DistinctHasNoDuplicates(Contributed(providers) + FixedNamespaces);
    DistinctMembers(Contributed(providers) + FixedNamespaces);
    forall ns
      ensures UsingLine(ns) in code <==> ns in Contributed(providers) || ns in FixedNamespaces
    {
      if UsingLine(ns) in code {
        var i :| 0 <= i < |code| && code[i] == UsingLine(ns);
        UsingLinesAt(distinct, i);
        UsingLineInjective(distinct[i], ns);
        assert distinct[i] in distinct;
      }
      if ns in Contributed(providers) || ns in FixedNamespaces {
        assert ns in Contributed(providers) + FixedNamespaces;
        var i :| 0 <= i < |distinct| && distinct[i] == ns;
        UsingLinesAt(distinct, i);
      }
    }
    forall i, j | 0 <= i < j < |code|
      ensures code[i] != code[j]
    {
      UsingLinesAt(distinct, i);
      UsingLinesAt(distinct, j);
      if code[i] == code[j] {
        UsingLineInjective(distinct[i], distinct[j]);
      }
    }
  }

  /** The providers' directives come first, in provider order, before the
      fixed namespaces they did not already name. */
  lemma ProvidersComeFirst(providers: seq<Option<StringArray>>)
    ensures UsingLines(Distinct(Contributed(providers))) <= NamespacesCode(providers)
  {
    var xs := Distinct(Contributed(providers));
    var ys := Distinct(Contributed(providers) + FixedNamespaces);
    DistinctPrefix(Contributed(providers), FixedNamespaces);
    forall i | 0 <= i < |xs|
      ensures UsingLines(xs)[i] == UsingLines(ys)[i]
    {
      UsingLinesAt(xs, i);
      UsingLinesAt(ys, i);
    }
  }
}
