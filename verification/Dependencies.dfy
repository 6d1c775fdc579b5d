/** The development dependencies handed to `npm i -D` (index.js lines
    82-108): the converter, then one fixed group per enabled feature, in a
    fixed order. */
module Dependencies {
  import opened Fields
  import opened Features

  const BabelGroup: seq<string> := ["@babel/core", "@babel/preset-env", "@rollup/plugin-babel", "terser"]
  const CoverGroup: seq<string> := ["coveralls", "c8"]
  const EsxGroup: seq<string> := ["@ungap/esxtoken", "@ungap/babel-plugin-transform-esx"]
  const RollupGroup: seq<string> := ["rollup", "@rollup/plugin-node-resolve", "@rollup/plugin-terser"]
  const UngapGroup: seq<string> := ["rollup-plugin-includepaths", "@ungap/degap"]
  const LintGroup: seq<string> := ["eslint"]

  /** Every package the scaffolder may install, in the order of the source. */
  const Catalog: seq<string> :=
    ["ascjs", "ucjs"] + BabelGroup + CoverGroup + EsxGroup + RollupGroup + UngapGroup + LintGroup

  function Group(enabled: bool, group: seq<string>): seq<string>
  {
    if enabled then group else []
  }

  function DevDependencies(f: Flags): seq<string>
  {
    [f.converter.Name()]
    + Group(f.babel, BabelGroup)
    + Group(f.cover, CoverGroup)
    + Group(f.esx, EsxGroup)
    + Group(!f.node, RollupGroup)
    + Group(f.ungap, UngapGroup)
    + Group(f.lint, LintGroup)
  }

  /** The arguments of the install command `npm i -D ...`. */
  function InstallArgs(f: Flags): seq<string>
  {
    ["i", "-D"] + DevDependencies(f)
  }

  /** No argument of `npm i -D` repeats, and no package is mistaken for the
      command or its flag. */
  lemma InstallArgsDistinct(f: Flags)
    ensures Distinct(InstallArgs(f))
    ensures forall p :: p in InstallArgs(f)[2..] ==> p in Catalog
  {
    DependenciesFollowCatalog(f);
    DependencyMembership(f, "i");
    DependencyMembership(f, "-D");
    DistinctAppend(["i", "-D"], DevDependencies(f));
    forall p | p in InstallArgs(f)[2..] ensures p in Catalog {
      SubsequenceMembers(DevDependencies(f), Catalog, p);
    }
  }

  /** `a` is `b` with some elements dropped. */
  predicate Subsequence(a: seq<string>, b: seq<string>)
    decreases |b|
  {
    if a == [] then true
    else if b == [] then false
    else (a[0] == b[0] && Subsequence(a[1..], b[1..])) || Subsequence(a, b[1..])
  }

  lemma {:induction false} SubsequenceOfSelf(a: seq<string>)
    ensures Subsequence(a, a)
  {
    if a != [] { SubsequenceOfSelf(a[1..]); }
  }

  lemma {:induction false} EmptySubsequence(b: seq<string>)
    ensures Subsequence([], b)
  {
  }

  lemma {:induction false} SubsequenceConcat(a1: seq<string>, b1: seq<string>, a2: seq<string>, b2: seq<string>)
    requires Subsequence(a1, b1) && Subsequence(a2, b2)
    ensures Subsequence(a1 + a2, b1 + b2)
    decreases |b1|
  {
    if a1 == [] {
      if b1 == [] {
        assert a1 + a2 == a2 && b1 + b2 == b2;
      } else {
        SubsequenceConcat(a1, b1[1..], a2, b2);
        assert (b1 + b2)[1..] == b1[1..] + b2;
        if a1 + a2 != [] {
          assert a1 + a2 == a2;
        }
      }
    } else {
      assert (a1 + a2)[0] == a1[0] && (a1 + a2)[1..] == a1[1..] + a2;
      assert (b1 + b2)[0] == b1[0] && (b1 + b2)[1..] == b1[1..] + b2;
      if a1[0] == b1[0] && Subsequence(a1[1..], b1[1..]) {
        SubsequenceConcat(a1[1..], b1[1..], a2, b2);
      } else {
        SubsequenceConcat(a1, b1[1..], a2, b2);
      }
    }
  }

  lemma {:induction false} SubsequenceMembers(a: seq<string>, b: seq<string>, x: string)
    requires Subsequence(a, b) && x in a
    ensures x in b
    decreases |b|
  {
    if a[0] == b[0] && Subsequence(a[1..], b[1..]) {
      if x != a[0] { SubsequenceMembers(a[1..], b[1..], x); }
    } else {
      SubsequenceMembers(a, b[1..], x);
    }
  }

  lemma {:induction false} SubsequenceOfDistinct(a: seq<string>, b: seq<string>)
    requires Subsequence(a, b) && Distinct(b)
    ensures Distinct(a)
    decreases |b|
  {
    if a != [] {
      assert Distinct(b[1..]) by {
        forall i, j | 0 <= i < j < |b[1..]| ensures b[1..][i] != b[1..][j] {
          assert b[1..][i] == b[i + 1] && b[1..][j] == b[j + 1];
        }
      }
      if a[0] == b[0] && Subsequence(a[1..], b[1..]) {
        SubsequenceOfDistinct(a[1..], b[1..]);
        forall j | 0 < j < |a| ensures a[0] != a[j] {
          assert a[j] == a[1..][j - 1];
          SubsequenceMembers(a[1..], b[1..], a[j]);
          var k :| 0 <= k < |b[1..]| && b[1..][k] == a[j];
          assert b[k + 1] == a[j];
        }
      } else {
        SubsequenceOfDistinct(a, b[1..]);
      }
    }
  }

  lemma CatalogDistinct()
    ensures Distinct(Catalog)
  {
  }

  lemma GroupIsSubsequence(enabled: bool, group: seq<string>)
    ensures Subsequence(Group(enabled, group), group)
  {
    SubsequenceOfSelf(group);
  }

  /** The list is the catalogue with some groups left out: the groups come
      in the source's order and no package is installed twice. */
  lemma DependenciesFollowCatalog(f: Flags)
    ensures Subsequence(DevDependencies(f), Catalog)
    ensures Distinct(DevDependencies(f))
  {
    var conv := [f.converter.Name()];
    assert Subsequence(conv, ["ascjs", "ucjs"]) by {
      if f.converter == Ascjs {
        EmptySubsequence(["ucjs"]);
      } else {
        assert Subsequence(conv, ["ucjs"]) by { EmptySubsequence([]); }
        assert ["ascjs", "ucjs"][1..] == ["ucjs"];
      }
    }
    GroupIsSubsequence(f.babel, BabelGroup);
    GroupIsSubsequence(f.cover, CoverGroup);
    GroupIsSubsequence(f.esx, EsxGroup);
    GroupIsSubsequence(!f.node, RollupGroup);
    GroupIsSubsequence(f.ungap, UngapGroup);
    GroupIsSubsequence(f.lint, LintGroup);
    SubsequenceConcat(conv, ["ascjs", "ucjs"], Group(f.babel, BabelGroup), BabelGroup);
    var a := conv + Group(f.babel, BabelGroup);
    var b := ["ascjs", "ucjs"] + BabelGroup;
    SubsequenceConcat(a, b, Group(f.cover, CoverGroup), CoverGroup);
    a, b := a + Group(f.cover, CoverGroup), b + CoverGroup;
    SubsequenceConcat(a, b, Group(f.esx, EsxGroup), EsxGroup);
    a, b := a + Group(f.esx, EsxGroup), b + EsxGroup;
    SubsequenceConcat(a, b, Group(!f.node, RollupGroup), RollupGroup);
    a, b := a + Group(!f.node, RollupGroup), b + RollupGroup;
    SubsequenceConcat(a, b, Group(f.ungap, UngapGroup), UngapGroup);
    a, b := a + Group(f.ungap, UngapGroup), b + UngapGroup;
    SubsequenceConcat(a, b, Group(f.lint, LintGroup), LintGroup);
    a, b := a + Group(f.lint, LintGroup), b + LintGroup;
    assert a == DevDependencies(f) && b == Catalog;
    CatalogDistinct();
    SubsequenceOfDistinct(a, Catalog);
  }

  lemma DependencyMembership(f: Flags, p: string)
    ensures p in DevDependencies(f) <==>
      || p == f.converter.Name()
      || (f.babel && p in BabelGroup) || (f.cover && p in CoverGroup)
      || (f.esx && p in EsxGroup) || (!f.node && p in RollupGroup)
      || (f.ungap && p in UngapGroup) || (f.lint && p in LintGroup)
  {
  }

  /** The converter comes first. */
  lemma ConverterFirst(f: Flags)
    ensures DevDependencies(f)[0] == (if f.converter == Ucjs then "ucjs" else "ascjs")
    ensures "ascjs" in DevDependencies(f) <==> f.converter == Ascjs
    ensures "ucjs" in DevDependencies(f) <==> f.converter == Ucjs
  {
    DependencyMembership(f, "ascjs");
    DependencyMembership(f, "ucjs");
  }

  lemma BabelGroupInstalled(f: Flags)
    ensures forall p :: p in BabelGroup ==> (p in DevDependencies(f) <==> f.babel)
  {
    forall p | p in BabelGroup ensures p in DevDependencies(f) <==> f.babel {
      DependencyMembership(f, p);
    }
  }

  lemma CoverGroupInstalled(f: Flags)
    ensures forall p :: p in CoverGroup ==> (p in DevDependencies(f) <==> f.cover)
  {
    forall p | p in CoverGroup ensures p in DevDependencies(f) <==> f.cover {
      DependencyMembership(f, p);
    }
  }

  lemma EsxGroupInstalled(f: Flags)
    ensures forall p :: p in EsxGroup ==> (p in DevDependencies(f) <==> f.esx)
  {
    forall p | p in EsxGroup ensures p in DevDependencies(f) <==> f.esx {
      DependencyMembership(f, p);
    }
  }

  lemma RollupGroupInstalled(f: Flags)
    ensures forall p :: p in RollupGroup ==> (p in DevDependencies(f) <==> !f.node)
  {
    forall p | p in RollupGroup ensures p in DevDependencies(f) <==> !f.node {
      DependencyMembership(f, p);
    }
  }

  lemma UngapGroupInstalled(f: Flags)
    ensures forall p :: p in UngapGroup ==> (p in DevDependencies(f) <==> f.ungap)
  {
    forall p | p in UngapGroup ensures p in DevDependencies(f) <==> f.ungap {
      DependencyMembership(f, p);
    }
  }

  lemma LintGroupInstalled(f: Flags)
    ensures forall p :: p in LintGroup ==> (p in DevDependencies(f) <==> f.lint)
  {
    forall p | p in LintGroup ensures p in DevDependencies(f) <==> f.lint {
      DependencyMembership(f, p);
    }
  }
}
