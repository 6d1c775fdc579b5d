/** The files the scaffolder writes into the new project (index.js lines
    173-177, 180-321 and 341-390), in the order the writes are issued. The
    fixed texts are kept as their lines; the rollup configurations are kept
    as what they import, which plugins they run and where they write. */
module Artifacts {
  import opened Fields
  import opened Features
  import opened Dependencies
  import Scripts
  import Manifest
  import Eslint
  import ExportedName

  /** A plugin call in a generated rollup configuration. */
  datatype Plugin =
    | IncludePaths
      /** `includePaths({include: {}})`, resolving the `@ungap` polyfills */
    | NodeResolve
    | Babel(esx: bool, presetEnv: bool)
      /** `babel({...})`: with the ESX transform (polyfilled by an import of
          `@ungap/esxtoken`) and/or `@babel/preset-env` */
    | Terser

  /** A rollup configuration file under `rollup/`: the modules it imports, in order, the
      plugins it runs, in order, whether it sets `context` and
      `moduleContext` to `'null'`, and the IIFE bundle it writes: input,
      output file and global name. */
  datatype Rollup = Rollup(
    imports: seq<string>,
    plugins: seq<Plugin>,
    nullContext: bool,
    input: string,
    output: string,
    name: string)

  datatype Content =
    | JsonText(value: Json)                                  // JSON.stringify(value, null, ' ')
    | Harness(title: string, local: string, remote: string)  // test/index.html
    | Bundler(config: Rollup)                                // a file under rollup/
    | Lines(lines: seq<string>)                              // lines.join('\n')
    | Text(text: string)

  datatype Artifact = Artifact(path: string, content: Content)

  const NodeResolvePackage := "@rollup/plugin-node-resolve"
  const BabelPackage := "@rollup/plugin-babel"
  const IncludePathsPackage := "rollup-plugin-includepaths"

  /** The polyfill plugin and its import, present only with `--ungap`. */
  function PolyfillImport(f: Flags): seq<string>
  {
    When(f.ungap, IncludePathsPackage)
  }

  function PolyfillPlugin(f: Flags): seq<Plugin>
  {
    if f.ungap then [IncludePaths] else []
  }

  /** The ESX transform, run by the bundlers other than the Babel one. */
  function EsxPlugin(f: Flags): seq<Plugin>
  {
    if f.esx then [Babel(true, false)] else []
  }

  /** `rollup/es.config.js` (lines 211-241): the minified IIFE `es.js`. */
  function EsConfig(f: Flags, name: string): Rollup
  {
    Rollup(
      [NodeResolvePackage, "@rollup/plugin-terser"] + When(f.esx, BabelPackage) + PolyfillImport(f),
      PolyfillPlugin(f) + [NodeResolve] + EsxPlugin(f) + [Terser],
      f.ungap, Manifest.EsmEntry, "./es.js", name)
  }

  /** `rollup/babel.config.js` (lines 248-280): the transpiled `index.js`. */
  function BabelConfig(f: Flags, name: string): Rollup
  {
    Rollup(
      [NodeResolvePackage, BabelPackage] + PolyfillImport(f),
      PolyfillPlugin(f) + [NodeResolve, Babel(f.esx, true)],
      f.ungap, Manifest.EsmEntry, "./index.js", name)
  }

  /** `rollup/index.config.js` (lines 288-316): the untranspiled `index.js`. */
  function IndexConfig(f: Flags, name: string): Rollup
  {
    Rollup(
      [NodeResolvePackage] + When(f.esx, BabelPackage) + PolyfillImport(f),
      PolyfillPlugin(f) + [NodeResolve] + EsxPlugin(f),
      f.ungap, Manifest.EsmEntry, "./index.js", name)
  }

  /** The configurations written in the callback of `mkdir rollup`: the ES
      bundle, then the Babel or the plain `index.js` bundle. */
  function Bundles(f: Flags, name: string): seq<Artifact>
  {
    [Artifact("rollup/es.config.js", Bundler(EsConfig(f, name))),
     if f.babel then Artifact("rollup/babel.config.js", Bundler(BabelConfig(f, name)))
     else Artifact("rollup/index.config.js", Bundler(IndexConfig(f, name)))]
  }

  /** The browser harness (lines 183-206): titled with the project name, it
      imports the local build on a loopback host and the unpkg build elsewhere. */
  function HarnessPage(repo: string): Artifact
  {
    Artifact("test/index.html", Harness(repo, "../esm/index.js", "https://unpkg.com/" + repo + "?module"))
  }

  const GitIgnore: seq<string> := [".DS_Store", ".nyc_output", "coverage/", "node_modules/", ""]

  const NpmIgnore: seq<string> := [
    ".DS_Store", ".nyc_output", ".eslintrc.json", ".github/", ".travis.yml",
    "coverage/", "node_modules/", "rollup/", "test/", ""]

  /** `finalize()` (lines 341-390). */
  function Finalized(): seq<Artifact>
  {
    [Artifact(".npmrc", Lines(["package-lock=false", ""])),
     Artifact(".gitignore", Lines(GitIgnore)),
     Artifact(".npmignore", Lines(NpmIgnore)),
     Artifact("test/package.json", Text("{\"type\":\"commonjs\"}")),
     Artifact("test/index.js", Text("require('../cjs');")),
     Artifact("esm/index.js", Text("export default () => {};\n"))]
  }

  function EslintFile(node: bool): Artifact
  {
    Artifact(".eslintrc.json", JsonText(Eslint.Config(node)))
  }

  /** Every file written for project `repo` with features `f`, in the order
      the writes are issued; `manifest` is the edited `package.json`. */
  function Plan(f: Flags, repo: string, manifest: Json): seq<Artifact>
  {
    (if f.lint then [EslintFile(f.node)] else [])
    + [Artifact("package.json", JsonText(manifest))]
    + (if f.node then [] else [HarnessPage(repo)])
    + Finalized()
    + (if f.node then [] else Bundles(f, ExportedName.CamelCase(repo)))
  }

  /** The path of each file, in order. */
  function Paths(files: seq<Artifact>): (ps: seq<string>)
    ensures |ps| == |files| && forall i :: 0 <= i < |files| ==> ps[i] == files[i].path
  {
    seq(|files|, i requires 0 <= i < |files| => files[i].path)
  }

  lemma ShapePaths(a: seq<Artifact>, m: Artifact, h: seq<Artifact>, fin: seq<Artifact>, b: seq<Artifact>)
    ensures Paths(a + [m] + h + fin + b) == Paths(a) + [m.path] + Paths(h) + Paths(fin) + Paths(b)
  {
  }

  const FinalPaths: seq<string> :=
    [".npmrc", ".gitignore", ".npmignore", "test/package.json", "test/index.js", "esm/index.js"]

  /** The files written before `finalize()`. */
  function FrontPaths(f: Flags): seq<string>
  {
    When(f.lint, ".eslintrc.json") + ["package.json"] + When(!f.node, "test/index.html")
  }

  /** The rollup configurations. */
  function BundlePaths(f: Flags): seq<string>
  {
    if f.node then []
    else ["rollup/es.config.js", if f.babel then "rollup/babel.config.js" else "rollup/index.config.js"]
  }

  /** The paths written, in order. */
  function Layout(f: Flags): seq<string>
  {
    FrontPaths(f) + FinalPaths + BundlePaths(f)
  }

  /** The files in the order their writes are issued. */
  lemma PlanPaths(f: Flags, repo: string, manifest: Json)
    ensures Paths(Plan(f, repo, manifest)) == Layout(f)
  {
    var lint := if f.lint then [EslintFile(f.node)] else [];
    var harness := if f.node then [] else [HarnessPage(repo)];
    var bundles := if f.node then [] else Bundles(f, ExportedName.CamelCase(repo));
    ShapePaths(lint, Artifact("package.json", JsonText(manifest)), harness, Finalized(), bundles);
    assert Paths(lint) + ["package.json"] + Paths(harness) == FrontPaths(f);
    assert Paths(Finalized()) == FinalPaths;
    assert Paths(bundles) == BundlePaths(f);
  }

  lemma LayoutDistinct(f: Flags)
    ensures Distinct(Layout(f))
  {
    assert Distinct(FrontPaths(f));
    assert Distinct(FinalPaths);
    DistinctAppend(FrontPaths(f), FinalPaths);
    assert Distinct(BundlePaths(f));
    DistinctAppend(FrontPaths(f) + FinalPaths, BundlePaths(f));
  }

  /** No file is written twice. */
  lemma PathsDistinct(f: Flags, repo: string, manifest: Json)
    ensures Distinct(Paths(Plan(f, repo, manifest)))
  {
    PlanPaths(f, repo, manifest);
    LayoutDistinct(f);
  }

  lemma FrontMembers(f: Flags, p: string)
    ensures p in FrontPaths(f) <==>
      (p == ".eslintrc.json" && f.lint) || p == "package.json" || (p == "test/index.html" && !f.node)
  {
  }

  lemma BundleMembers(f: Flags, p: string)
    ensures p in BundlePaths(f) <==>
      || (p == "rollup/es.config.js" && !f.node)
      || (p == "rollup/babel.config.js" && !f.node && f.babel)
      || (p == "rollup/index.config.js" && !f.node && !f.babel)
  {
  }

  /** What every project gets: the manifest and the six files of `finalize()`. */
  lemma FixedFiles(f: Flags, repo: string, manifest: Json)
    ensures "package.json" in Paths(Plan(f, repo, manifest))
    ensures forall p :: p in FinalPaths ==> p in Paths(Plan(f, repo, manifest))
  {
    PlanPaths(f, repo, manifest);
    FrontMembers(f, "package.json");
  }

  /** The linter configuration comes with `--lint`, the browser harness with
      a browser module. */
  lemma OptionalFiles(f: Flags, repo: string, manifest: Json)
    ensures ".eslintrc.json" in Paths(Plan(f, repo, manifest)) <==> f.lint
    ensures "test/index.html" in Paths(Plan(f, repo, manifest)) <==> !f.node
  {
    PlanPaths(f, repo, manifest);
    FrontMembers(f, ".eslintrc.json");
    FrontMembers(f, "test/index.html");
    BundleMembers(f, ".eslintrc.json");
    BundleMembers(f, "test/index.html");
  }

  /** A browser module gets the ES bundler and exactly one of the Babel and
      the plain `index.js` bundlers; a NodeJS module gets none. */
  lemma BundlerFiles(f: Flags, repo: string, manifest: Json)
    ensures "rollup/es.config.js" in Paths(Plan(f, repo, manifest)) <==> !f.node
    ensures "rollup/babel.config.js" in Paths(Plan(f, repo, manifest)) <==> !f.node && f.babel
    ensures "rollup/index.config.js" in Paths(Plan(f, repo, manifest)) <==> !f.node && !f.babel
  {
    PlanPaths(f, repo, manifest);
    FrontMembers(f, "rollup/es.config.js");
    FrontMembers(f, "rollup/babel.config.js");
    FrontMembers(f, "rollup/index.config.js");
    BundleMembers(f, "rollup/es.config.js");
    BundleMembers(f, "rollup/babel.config.js");
    BundleMembers(f, "rollup/index.config.js");
  }

  /** The packages a configuration needs at build time: what it imports,
      plus what its Babel step loads. */
  function Needs(c: Rollup): seq<string>
  {
    c.imports + PluginNeeds(c.plugins)
  }

  function PluginNeeds(ps: seq<Plugin>): seq<string>
  {
    if ps == [] then []
    else
      (match ps[0]
       case Babel(esx, presetEnv) =>
         ["@babel/core"] + (if esx then EsxGroup else []) + When(presetEnv, "@babel/preset-env")
       case _ => [])
      + PluginNeeds(ps[1..])
  }

  lemma {:induction false} PluginNeedsAppend(a: seq<Plugin>, b: seq<Plugin>)
    ensures PluginNeeds(a + b) == PluginNeeds(a) + PluginNeeds(b)
  {
    if a == [] {
      assert a + b == b;
    } else {
      assert (a + b)[0] == a[0] && (a + b)[1..] == a[1..] + b;
      PluginNeedsAppend(a[1..], b);
    }
  }

  lemma NeedsEs(f: Flags, name: string)
    ensures Needs(EsConfig(f, name)) ==
      [NodeResolvePackage, "@rollup/plugin-terser"] + When(f.esx, BabelPackage) + PolyfillImport(f)
      + (if f.esx then ["@babel/core"] + EsxGroup else [])
  {
    PluginNeedsAppend(PolyfillPlugin(f), [NodeResolve]);
    PluginNeedsAppend(PolyfillPlugin(f) + [NodeResolve], EsxPlugin(f));
    PluginNeedsAppend(PolyfillPlugin(f) + [NodeResolve] + EsxPlugin(f), [Terser]);
  }

  lemma NeedsBabel(f: Flags, name: string)
    ensures Needs(BabelConfig(f, name)) ==
      [NodeResolvePackage, BabelPackage] + PolyfillImport(f)
      + (["@babel/core"] + (if f.esx then EsxGroup else []) + ["@babel/preset-env"])
  {
    PluginNeedsAppend(PolyfillPlugin(f), [NodeResolve, Babel(f.esx, true)]);
    assert [NodeResolve, Babel(f.esx, true)] == [NodeResolve] + [Babel(f.esx, true)];
    PluginNeedsAppend([NodeResolve], [Babel(f.esx, true)]);
    assert PluginNeeds([Babel(f.esx, true)]) ==
      ["@babel/core"] + (if f.esx then EsxGroup else []) + ["@babel/preset-env"] + PluginNeeds([]);
  }

  lemma NeedsIndex(f: Flags, name: string)
    ensures Needs(IndexConfig(f, name)) ==
      [NodeResolvePackage] + When(f.esx, BabelPackage) + PolyfillImport(f)
      + (if f.esx then ["@babel/core"] + EsxGroup else [])
  {
    PluginNeedsAppend(PolyfillPlugin(f), [NodeResolve]);
    PluginNeedsAppend(PolyfillPlugin(f) + [NodeResolve], EsxPlugin(f));
  }

  /** Every package a written rollup configuration needs was installed by
      `npm i -D`, for every combination of options. */
  lemma BundlersNeedOnlyInstalled(options: seq<string>, name: string)
    ensures var f := Resolve(options);
      forall a, p :: a in (if f.node then [] else Bundles(f, name)) && a.content.Bundler? && p in Needs(a.content.config) ==>
        p in DevDependencies(f)
  {
    ResolveIsCanonical(options);
    CanonicalBundlersInstalled(Resolve(options), name);
  }

  /** The same for any feature set the options can produce. */
  lemma CanonicalBundlersInstalled(f: Flags, name: string)
    requires Canonical(f)
    ensures forall a, p :: a in (if f.node then [] else Bundles(f, name)) && a.content.Bundler? && p in Needs(a.content.config) ==>
      p in DevDependencies(f)
  {
    if !f.node {
      EsInstalled(f, name);
      if f.babel {
        BabelInstalled(f, name);
      } else {
        IndexInstalled(f, name);
      }
    }
  }

  lemma EsInstalled(f: Flags, name: string)
    requires Canonical(f) && !f.node
    ensures forall p :: p in Needs(EsConfig(f, name)) ==> p in DevDependencies(f)
  {
    NeedsEs(f, name);
    BabelGroupInstalled(f);
    EsxGroupInstalled(f);
    RollupGroupInstalled(f);
    UngapGroupInstalled(f);
  }

  lemma BabelInstalled(f: Flags, name: string)
    requires Canonical(f) && !f.node && f.babel
    ensures forall p :: p in Needs(BabelConfig(f, name)) ==> p in DevDependencies(f)
  {
    NeedsBabel(f, name);
    BabelGroupInstalled(f);
    EsxGroupInstalled(f);
    RollupGroupInstalled(f);
    UngapGroupInstalled(f);
  }

  lemma IndexInstalled(f: Flags, name: string)
    requires Canonical(f) && !f.node && !f.babel
    ensures forall p :: p in Needs(IndexConfig(f, name)) ==> p in DevDependencies(f)
  {
    NeedsIndex(f, name);
    RollupGroupInstalled(f);
    UngapGroupInstalled(f);
  }

  /** `--esx` implies Babel, so the ESX branch of `rollup/index.config.js`
      is never written: the plain bundler never transpiles. */
  lemma IndexConfigNeverTranspiles(options: seq<string>, name: string)
    ensures var f := Resolve(options);
      forall a :: a in (if f.node then [] else Bundles(f, name)) && a.path == "rollup/index.config.js" ==>
        a.content == Bundler(Rollup([NodeResolvePackage] + PolyfillImport(f), PolyfillPlugin(f) + [NodeResolve],
          f.ungap, "./esm/index.js", "./index.js", name))
  {
  }

  /** Every bundler reads the ESM entry the manifest's `module` names,
      exports under the camel-cased project name, and writes the file the
      script that runs it expects; with `--ungap` the polyfill resolver runs
      first and the top-level `this` is `null`. */
  lemma BundlersAgree(f: Flags, name: string)
    ensures forall a :: a in Bundles(f, name) ==>
      (&& a.content.Bundler?
       && a.content.config.input == Manifest.EsmEntry
       && a.content.config.name == name
       && a.content.config.nullContext == f.ungap
       && (f.ungap <==> a.content.config.plugins[0] == IncludePaths))
    ensures Bundles(f, name)[0].content.config.output == "./" + Scripts.Output("rollup:es").value
    ensures Bundles(f, name)[1].content.config.output ==
      "./" + Scripts.Output(if f.babel then "rollup:babel" else "rollup:index").value
  {
  }

  /** The harness page loads the project's own module: the local ESM entry
      on a loopback host, the unpkg build of the same name elsewhere. */
  lemma HarnessTargets(repo: string)
    ensures HarnessPage(repo).content.title == repo
    ensures HarnessPage(repo).content.remote[..18] == "https://unpkg.com/"
    ensures HarnessPage(repo).content.remote[18..18 + |repo|] == repo
    ensures HarnessPage(repo).content.remote == "https://unpkg.com/" + repo + "?module"
    ensures HarnessPage(repo).content.local == "../esm/index.js"
  {
  }
}
