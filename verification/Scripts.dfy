/** The `scripts` table of the generated `package.json` (index.js lines
    128-158): a fail-fast `build` chain grown step by step, and one entry
    per step it runs. */
module Scripts {
  import opened Fields
  import opened Features

  /** `items`, each preceded by `prefix`, joined by ` && `: a shell chain
      in which each command runs only if the previous one succeeded. */
  function Chain(prefix: string, items: seq<string>): string
  {
    if items == [] then ""
    else if |items| == 1 then prefix + items[0]
    else prefix + items[0] + " && " + Chain(prefix, items[1..])
  }

  /** Appending ` && <prefix><x>` to a chain adds `x` as its last command:
      what each `scripts.build += ' && npm run ...'` does. */
  lemma {:induction false} ChainSnoc(prefix: string, items: seq<string>, x: string)
    requires items != []
    ensures Chain(prefix, items + [x]) == Chain(prefix, items) + (" && " + prefix + x)
  {
    if |items| == 1 {
      assert (items + [x])[1..] == [x];
    } else {
      assert (items + [x])[1..] == items[1..] + [x];
      ChainSnoc(prefix, items[1..], x);
    }
  }

  /** A chain starts with its first command and ends with its last. */
  lemma {:induction false} ChainEnds(prefix: string, items: seq<string>)
    requires |items| >= 2
    ensures var c := Chain(prefix, items);
      var head := prefix + items[0];
      var tail := " && " + prefix + items[|items| - 1];
      |c| >= |head| + |tail| && c[..|head|] == head && c[|c| - |tail|..] == tail
  {
    var last := items[|items| - 1];
    var init := items[..|items| - 1];
    assert items == init + [last];
    if |items| == 2 {
      assert init == [items[0]];
    } else {
      ChainEnds(prefix, init);
      assert init[0] == items[0];
    }
    ChainSnoc(prefix, init, last);
  }

  /** The steps `npm run build` runs, in order. */
  function BuildSteps(f: Flags): seq<string>
  {
    ["cjs"] + BundleSteps(f) + When(f.noDefault && !f.node, "fix:default") + ["test"]
  }

  /** The bundling steps: none for a NodeJS-only module. */
  function BundleSteps(f: Flags): seq<string>
  {
    if f.node then [] else ["rollup:es"] + (if f.babel then ["rollup:babel", "min"] else ["rollup:index"])
  }

  function RollupEsCommand(): string
  {
    "rollup --config " + "rollup/es.config.js" + " && " + "sed -i.bck " + "'s/^var /self./' " + "es.js" + " && " + "rm -rf " + "es.js.bck"
  }
  function RollupBabelCommand(): string
  {
    "rollup --config " + "rollup/babel.config.js" + " && " + "sed -i.bck " + "'s/^var /self./' " + "index.js" + " && " + "rm -rf " + "index.js.bck"
  }
  function MinCommand(): string
  {
    "terser index.js " + "--comments='/^!/' " + "-c -m -o min.js"
  }
  function RollupIndexCommand(): string
  {
    "rollup --config " + "rollup/index.config.js"
  }
  function CoverallsCommand(): string
  {
    "c8 report " + "--reporter=text-lcov" + " | coveralls"
  }
  function LintStage(): string { "eslint esm/" }
  function CoverStage(): string { "c8 node test/index.js" }
  /** The patch that makes the bundle expose the module's default export. */
  function FixDefaultSed(): string
  {
    "sed -i " + "'s/({})/({}).default/' "
  }

  function CjsCommand(f: Flags): string
  {
    f.converter.Name() + " " + (if f.noDefault then "--no-default " else "") + "esm cjs"
  }

  /** The shell command made of `words`, separated by single spaces. */
  function Unwords(words: seq<string>): string
  {
    if words == [] then ""
    else if |words| == 1 then words[0]
    else words[0] + " " + Unwords(words[1..])
  }

  /** The words of the `cjs` command: the converter, the optional flag and
      the source and target directories. */
  function CjsArgs(f: Flags): seq<string>
  {
    [f.converter.Name()] + When(f.noDefault, "--no-default") + ["esm", "cjs"]
  }

  /** Joining the words of a `cjs` command for converter `name`. */
  lemma CjsUnwords(name: string, noDefault: bool)
    ensures Unwords([name] + When(noDefault, "--no-default") + ["esm", "cjs"]) ==
      name + " " + (if noDefault then "--no-default " else "") + "esm cjs"
  {
    assert Unwords(["esm", "cjs"]) == "esm" + " " + "cjs";
    assert "esm" + " " + "cjs" == "esm cjs";
    if noDefault {
      assert [name] + When(noDefault, "--no-default") + ["esm", "cjs"] == [name, "--no-default", "esm", "cjs"];
      assert Unwords(["--no-default", "esm", "cjs"]) == "--no-default" + " " + "esm cjs";
      assert "--no-default" + " " + "esm cjs" == "--no-default " + "esm cjs";
    } else {
      assert [name] + When(noDefault, "--no-default") + ["esm", "cjs"] == [name, "esm", "cjs"];
    }
  }

  /** The `cjs` command runs the converter from `esm` to `cjs`, passing
      `--no-default` exactly once when asked to and never otherwise. */
  lemma CjsNoDefaultOnce(f: Flags)
    ensures Unwords(CjsArgs(f)) == CjsCommand(f)
    ensures CjsArgs(f)[0] == f.converter.Name() && CjsArgs(f)[|CjsArgs(f)| - 2..] == ["esm", "cjs"]
    ensures multiset(CjsArgs(f))["--no-default"] == if f.noDefault then 1 else 0
  {
    CjsUnwords(f.converter.Name(), f.noDefault);
    assert f.converter.Name() != "--no-default";
  }

  /** The bundles `fix:default` patches, in order. */
  function FixDefaultTargets(f: Flags): seq<string>
  {
    ["index.js"] + When(!f.node, "es.js") + When(f.babel, "min.js")
  }

  /** The commands `npm test` chains: lint first, then the coverage run. */
  function TestStages(f: Flags): seq<string>
  {
    When(f.lint, LintStage()) + When(f.cover, CoverStage())
  }

  /** The script table entry for `name`, `None` where the table has none. */
  function Command(f: Flags, name: string): Option<string>
  {
    var browser := !f.node;
    match name
    case "build" => Some(Chain("npm run ", BuildSteps(f)))
    case "cjs" => Some(CjsCommand(f))
    case "rollup:es" => if browser then Some(RollupEsCommand()) else None
    case "rollup:babel" => if browser && f.babel then Some(RollupBabelCommand()) else None
    case "min" => if browser && f.babel then Some(MinCommand()) else None
    case "rollup:index" => if browser && !f.babel then Some(RollupIndexCommand()) else None
    case "fix:default" =>
      if f.noDefault && browser then Some(Chain(FixDefaultSed(), FixDefaultTargets(f))) else None
    case "coveralls" => if f.cover then Some(CoverallsCommand()) else None
    case "test" => if TestStages(f) == [] then None else Some(Chain("", TestStages(f)))
    case _ => None
  }

  /** The table's keys in insertion order, the order `package.json` lists them. */
  function ScriptNames(f: Flags): seq<string>
  {
    ["build", "cjs"] + BundleSteps(f) + When(f.noDefault && !f.node, "fix:default")
    + When(f.cover, "coveralls") + When(f.cover || f.lint, "test")
  }

  function BundleEntries(f: Flags): Entries<string>
  {
    if f.node then []
    else if f.babel then [("rollup:es", RollupEsCommand()), ("rollup:babel", RollupBabelCommand()), ("min", MinCommand())]
    else [("rollup:es", RollupEsCommand()), ("rollup:index", RollupIndexCommand())]
  }

  function FixEntry(f: Flags): Entries<string>
  {
    if f.noDefault && !f.node then [("fix:default", Chain(FixDefaultSed(), FixDefaultTargets(f)))] else []
  }

  function CoverEntry(f: Flags): Entries<string>
  {
    if f.cover then [("coveralls", CoverallsCommand())] else []
  }

  function TestEntry(f: Flags): Entries<string>
  {
    if TestStages(f) == [] then [] else [("test", Chain("", TestStages(f)))]
  }

  /** The whole table, entry by entry in insertion order. */
  function Table(f: Flags): Entries<string>
  {
    [("build", Chain("npm run ", BuildSteps(f))), ("cjs", CjsCommand(f))]
    + BundleEntries(f) + FixEntry(f) + CoverEntry(f) + TestEntry(f)
  }

  /** `scripts.k += suffix` */
  function Extend(scripts: Entries<string>, k: string, suffix: string): Entries<string>
    requires Get(scripts, k).Some?
  {
    Put(scripts, k, Get(scripts, k).value + suffix)
  }

  /** A new script lands after every entry made so far. */
  lemma Added(build: string, rest: Entries<string>, k: string, v: string)
    requires k != "build" && k !in Keys(rest)
    ensures Put([("build", build)] + rest, k, v) == [("build", build)] + (rest + [(k, v)])
    ensures Keys(rest + [(k, v)]) == Keys(rest) + [k]
  {
    assert Keys([("build", build)] + rest) == ["build"] + Keys(rest) by {
      KeysAppend([("build", build)], rest);
    }
    PutNew([("build", build)] + rest, k, v);
    KeysAppend(rest, [(k, v)]);
  }

  /** `build` is the first entry, so growing it leaves the others alone. */
  lemma Rebuilt(build: string, rest: Entries<string>, suffix: string)
    ensures Get([("build", build)] + rest, "build") == Some(build)
    ensures Extend([("build", build)] + rest, "build", suffix) == [("build", build + suffix)] + rest
  {
    assert ([("build", build)] + rest)[0] == ("build", build);
    assert ([("build", build)] + rest)[1..] == rest;
  }

  /** Reassigning the most recently created entry. */
  lemma ReplacedLast(build: string, pre: Entries<string>, k: string, x: string, y: string)
    requires k != "build" && k !in Keys(pre)
    ensures Get([("build", build)] + (pre + [(k, x)]), k) == Some(x)
    ensures Put([("build", build)] + (pre + [(k, x)]), k, y) == [("build", build)] + (pre + [(k, y)])
    ensures Keys(pre + [(k, y)]) == Keys(pre) + [k]
  {
    var front := [("build", build)] + pre;
    assert k !in Keys(front) by { KeysAppend([("build", build)], pre); }
    assert [("build", build)] + (pre + [(k, x)]) == front + [(k, x)];
    assert [("build", build)] + (pre + [(k, y)]) == front + [(k, y)];
    GetAfter(front, [(k, x)], k);
    PutAfter(front, [(k, x)], k, y);
    KeysAppend(pre, [(k, y)]);
  }

  /** `scripts[k] = v` for a property the object does not have yet: it is
      created after every other one. */
  method Create(scripts: Entries<string>, k: string, v: string, ghost build: string, ghost rest: Entries<string>)
    returns (r: Entries<string>)
    requires scripts == [("build", build)] + rest
    requires k != "build" && k !in Keys(rest)
    ensures r == [("build", build)] + (rest + [(k, v)])
    ensures Keys(rest + [(k, v)]) == Keys(rest) + [k]
  {
    Added(build, rest, k, v);
    r := Put(scripts, k, v);
  }

  /** `scripts.build += suffix`: `build` was created first and keeps its place. */
  method Grow(scripts: Entries<string>, suffix: string, ghost build: string, ghost rest: Entries<string>)
    returns (r: Entries<string>)
    requires scripts == [("build", build)] + rest
    ensures r == [("build", build + suffix)] + rest
  {
    Rebuilt(build, rest, suffix);
    r := Extend(scripts, "build", suffix);
  }

  /** `scripts[k] += suffix` on the most recently created property. */
  method GrowLast(scripts: Entries<string>, k: string, suffix: string,
    ghost build: string, ghost pre: Entries<string>, ghost x: string)
    returns (r: Entries<string>)
    requires scripts == [("build", build)] + (pre + [(k, x)])
    requires k != "build" && k !in Keys(pre)
    ensures r == [("build", build)] + (pre + [(k, x + suffix)])
  {
    ReplacedLast(build, pre, k, x, x + suffix);
    r := Extend(scripts, k, suffix);
  }

  /** Appending ` && npm run x` to `build` makes `x` its last step. */
  lemma RunNext(steps: seq<string>, x: string, suffix: string)
    requires steps != [] && suffix == " && npm run " + x
    ensures Chain("npm run ", steps + [x]) == Chain("npm run ", steps) + suffix
  {
    ChainSnoc("npm run ", steps, x);
    assert " && " + "npm run " == " && npm run ";
  }

  lemma RunNextTwo(steps: seq<string>, x: string, y: string, suffix: string)
    requires steps != [] && suffix == " && npm run " + x + " && npm run " + y
    ensures Chain("npm run ", steps + [x, y]) == Chain("npm run ", steps) + suffix
  {
    RunNext(steps, x, " && npm run " + x);
    RunNext(steps + [x], y, " && npm run " + y);
    assert steps + [x] + [y] == steps + [x, y];
  }

  /** The transpiled bundle and its minification (index.js lines 134-138). */
  method AddTranspiledBundle(scripts: Entries<string>, ghost steps: seq<string>, ghost rest: Entries<string>)
    returns (r: Entries<string>)
    requires steps != [] && scripts == [("build", Chain("npm run ", steps))] + rest
    requires Keys(rest) == ["cjs", "rollup:es"]
    ensures r == [("build", Chain("npm run ", steps + ["rollup:babel", "min"]))]
      + (rest + [("rollup:babel", RollupBabelCommand()), ("min", MinCommand())])
  {
    ghost var build := Chain("npm run ", steps);
    r := Create(scripts, "rollup:babel", RollupBabelCommand(), build, rest);
    ghost var rest1 := rest + [("rollup:babel", RollupBabelCommand())];
    r := Create(r, "min", MinCommand(), build, rest1);
    r := Grow(r, " && npm run " + "rollup:babel" + " && npm run " + "min", build, rest1 + [("min", MinCommand())]);
    RunNextTwo(steps, "rollup:babel", "min", " && npm run " + "rollup:babel" + " && npm run " + "min");
    assert rest1 + [("min", MinCommand())] == rest + [("rollup:babel", RollupBabelCommand()), ("min", MinCommand())];
  }

  /** The rollup steps (index.js lines 131-143). */
  method AddBundles(f: Flags, scripts: Entries<string>, ghost steps: seq<string>, ghost rest: Entries<string>)
    returns (r: Entries<string>)
    requires steps != [] && scripts == [("build", Chain("npm run ", steps))] + rest
    requires Keys(rest) == ["cjs"]
    ensures r == [("build", Chain("npm run ", steps + BundleSteps(f)))] + (rest + BundleEntries(f))
  {
    r := scripts;
    var rollup := !f.node;
    if rollup {
      ghost var build := Chain("npm run ", steps);
      r := Create(r, "rollup:es", RollupEsCommand(), build, rest);
      ghost var rest1 := rest + [("rollup:es", RollupEsCommand())];
      r := Grow(r, " && npm run " + "rollup:es", build, rest1);
      RunNext(steps, "rollup:es", " && npm run " + "rollup:es");
      ghost var steps1 := steps + ["rollup:es"];
      if f.babel {
        r := AddTranspiledBundle(r, steps1, rest1);
        assert steps1 + ["rollup:babel", "min"] == steps + BundleSteps(f);
        assert rest1 + [("rollup:babel", RollupBabelCommand()), ("min", MinCommand())] == rest + BundleEntries(f);
      } else {
        ghost var build1 := Chain("npm run ", steps1);
        r := Create(r, "rollup:index", RollupIndexCommand(), build1, rest1);
        r := Grow(r, " && npm run " + "rollup:index", build1, rest1 + [("rollup:index", RollupIndexCommand())]);
        RunNext(steps1, "rollup:index", " && npm run " + "rollup:index");
        assert steps1 + ["rollup:index"] == steps + BundleSteps(f);
        assert rest1 + [("rollup:index", RollupIndexCommand())] == rest + BundleEntries(f);
      }
    } else {
      assert steps + BundleSteps(f) == steps && rest + BundleEntries(f) == rest;
    }
  }

  /** The `fix:default` step (index.js lines 144-151). */
  method AddFixDefault(f: Flags, scripts: Entries<string>, ghost steps: seq<string>, ghost rest: Entries<string>)
    returns (r: Entries<string>)
    requires steps != [] && scripts == [("build", Chain("npm run ", steps))] + rest
    requires "fix:default" !in Keys(rest)
    ensures r == [("build", Chain("npm run ", steps + When(f.noDefault && !f.node, "fix:default")))] + (rest + FixEntry(f))
  {
    r := scripts;
    var rollup := !f.node;
    if f.noDefault && !f.node {
      ghost var build := Chain("npm run ", steps);
      ghost var targets := ["index.js"];
      r := Create(r, "fix:default", FixDefaultSed() + "index.js", build, rest);
      assert Chain(FixDefaultSed(), targets) == FixDefaultSed() + "index.js";
      if rollup {
        r := GrowLast(r, "fix:default", " && " + FixDefaultSed() + "es.js", build, rest, Chain(FixDefaultSed(), targets));
        ChainSnoc(FixDefaultSed(), targets, "es.js");
        targets := targets + ["es.js"];
      }
      if f.babel {
        r := GrowLast(r, "fix:default", " && " + FixDefaultSed() + "min.js", build, rest, Chain(FixDefaultSed(), targets));
        ChainSnoc(FixDefaultSed(), targets, "min.js");
        targets := targets + ["min.js"];
      }
      assert targets == FixDefaultTargets(f);
      r := Grow(r, " && npm run " + "fix:default", build, rest + FixEntry(f));
      RunNext(steps, "fix:default", " && npm run " + "fix:default");
    } else {
      assert steps + [] == steps && rest + [] == rest;
    }
  }

  /** The coverage entries (index.js lines 153-156). */
  method AddCoverage(f: Flags, scripts: Entries<string>, ghost build: string, ghost rest: Entries<string>)
    returns (r: Entries<string>)
    requires scripts == [("build", build)] + rest
    requires "coveralls" !in Keys(rest) && "test" !in Keys(rest)
    ensures f.cover ==> r == [("build", build)] + (rest + [("coveralls", CoverallsCommand()), ("test", CoverStage())])
    ensures !f.cover ==> r == scripts
  {
    r := scripts;
    if f.cover {
      r := Create(r, "coveralls", CoverallsCommand(), build, rest);
      ghost var pre := rest + [("coveralls", CoverallsCommand())];
      r := Create(r, "test", CoverStage(), build, pre);
      assert pre + [("test", CoverStage())] == rest + [("coveralls", CoverallsCommand()), ("test", CoverStage())];
    }
  }

  /** The lint stage goes in front of whatever `test` already runs (index.js
      line 158). */
  method AddLint(f: Flags, scripts: Entries<string>, ghost build: string, ghost pre: Entries<string>,
    ghost test: Option<string>)
    returns (r: Entries<string>)
    requires "test" !in Keys(pre)
    requires scripts == [("build", build)] + (pre + (if test.Some? then [("test", test.value)] else []))
    requires test.Some? ==> test.value != ""
    ensures !f.lint ==> r == scripts
    ensures f.lint ==>
      r == [("build", build)] + (pre + [("test", if test.Some? then LintStage() + " && " + test.value else LintStage())])
  {
    r := scripts;
    if f.lint {
      var current := Get(r, "test");
      if test.Some? {
        ReplacedLast(build, pre, "test", test.value, LintStage() + " && " + test.value);
      } else {
        assert pre + [] == pre;
        Added(build, pre, "test", LintStage());
        assert current.None? by { KeysAppend([("build", build)], pre); }
      }
      r := Put(r, "test", if current.Some? && current.value != "" then LintStage() + " && " + current.value else LintStage());
    }
  }

  /** The `coveralls` and `test` entries (index.js lines 153-158). */
  method AddTest(f: Flags, scripts: Entries<string>, ghost build: string, ghost rest: Entries<string>)
    returns (r: Entries<string>)
    requires scripts == [("build", build)] + rest
    requires "coveralls" !in Keys(rest) && "test" !in Keys(rest)
    ensures r == [("build", build)] + (rest + CoverEntry(f) + TestEntry(f))
  {
    r := AddCoverage(f, scripts, build, rest);
    var pre := rest + (if f.cover then [("coveralls", CoverallsCommand())] else []);
    assert "test" !in Keys(pre) by {
      KeysAppend(rest, if f.cover then [("coveralls", CoverallsCommand())] else []);
    }
    ghost var test: Option<string> := if f.cover then Some(CoverStage()) else None;
    assert f.cover ==> rest + [("coveralls", CoverallsCommand()), ("test", CoverStage())] == pre + [("test", CoverStage())];
    r := AddLint(f, r, build, pre, test);
    if f.lint && f.cover {
      assert Chain("", TestStages(f)) == LintStage() + " && " + CoverStage();
    } else if f.lint {
      assert Chain("", TestStages(f)) == LintStage();
    } else if f.cover {
      assert Chain("", TestStages(f)) == CoverStage();
    } else {
      assert pre + [] == pre;
    }
  }

  /** The bundle entries are named after the bundle steps, in order. */
  lemma BundleKeys(f: Flags)
    ensures Keys(BundleEntries(f)) == BundleSteps(f)
  {
    KeysAt(BundleEntries(f));
  }

  /** Neither `coveralls` nor `test` is created before the test phase. */
  lemma TestPhaseKeysFree(f: Flags, ks: seq<string>)
    requires ks == ["cjs"] + BundleSteps(f) + When(f.noDefault && !f.node, "fix:default")
    ensures "coveralls" !in ks && "test" !in ks
  {
  }

  lemma Regroup<T>(b: T, c: T, s1: seq<T>, s2: seq<T>, s3: seq<T>, s4: seq<T>)
    ensures [b] + (([c] + s1 + s2) + s3 + s4) == [b, c] + s1 + s2 + s3 + s4
  {
  }

  /** The entries created before the test phase, after `build`. */
  function Front(f: Flags): Entries<string>
  {
    [("cjs", CjsCommand(f))] + BundleEntries(f) + FixEntry(f)
  }

  /** Every build step up to the final `npm run test` (index.js lines 128-152). */
  method AddBuildSteps(f: Flags) returns (scripts: Entries<string>)
    ensures scripts == [("build", Chain("npm run ", BuildSteps(f)))] + Front(f)
  {
    scripts := [];
    scripts := Put(scripts, "build", "npm run cjs");
    assert Chain("npm run ", ["cjs"]) == "npm run " + "cjs" == "npm run cjs";
    scripts := Create(scripts, "cjs", f.converter.Name() + " " + (if f.noDefault then "--no-default " else "") + "esm cjs",
      "npm run cjs", []);
    ghost var cjs := [("cjs", CjsCommand(f))];
    scripts := AddBundles(f, scripts, ["cjs"], cjs);
    ghost var steps := ["cjs"] + BundleSteps(f);
    ghost var rest := cjs + BundleEntries(f);
    assert Keys(rest) == ["cjs"] + BundleSteps(f) by {
      KeysAppend(cjs, BundleEntries(f));
      BundleKeys(f);
    }
    scripts := AddFixDefault(f, scripts, steps, rest);
    steps := steps + When(f.noDefault && !f.node, "fix:default");
    scripts := Grow(scripts, " && npm run " + "test", Chain("npm run ", steps), rest + FixEntry(f));
    RunNext(steps, "test", " && npm run " + "test");
  }

  /** Builds the table as the source does: one assignment at a time,
      growing `build` as each step is added. */
  method Synthesize(f: Flags) returns (scripts: Entries<string>)
    ensures scripts == Table(f)
  {
    scripts := AddBuildSteps(f);
    assert Keys(Front(f)) == ["cjs"] + BundleSteps(f) + When(f.noDefault && !f.node, "fix:default") by {
      KeysAppend([("cjs", CjsCommand(f))], BundleEntries(f));
      KeysAppend([("cjs", CjsCommand(f))] + BundleEntries(f), FixEntry(f));
      BundleKeys(f);
    }
    TestPhaseKeysFree(f, Keys(Front(f)));
    scripts := AddTest(f, scripts, Chain("npm run ", BuildSteps(f)), Front(f));
    Regroup(("build", Chain("npm run ", BuildSteps(f))), ("cjs", CjsCommand(f)), BundleEntries(f), FixEntry(f),
      CoverEntry(f), TestEntry(f));
  }

  /** `npm run build` first converts to CommonJS and last runs the tests. */
  lemma BuildChainEnds(f: Flags)
    ensures var c := Chain("npm run ", BuildSteps(f));
      |c| >= 27 && c[..11] == "npm run cjs" && c[|c| - 16..] == " && npm run test"
  {
    ChainEnds("npm run ", BuildSteps(f));
    assert |"npm run cjs"| == 11 && |" && npm run test"| == 16;
    assert "npm run " + "cjs" == "npm run cjs";
    assert " && " + "npm run " + "test" == " && npm run test";
  }

  /** The order of the build steps. */
  lemma BuildStepOrder(f: Flags)
    ensures f.node ==> BuildSteps(f) == ["cjs", "test"]
    ensures !f.node && f.babel ==>
      (BuildSteps(f)[..4] == ["cjs", "rollup:es", "rollup:babel", "min"] && "rollup:index" !in BuildSteps(f))
    ensures !f.node && !f.babel ==>
      (BuildSteps(f)[..3] == ["cjs", "rollup:es", "rollup:index"]
       && "rollup:babel" !in BuildSteps(f) && "min" !in BuildSteps(f))
    ensures "fix:default" in BuildSteps(f) <==> f.noDefault && !f.node
  {
  }

  predicate IsBundleStep(step: string)
  {
    step == "rollup:es" || step == "rollup:babel" || step == "min" || step == "rollup:index"
  }

  /** `fix:default` patches the bundles, so it runs after all of them, and
      it runs right before the tests. */
  lemma FixDefaultAfterBundles(f: Flags)
    ensures forall i, j ::
      (0 <= i < |BuildSteps(f)| && 0 <= j < |BuildSteps(f)| &&
       BuildSteps(f)[i] == "fix:default" && IsBundleStep(BuildSteps(f)[j])) ==> j < i
    ensures forall i :: 0 <= i < |BuildSteps(f)| && BuildSteps(f)[i] == "fix:default" ==> i == |BuildSteps(f)| - 2
  {
  }

  /** The file a build step writes (index.js lines 136, 237, 276 and 312). */
  function Output(step: string): Option<string>
  {
    match step
    case "rollup:es" => Some("es.js")
    case "rollup:babel" => Some("index.js")
    case "min" => Some("min.js")
    case "rollup:index" => Some("index.js")
    case _ => None
  }

  /** Every file `fix:default` patches has been written by an earlier build
      step, and `min` minifies the `index.js` written before it. */
  lemma PatchedFilesAreBuiltFirst(f: Flags)
    ensures forall i, t :: 0 <= i < |BuildSteps(f)| && BuildSteps(f)[i] == "fix:default" && t in FixDefaultTargets(f) ==>
      exists j :: 0 <= j < i && Output(BuildSteps(f)[j]) == Some(t)
    ensures forall i :: 0 <= i < |BuildSteps(f)| && BuildSteps(f)[i] == "min" ==>
      exists j :: 0 <= j < i && Output(BuildSteps(f)[j]) == Some("index.js")
  {
    var s := BuildSteps(f);
    if !f.node {
      assert Output(s[1]) == Some("es.js");
      assert Output(s[2]) == Some("index.js");
      if f.babel {
        assert Output(s[3]) == Some("min.js");
      }
    }
  }

  /** What `fix:default` patches: `index.js` always, `es.js` when bundling,
      `min.js` when transpiling. */
  lemma FixDefaultTargetsSpec(f: Flags)
    ensures FixDefaultTargets(f)[0] == "index.js"
    ensures "es.js" in FixDefaultTargets(f) <==> !f.node
    ensures "min.js" in FixDefaultTargets(f) <==> f.babel
    ensures |FixDefaultTargets(f)| == 1 + (if f.node then 0 else 1) + (if f.babel then 1 else 0)
  {
  }

  /** Every step `build` runs, except the final `test`, has a script; the
      `test` script exists only under `--cover` or `--lint`. */
  lemma StepsHaveScripts(f: Flags)
    ensures forall i :: 0 <= i < |BuildSteps(f)| - 1 ==> Command(f, BuildSteps(f)[i]).Some?
    ensures BuildSteps(f)[|BuildSteps(f)| - 1] == "test"
    ensures Command(f, "test").Some? <==> f.cover || f.lint
  {
  }

  /** The quirk: without `--cover` and `--lint` the build chain still ends
      in `npm run test`, but no `test` script is defined. */
  lemma BuildRunsMissingTest(f: Flags)
    requires !f.cover && !f.lint
    ensures "test" in BuildSteps(f) && Command(f, "test") == None
  {
  }

  /** The `test` script: the lint stage first, joined to the coverage run. */
  lemma TestCommand(f: Flags)
    ensures f.lint && f.cover ==> Command(f, "test") == Some("eslint esm/" + " && " + "c8 node test/index.js")
    ensures f.lint && !f.cover ==> Command(f, "test") == Some("eslint esm/")
    ensures !f.lint && f.cover ==> Command(f, "test") == Some("c8 node test/index.js")
  {
    assert "" + LintStage() == LintStage() && "" + CoverStage() == CoverStage();
    if f.lint && f.cover {
      assert TestStages(f) == [LintStage(), CoverStage()];
      assert Chain("", [LintStage(), CoverStage()]) == LintStage() + " && " + CoverStage();
    } else if f.lint {
      assert TestStages(f) == [LintStage()];
    } else if f.cover {
      assert TestStages(f) == [CoverStage()];
    }
  }

  /** The keys of a table that starts with `build` and `cjs`. */
  lemma ShapeKeys(b: string, c: string, p1: Entries<string>, p2: Entries<string>, p3: Entries<string>, p4: Entries<string>)
    ensures Keys([("build", b), ("cjs", c)] + p1 + p2 + p3 + p4) ==
      ["build", "cjs"] + Keys(p1) + Keys(p2) + Keys(p3) + Keys(p4)
  {
    var e: Entries<string> := [("build", b), ("cjs", c)];
    KeysAppend(e, p1);
    KeysAppend(e + p1, p2);
    KeysAppend(e + p1 + p2, p3);
    KeysAppend(e + p1 + p2 + p3, p4);
  }

  /** Looking up a key in such a table: the first piece that has it answers. */
  lemma ShapeGet(b: string, c: string, p1: Entries<string>, p2: Entries<string>, p3: Entries<string>, p4: Entries<string>,
    k: string)
    ensures Get([("build", b), ("cjs", c)] + p1 + p2 + p3 + p4, k) ==
      if k == "build" then Some(b) else if k == "cjs" then Some(c)
      else if k in Keys(p1) then Get(p1, k) else if k in Keys(p2) then Get(p2, k)
      else if k in Keys(p3) then Get(p3, k) else Get(p4, k)
  {
    var e: Entries<string> := [("build", b), ("cjs", c)];
    GetConcat(e, p1, k);
    GetConcat(e + p1, p2, k);
    GetConcat(e + p1 + p2, p3, k);
    GetConcat(e + p1 + p2 + p3, p4, k);
    KeysAppend(e, p1);
    KeysAppend(e + p1, p2);
    KeysAppend(e + p1 + p2, p3);
  }

  lemma PieceKeys(f: Flags)
    ensures Keys(BundleEntries(f)) == BundleSteps(f)
    ensures Keys(FixEntry(f)) == When(f.noDefault && !f.node, "fix:default")
    ensures Keys(CoverEntry(f)) == When(f.cover, "coveralls")
    ensures Keys(TestEntry(f)) == When(f.cover || f.lint, "test")
  {
    BundleKeys(f);
  }

  lemma ScriptNamesDistinct(f: Flags)
    ensures Distinct(ScriptNames(f))
  {
    var fix := When(f.noDefault && !f.node, "fix:default");
    var cov := When(f.cover, "coveralls");
    var test := When(f.cover || f.lint, "test");
    DistinctAppend(["build", "cjs"], BundleSteps(f));
    DistinctWhen(["build", "cjs"] + BundleSteps(f), f.noDefault && !f.node, "fix:default");
    DistinctWhen(["build", "cjs"] + BundleSteps(f) + fix, f.cover, "coveralls");
    DistinctWhen(["build", "cjs"] + BundleSteps(f) + fix + cov, f.cover || f.lint, "test");
  }

  lemma DistinctWhen(ks: seq<string>, c: bool, x: string)
    requires Distinct(ks) && (c ==> x !in ks)
    ensures Distinct(ks + When(c, x))
  {
    if c {
      DistinctAppend(ks, [x]);
    } else {
      assert ks + When(c, x) == ks;
    }
  }

  /** The synthesised table lists `ScriptNames(f)`, each once. */
  lemma TableKeys(f: Flags)
    ensures Keys(Table(f)) == ScriptNames(f)
    ensures Distinct(ScriptNames(f))
  {
    ShapeKeys(Chain("npm run ", BuildSteps(f)), CjsCommand(f), BundleEntries(f), FixEntry(f), CoverEntry(f), TestEntry(f));
    PieceKeys(f);
    ScriptNamesDistinct(f);
  }

  lemma TableGet(f: Flags, name: string)
    ensures Get(Table(f), name) ==
      if name == "build" then Some(Chain("npm run ", BuildSteps(f)))
      else if name == "cjs" then Some(CjsCommand(f))
      else if name in BundleSteps(f) then Get(BundleEntries(f), name)
      else if name == "fix:default" && f.noDefault && !f.node then Get(FixEntry(f), name)
      else if name == "coveralls" && f.cover then Get(CoverEntry(f), name)
      else Get(TestEntry(f), name)
  {
    ShapeGet(Chain("npm run ", BuildSteps(f)), CjsCommand(f), BundleEntries(f), FixEntry(f), CoverEntry(f), TestEntry(f), name);
    PieceKeys(f);
  }

  lemma BundleGet(f: Flags, k: string)
    requires k in BundleSteps(f)
    ensures Get(BundleEntries(f), k) == Command(f, k)
  {
  }

  lemma FixGet(f: Flags)
    requires f.noDefault && !f.node
    ensures Get(FixEntry(f), "fix:default") == Command(f, "fix:default")
  {
  }

  lemma CoverGet(f: Flags)
    requires f.cover
    ensures Get(CoverEntry(f), "coveralls") == Command(f, "coveralls")
  {
  }

  lemma TestGet(f: Flags, name: string)
    requires name != "build" && name != "cjs" && name !in BundleSteps(f)
    requires !(name == "fix:default" && f.noDefault && !f.node) && !(name == "coveralls" && f.cover)
    ensures Get(TestEntry(f), name) == Command(f, name)
  {
    if name != "test" {
      assert name !in ScriptNames(f);
      UnlistedHasNoCommand(f, name);
    }
  }

  /** A name outside the table has no reference definition either. */
  lemma UnlistedHasNoCommand(f: Flags, k: string)
    requires k !in ScriptNames(f)
    ensures Command(f, k) == None
  {
  }

  /** Looking a script up in the synthesised table gives the reference
      definition of that script, and no other name is defined. */
  lemma CommandTable(f: Flags, name: string)
    ensures Get(Table(f), name) == Command(f, name)
  {
    TableGet(f, name);
    if name == "build" || name == "cjs" {
    } else if name in BundleSteps(f) {
      BundleGet(f, name);
    } else if name == "fix:default" && f.noDefault && !f.node {
      FixGet(f);
    } else if name == "coveralls" && f.cover {
      CoverGet(f);
    } else {
      TestGet(f, name);
    }
  }
}
