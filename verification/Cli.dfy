/** The command-line run (index.js lines 10-81, 109-110, 180-181, 207-208,
    334-339 and 390-396): the checks made before anything is written, the
    creation of the project directories (the root, `test`, `cjs`, `esm` and
    `rollup`), the commands spawned and the files written. */
module Cli {
  import opened Fields
  import opened Features
  import opened Argv
  import opened Dependencies
  import Scripts
  import Manifest
  import Artifacts
  import ExportedName

  /** How a run starts. */
  datatype Launch =
    | Usage                                      // `--help`: print the usage, exit 0
    | MissingName                                // no project name: complain, exit 1
    | Start(repo: string, options: seq<string>)  // scaffold `repo`

  /** Lines 12-13 and 17-41: `--help` wins over everything else; then a
      missing or empty project name stops the run. */
  function Entry(argv: seq<string>): Launch
  {
    var options := Options(argv);
    var repo := Repo(argv);
    if "--help" in options then Usage
    else if repo.None? || repo.value == "" then MissingName
    else Start(repo.value, options)
  }

  function LaunchExit(l: Launch): Option<int>
  {
    match l
    case Usage => Some(0)
    case MissingName => Some(1)
    case Start(_, _) => None
  }

  /** Asking for help never scaffolds, whatever else is on the command line. */
  lemma HelpWins(argv: seq<string>)
    requires "--help" in argv
    ensures Entry(argv) == Usage && LaunchExit(Entry(argv)) == Some(0)
  {
    OptionsMembers(argv, "--help");
  }

  /** Without `--help`, the run stops with exit code 1 exactly when every
      argument is an option or the first other argument is empty. */
  lemma MissingNameIff(argv: seq<string>)
    requires "--help" !in argv
    ensures Entry(argv) == MissingName <==>
      (forall i :: 0 <= i < |argv| ==> IsOption(argv[i])) || Repo(argv) == Some("")
    ensures Entry(argv) == MissingName ==> LaunchExit(Entry(argv)) == Some(1)
  {
    OptionsMembers(argv, "--help");
    RepoIsFirstNonOption(argv);
  }

  /** A run that starts has a non-empty project name, the first argument
      that is not an option, and every option of the command line. */
  lemma StartFacts(argv: seq<string>)
    requires Entry(argv).Start?
    ensures Entry(argv).repo != "" && !IsOption(Entry(argv).repo)
    ensures exists i ::
      (0 <= i < |argv| && argv[i] == Entry(argv).repo && forall j :: 0 <= j < i ==> IsOption(argv[j]))
    ensures forall x :: x in Entry(argv).options <==> x in argv && IsOption(x)
  {
    RepoIsFirstNonOption(argv);
    forall x ensures x in Entry(argv).options <==> x in argv && IsOption(x) {
      OptionsMembers(argv, x);
    }
  }

  /** The outcome of a step that may stop the run. */
  datatype Setup = Proceed | Halt(code: int)

  /** Lines 53-64: `mkdir` of the project root, then of `test`, `cjs` and
      `esm`, given which of them failed. An existing root stops the run
      quietly with exit code 0, a failed sub-directory with exit code 1;
      `--force` carries on past both. */
  function Directories(force: bool, rootFailed: bool, subFailed: seq<bool>): Setup
  {
    if rootFailed && !force then Halt(0)
    else if !force && true in subFailed then Halt(1)
    else Proceed
  }

  lemma DirectoriesSpec(force: bool, rootFailed: bool, subFailed: seq<bool>)
    ensures Directories(force, rootFailed, subFailed) == Proceed <==>
      force || (!rootFailed && forall i :: 0 <= i < |subFailed| ==> !subFailed[i])
    ensures force ==> Directories(force, rootFailed, subFailed) == Proceed
    ensures Directories(force, rootFailed, subFailed) == Halt(0) <==> rootFailed && !force
  {
    if true in subFailed {
      var i :| 0 <= i < |subFailed| && subFailed[i];
    }
  }

  /** The commands spawned, in order (lines 81, 82-108 and 395). */
  function Commands(f: Flags): seq<seq<string>>
  {
    [["npm", "init", "-y"], ["npm"] + InstallArgs(f), ["npm", "run", "build"]]
  }

  /** A scaffolding run: the resolved features, the commands spawned and the
      files written. */
  datatype Run = Run(flags: Flags, commands: seq<seq<string>>, files: seq<Artifacts.Artifact>)

  /** Scaffold `repo` with `options`, given the manifest `npm init -y` wrote. */
  function Bootstrap(repo: string, options: seq<string>, loaded: Entries<Json>): Run
  {
    var f := Resolve(options);
    var manifest := JObj(Manifest.Updated(loaded, f, Scripts.Table(f)));
    Run(f, Commands(f), Artifacts.Plan(f, repo, manifest))
  }

  /** The executables a generated script invokes besides `npm`, `node`, `rm`
      and `sed`, which come with the system rather than from `npm i -D`. */
  function Tools(f: Flags, script: string): seq<string>
  {
    match script
    case "cjs" => [f.converter.Name()]
    case "rollup:es" => ["rollup"]
    case "rollup:babel" => ["rollup"]
    case "min" => ["terser"]
    case "rollup:index" => ["rollup"]
    case "coveralls" => ["c8", "coveralls"]
    case "test" => When(f.lint, "eslint") + When(f.cover, "c8")
    case _ => []
  }

  lemma ScriptNameMembers(f: Flags, name: string)
    requires name in Scripts.ScriptNames(f)
    ensures name in ["rollup:es", "rollup:babel", "min", "rollup:index"] ==> !f.node
    ensures name in ["rollup:babel", "min"] ==> f.babel
    ensures name == "coveralls" ==> f.cover
  {
  }

  /** `npm i -D` installed every tool a generated script calls, for every
      command line. */
  lemma ToolsInstalled(options: seq<string>)
    ensures var f := Resolve(options);
      forall name, t :: name in Scripts.ScriptNames(f) && t in Tools(f, name) ==> t in DevDependencies(f)
  {
    var f := Resolve(options);
    forall name, t | name in Scripts.ScriptNames(f) && t in Tools(f, name) ensures t in DevDependencies(f) {
      ScriptNameMembers(f, name);
      DependencyMembership(f, t);
    }
  }

  /** `npm init -y` comes first, the install holds the converter first, and
      the run ends with the build. No argument handed to `npm` for the
      install repeats, and each package it names is in the catalogue. */
  lemma CommandsFacts(f: Flags)
    ensures Commands(f)[0] == ["npm", "init", "-y"]
    ensures Commands(f)[1][..3] == ["npm", "i", "-D"]
    ensures Commands(f)[1][3] == f.converter.Name()
    ensures Commands(f)[1][3..] == DevDependencies(f)
    ensures Commands(f)[2] == ["npm", "run", "build"]
    ensures Distinct(Commands(f)[1][1..])
    ensures forall p :: p in Commands(f)[1][3..] ==> p in Catalog
  {
    ConverterFirst(f);
    InstallArgsDistinct(f);
    assert (["npm"] + InstallArgs(f))[1..] == InstallArgs(f);
    assert InstallArgs(f)[2..] == DevDependencies(f);
  }

  /** A run writes every file once, in the order of `Artifacts.Layout`. */
  lemma BootstrapFiles(repo: string, options: seq<string>, loaded: Entries<Json>)
    ensures var r := Bootstrap(repo, options, loaded);
      Artifacts.Paths(r.files) == Artifacts.Layout(r.flags) && Distinct(Artifacts.Paths(r.files))
  {
    var f := Resolve(options);
    var manifest := JObj(Manifest.Updated(loaded, f, Scripts.Table(f)));
    Artifacts.PlanPaths(f, repo, manifest);
    Artifacts.PathsDistinct(f, repo, manifest);
  }

  /** Lines 207-208: the outcome of `mkdir rollup`, made for a browser module
      only. Without `--force` a failure exits with code 1 inside its
      callback. */
  function RollupExit(f: Flags, rollupFailed: bool): Option<int>
  {
    if !f.node && rollupFailed && !f.force then Some(1) else None
  }

  /** The files a run writes, given whether `mkdir rollup` failed: the two
      rollup configurations are written only from that callback, so an exit
      there drops them; every write issued before it, `finalize()` included,
      stays issued (the exit does not wait for those writes to finish). */
  function Written(f: Flags, repo: string, manifest: Json, rollupFailed: bool): seq<Artifacts.Artifact>
  {
    var plan := Artifacts.Plan(f, repo, manifest);
    Artifacts.PlanPaths(f, repo, manifest);
    if RollupExit(f, rollupFailed).Some? then plan[..|plan| - 2] else plan
  }

  /** A failed `mkdir rollup` stops the run with exit code 1 exactly for a
      browser module without `--force`; the writes issued are then those of the
      plan without the rollup configurations. */
  lemma RollupFailure(f: Flags, repo: string, manifest: Json, rollupFailed: bool)
    ensures RollupExit(f, rollupFailed) == Some(1) <==> !f.node && rollupFailed && !f.force
    ensures RollupExit(f, rollupFailed) == None <==> f.node || !rollupFailed || f.force
    ensures Artifacts.Paths(Written(f, repo, manifest, rollupFailed)) ==
      Artifacts.FrontPaths(f) + Artifacts.FinalPaths
      + (if RollupExit(f, rollupFailed).Some? then [] else Artifacts.BundlePaths(f))
  {
    var plan := Artifacts.Plan(f, repo, manifest);
    Artifacts.PlanPaths(f, repo, manifest);
    if RollupExit(f, rollupFailed).Some? {
      var front := Artifacts.FrontPaths(f) + Artifacts.FinalPaths;
      assert Artifacts.Layout(f) == front + Artifacts.BundlePaths(f);
      assert |Artifacts.BundlePaths(f)| == 2;
      assert Artifacts.Paths(plan[..|plan| - 2]) == Artifacts.Paths(plan)[..|plan| - 2];
      assert (front + Artifacts.BundlePaths(f))[..|front|] == front;
    }
  }
}
