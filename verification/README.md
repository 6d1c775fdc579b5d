# modulestrap, modelled in Dafny

`modulestrap` is a command-line scaffolder. `modulestrap [options] project-name`
creates a directory for a dual ECMAScript/CommonJS module and initialises it:

- it runs `npm init -y`, then installs a list of development dependencies
  chosen by the options;
- it rewrites the generated `package.json`, adding entry points, `exports`,
  `unpkg` and a `scripts` table whose `build` script is a fail-fast
  `npm run a && npm run b && ...` chain;
- it writes the linter configuration, a browser test page, the rollup bundler
  configurations and a handful of fixed files;
- finally it runs `npm run build`.

The whole program is one script, `index.js`. This project models its
decision layer: everything it decides, as functions of the command line,
the project name and the `package.json` that `npm init` wrote. The
filesystem, the child processes and the callbacks are not part of the
model.

The modules follow the pieces of the script:

| module | index.js | what it holds |
|---|---|---|
| `Fields` | (JavaScript semantics) | JSON values and insertion-ordered objects: property assignment, `delete`, and a run of assignments |
| `Argv` | 12-13 | the split of the command line into options and the project name |
| `Features` | 46-51, 66-69 | the feature booleans the options resolve to |
| `Dependencies` | 82-108 | the `npm i -D` package list |
| `Scripts` | 128-158 | the `scripts` table and its `build` chain, built by methods that assign one property at a time |
| `Manifest` | 113-127, 179 | the edits to `package.json`, as a class whose methods change the loaded object in place |
| `Eslint` | 159-172 | the `.eslintrc.json` object and the method that switches one environment on |
| `ExportedName` | 43 | the camel-cased global name a browser bundle is exported under |
| `Artifacts` | 173-390 | every file written, in the order the writes are issued; the rollup configurations as imports, plugins and output |
| `Cli` | 10-81, 207-208, 395 | how a run starts or stops, the directory checks, the commands spawned, and one whole run |

JavaScript objects are modelled as sequences of key/value pairs. Property
assignment replaces a value in place or appends a new key, and `delete`
removes the key. That way the key order `JSON.stringify` writes is part of
the model.

Every `scripts` table is built by `Scripts.Synthesize` in the order of the
source's statements. It is proved equal to `Scripts.Table`, a definition
made of independent per-step pieces. `Scripts.Command` is a third
definition, which gives each script by name. `Manifest.Package.Update` makes
the assignments of lines 114-127 and 179 one at a time. It is proved to
produce `Manifest.Updated`, about which the per-key lemmas are stated.

Quirks of `index.js` that the model keeps:

- `--node` does not switch `--esx` off. `--node --esx` still sets `babel` and
  installs the Babel toolchain (lines 68, 83-88), though no step of a
  `--node` build uses it.
- The ESX packages (`@ungap/esxtoken`, `@ungap/babel-plugin-transform-esx`)
  are installed exactly when `--esx` is given (lines 93-96).
- `.npmignore` is always the same fixed list (lines 361-376).
- Without `--cover` and `--lint` there is no `test` script, yet `build` still
  ends in `npm run test` (lines 152-158).
- An empty project name counts as a missing one: `!repo` is true for `""`
  (line 38).
- An existing project directory without `--force` ends the run with exit
  code 0, not 1 (lines 54-56).
- The ESX branch of `rollup/index.config.js` (line 303) can never be
  written. `--esx` forces Babel, so `rollup/babel.config.js` is written
  instead.

## Model

| member | source | states |
|---|---|---|
| Fields.PutSpec | index.js:115-118 | assigning `k` makes it read `v`, leaves every other key as it was, and appends `k` only when it was absent |
| Fields.RemoveSpec | index.js:114 | after `delete`, `k` reads as absent, every other key is unchanged, and the key order loses only `k` |
| Fields.PutAllKeys | index.js:115-127 | a run of assignments keeps the old keys in place and appends each new key in the order first assigned |
| Fields.PutAllGet | index.js:115-127 | after a run of assignments to distinct keys, an assigned key holds its assigned value and any other key keeps its old value |
| Argv.SelectAppend | index.js:12-13 | filtering distributes over concatenation, so the kept arguments keep their relative order |
| Argv.SelectSingle | index.js:12-13 | a single argument is kept exactly when its dash test matches the side selected |
| Argv.OptionsMembers | index.js:12 | the options are exactly the arguments that start with `-` |
| Argv.SplitIsPartition | index.js:12-13 | the options and the non-options together hold every argument, each exactly as often as in argv |
| Argv.RepoIsFirstNonOption | index.js:13 | the project name is the first argument not starting with `-`, and it is absent exactly when every argument is an option |
| Features.Resolve | index.js:46-69 | the converter is `ucjs` iff `--ucjs`; `esx`, `force`, `lint` and `cover` each iff their own option; `noDefault` iff `--no-default` or `--no-interop`; `node` iff `--node` or `--nodejs`; `babel` iff `esx` or (not `node` and `--babel`); `ungap` iff not `node` and `--ungap` |
| Features.ResolveIsCanonical | index.js:66-69 | every resolved set satisfies: ESX implies Babel, `node` excludes `ungap`, and `node` with Babel implies ESX |
| Features.ResolveRequest | index.js:46-69 | every set of features with those three properties is requested by some option list, so they describe exactly what resolution can produce |
| Features.ResolveIdempotent | index.js:46-69 | resolving the option list that requests a resolved set gives the same set back |
| Features.NodeSuppressesBrowserToolchain | index.js:68-69 | `node` without `esx` means neither `babel` nor `ungap`, and `--esx` forces `babel` even with `--node` |
| Features.ResolveSeesOnlyRecognized | index.js:46-69 | two option lists holding the same recognised options resolve alike, whatever their order, repeats or unknown options |
| Dependencies.InstallArgsDistinct | index.js:82-108 | no argument of `npm i -D` repeats, and every package it installs is one of the catalogue |
| Dependencies.DependenciesFollowCatalog | index.js:82-108 | the list is a subsequence of the full catalogue, so the groups keep the source's order, and no package is listed twice |
| Dependencies.DependencyMembership | index.js:82-108 | a package is installed exactly when it is the converter or belongs to a group whose flag is on |
| Dependencies.ConverterFirst | index.js:46 | the first package is `ucjs` under `--ucjs` and `ascjs` otherwise, and the other converter is not installed |
| Dependencies.BabelGroupInstalled | index.js:83-88 | each Babel package is installed iff `babel` |
| Dependencies.CoverGroupInstalled | index.js:89-92 | `coveralls` and `c8` are installed iff `cover` |
| Dependencies.EsxGroupInstalled | index.js:93-96 | the ESX packages are installed iff `esx` |
| Dependencies.RollupGroupInstalled | index.js:97-101 | the rollup trio is installed iff not `node` |
| Dependencies.UngapGroupInstalled | index.js:102-105 | `rollup-plugin-includepaths` and `@ungap/degap` are installed iff `ungap` |
| Dependencies.LintGroupInstalled | index.js:106-108 | `eslint` is installed iff `lint` |
| Scripts.ChainSnoc | index.js:133 | appending ` && npm run x` to a chain makes `x` its new last command |
| Scripts.ChainEnds | index.js:129-152 | a chain of two or more commands starts with its first command and ends with its last |
| Scripts.Create | index.js:132 | assigning a script not yet in the table appends it after every existing entry |
| Scripts.Grow | index.js:133 | `build += suffix` changes only the value of `build`, which stays the first entry |
| Scripts.GrowLast | index.js:147 | extending the most recently created script changes only its value |
| Scripts.RunNext | index.js:133 | adding ` && npm run x` to `build` is the chain of the old steps followed by `x` |
| Scripts.RunNextTwo | index.js:137 | adding ` && npm run rollup:babel && npm run min` appends both steps, in that order |
| Scripts.AddTranspiledBundle | index.js:134-138 | the table gains `rollup:babel` then `min`, and `build` gains both steps |
| Scripts.AddBundles | index.js:131-143 | a browser module gains `rollup:es`, then `rollup:babel` and `min` under Babel or else `rollup:index`, as entries and as `build` steps; a NodeJS module gains nothing |
| Scripts.AddFixDefault | index.js:144-151 | under `noDefault` for a browser module, `fix:default` is created, patching `index.js`, then `es.js`, then `min.js` under Babel, and is appended to `build` |
| Scripts.AddCoverage | index.js:153-156 | under `cover`, the table gains `coveralls` and then `test` running `c8 node test/index.js`, and nothing else changes |
| Scripts.AddLint | index.js:157-158 | under `lint`, `test` becomes `eslint esm/`, prefixed with `&&` to any existing test command, which keeps its place |
| Scripts.AddTest | index.js:153-158 | the test phase appends the coverage and test entries of the reference table |
| Scripts.AddBuildSteps | index.js:128-152 | the statements up to the final `npm run test` produce `build` as the chain of all steps, then `cjs`, the bundle entries and `fix:default` |
| Scripts.Synthesize | index.js:128-158 | the table built statement by statement equals the reference table `Table` |
| Scripts.CjsNoDefaultOnce | index.js:130 | the `cjs` command is the converter followed by `esm cjs`, with `--no-default` among its words exactly once when `noDefault` holds and never otherwise |
| Scripts.BuildChainEnds | index.js:129-152 | `build` always starts with `npm run cjs` and ends with `npm run test` |
| Scripts.BuildStepOrder | index.js:129-152 | with `node` the steps are exactly `cjs, test`; otherwise `rollup:es` comes next, then `rollup:babel, min` under Babel (never `rollup:index`) or else `rollup:index` (never the other two); `fix:default` is a step iff `noDefault` and not `node` |
| Scripts.FixDefaultAfterBundles | index.js:144-152 | `fix:default` runs after every bundling step and immediately before `test` |
| Scripts.PatchedFilesAreBuiltFirst | index.js:132-149 | every file `fix:default` patches was written by an earlier step, and `min` runs after a step that wrote `index.js` |
| Scripts.FixDefaultTargetsSpec | index.js:145-149 | `fix:default` patches `index.js` first, `es.js` iff not `node`, and `min.js` iff Babel |
| Scripts.StepsHaveScripts | index.js:128-158 | every step of `build` except the last has a script; the last step is `test`, which has a script iff `cover` or `lint` |
| Scripts.BuildRunsMissingTest | index.js:152-158 | without `cover` and `lint`, `build` runs `npm run test` although no `test` script exists |
| Scripts.TestCommand | index.js:153-158 | `test` is `eslint esm/ && c8 node test/index.js` with both options, `eslint esm/` with lint alone, and `c8 node test/index.js` with cover alone |
| Scripts.TableKeys | index.js:128-158 | the table's keys in insertion order are the script names, each exactly once |
| Scripts.UnlistedHasNoCommand | index.js:128-158 | a name outside the script names has no command |
| Scripts.CommandTable | index.js:128-158 | looking any name up in the built table gives exactly the per-name command definition |
| Manifest.ScriptsJson | index.js:179 | the written `scripts` object has the table's keys in the table's order, and each reads as its command string |
| Manifest.AssignmentsDistinct | index.js:115-127 | no property is assigned twice |
| Manifest.UpdatedGet | index.js:114-127 | an assigned property reads as assigned, `directories` is absent, and every other property reads as `npm init` wrote it |
| Manifest.UpdatedDropsDirectories | index.js:114 | `directories` is gone |
| Manifest.UpdatedVersion | index.js:115 | `version` is `0.0.0` |
| Manifest.UpdatedEntryPoints | index.js:116-118 | `module` is `./esm/index.js`, `main` is `./cjs/index.js` and `type` is `module` |
| Manifest.UpdatedExports | index.js:119-125 | `exports` maps `.` to `import` → ESM build, `default` → CommonJS build, and exposes `./package.json` |
| Manifest.UpdatedUnpkg | index.js:126-127 | a browser module's `unpkg` is `min.js` under Babel and `es.js` otherwise; a NodeJS module's `unpkg` is whatever `npm init` wrote |
| Manifest.UpdatedScripts | index.js:179 | `scripts` is replaced by the generated table, name for name |
| Manifest.UpdatedKeepsOthers | index.js:113-127 | every property outside the managed set reads exactly as before |
| Manifest.UpdatedKeyOrder | index.js:114-127 | the keys `npm init` wrote keep their places, less `directories`, and new keys follow in the order assigned |
| Manifest.Package.constructor | index.js:113 | the loaded object, whose keys are distinct |
| Manifest.Package.Set | index.js:115 | a property assignment, keeping keys distinct |
| Manifest.Package.Delete | index.js:114 | a `delete`, keeping keys distinct |
| Manifest.Package.Update | index.js:114-127 | the in-place edits leave the object equal to `Updated` of its old value |
| Eslint.Build | index.js:159-172 | building the literal and switching one environment on yields `Config(node)` |
| Eslint.Enabled | index.js:169-172 | setting `env.node` or `env.browser` on the initial literal adds that environment after `es2021` and changes nothing else |
| Eslint.EnvironmentChoice | index.js:160-172 | `env` enables `es2021` and exactly one of `node` and `browser`, the one `--node` selects |
| Eslint.ConfigKeys | index.js:159-168 | the members are `env`, `extends`, `parserOptions`, `rules`, in that order |
| Eslint.ConfigSettings | index.js:161-167 | `extends`, `parserOptions` (ECMAScript 12 modules) and the empty `rules` do not depend on the options |
| ExportedName.Upper | index.js:43 | each lower-case ASCII letter becomes its own capital (code point minus 32); every other character is kept |
| ExportedName.Shortens | index.js:43 | each replacement removes one character, so the name never grows and keeps its length iff nothing matched |
| ExportedName.UnchangedIffNoMatch | index.js:43 | the name is unchanged iff no hyphen is followed by a non-space character |
| ExportedName.NoHyphenUnchanged | index.js:43 | a name without hyphens is its own exported name |
| ExportedName.PlainPrefix | index.js:43 | a hyphen-free prefix is copied unchanged and the rest is converted on its own |
| ExportedName.HyphenJoin | index.js:43 | `a-b…` becomes `a` followed by the upper-cased first character of `b…` and the conversion of the rest |
| ExportedName.TrailingHyphenKept | index.js:43 | a trailing hyphen has nothing to upper-case and is kept |
| Artifacts.PlanPaths | index.js:173-390 | the files are written in the order: `.eslintrc.json` under lint, `package.json`, the harness for a browser module, the six `finalize` files, then the rollup configurations |
| Artifacts.LayoutDistinct | index.js:173-390 | the planned paths are distinct |
| Artifacts.PathsDistinct | index.js:173-390 | no file is written twice |
| Artifacts.FixedFiles | index.js:341-389 | `package.json`, `.npmrc`, `.gitignore`, `.npmignore`, `test/package.json`, `test/index.js` and `esm/index.js` are always written |
| Artifacts.OptionalFiles | index.js:157-206 | `.eslintrc.json` is written iff `lint`, and `test/index.html` iff not `node` |
| Artifacts.BundlerFiles | index.js:182-320 | `rollup/es.config.js` is written iff not `node`, plus `babel.config.js` under Babel or else `index.config.js`, never both |
| Artifacts.NeedsEs | index.js:211-241 | the ES bundler needs node-resolve and terser, Babel with the ESX packages under `esx`, and includepaths under `ungap` |
| Artifacts.NeedsBabel | index.js:248-280 | the Babel bundler needs node-resolve, the Babel plugin, `@babel/core` and `@babel/preset-env`, the ESX packages under `esx`, and includepaths under `ungap` |
| Artifacts.NeedsIndex | index.js:288-316 | the plain bundler needs node-resolve, Babel with the ESX packages under `esx`, and includepaths under `ungap` |
| Artifacts.BundlersNeedOnlyInstalled | index.js:82-320 | for every command line, every package a written bundler configuration needs was installed by `npm i -D` |
| Artifacts.CanonicalBundlersInstalled | index.js:82-320 | for every feature set the options can produce, every package a written bundler configuration needs is installed |
| Artifacts.IndexConfigNeverTranspiles | index.js:290-303 | whenever `rollup/index.config.js` is written it imports and runs no Babel plugin |
| Artifacts.BundlersAgree | index.js:209-320 | every bundler reads `./esm/index.js` and exports under the camel-cased name; under `ungap` includepaths runs first with a `null` context; each writes the file its script expects |
| Artifacts.HarnessTargets | index.js:183-206 | the test page is titled with the project name, loads `../esm/index.js` on a loopback host and `https://unpkg.com/<name>?module` elsewhere |
| Cli.HelpWins | index.js:17-37 | with `--help` anywhere, the run prints the usage and exits with code 0 |
| Cli.MissingNameIff | index.js:38-41 | without `--help`, the run exits with code 1 iff every argument is an option or the first non-option is empty |
| Cli.StartFacts | index.js:10-41 | a run that starts has a non-empty project name, which is the first non-option argument, and it carries exactly the dash-prefixed arguments as options |
| Cli.DirectoriesSpec | index.js:53-64 | the run carries on iff `--force` or no `mkdir` failed; an existing root without `--force` stops it with code 0 |
| Cli.ToolsInstalled | index.js:82-158 | for every command line, every tool a generated script invokes was installed by `npm i -D` |
| Cli.CommandsFacts | index.js:81-109 | `npm init -y` is spawned first, then `npm i -D` with the converter first and the dependency list, then `npm run build`; no argument of the install repeats and every package it names is in the catalogue |
| Cli.BootstrapFiles | index.js:173-390 | a whole run writes the planned files once each, in the planned order |
| Cli.RollupFailure | index.js:207-208 | a failed `mkdir rollup` exits with code 1 exactly for a browser module without `--force`, and the files whose writes are issued are then the plan without the two rollup configurations |

## Left out

- Process and filesystem effects are not modelled: `fs.mkdir`, `fs.writeFile`,
  `fs.unlink`, `spawn`, `process.chdir`, `process.exit`, the console messages
  and the 500 ms `setTimeout` before `npm run build` (lines 53-65, 81-82,
  173-177, 180-181, 334-339, 341-399). The model says which directories,
  commands and files are planned. `Cli.Directories` takes the `mkdir`
  outcomes as parameters.
- The unlinking of `package-lock.json` after the build is spawned (line 396)
  is not modelled. It is a filesystem effect with no decision in it.
- Callback order: `Artifacts.Plan` lists the writes in the order they are
  issued. The order in which the asynchronous writes complete is not modelled.
- A failed write exits with code 1 through `error` (lines 334-339). Only the
  `mkdir` failures are modelled: the root, `test`, `cjs` and `esm` in
  `Cli.Directories` (lines 53-64) and `rollup` in `Cli.RollupExit` and
  `Cli.Written` (lines 207-208). When `mkdir rollup` fails, the model keeps
  every write issued before its callback and drops the rollup
  configurations. `process.exit(1)` there does not wait for the writes still
  in flight (`test/index.html` and every file `finalize()` issues, lines
  183-206 and 341-389), so those may be left missing or empty; the model
  says only that they were issued. Whether `npm run build` is still spawned then depends on
  which callback completes first, and that is not modelled.
- The help text, its ANSI colouring and the terminal detection through
  `os.release()`/`os.platform()` (lines 15-36) are not modelled, since they
  depend on the environment and are only presentation.
- `path.resolve(repo)` (line 44) is not modelled: paths are relative to the
  project root.
- `require(json)` (line 113) is not modelled. The loaded `package.json` is a
  parameter, already parsed into an object with distinct keys.
- `JSON.stringify` formatting: the manifest and the linter configuration are
  kept as JSON values.
- The text bodies of the rollup configurations and of the HTML page
  (lines 185-204, 211-317) are not modelled as text. The model keeps what
  decides behaviour: imports, plugins in order, `context`/`moduleContext`,
  input, output file and global name for the configurations, and title and
  the two import targets for the page. The whitespace-stripping regular
  expressions are not modelled.
- ExportedName.Upper: upper-cases ASCII letters only. JavaScript's
  `toUpperCase` also maps other letters, some to two characters
  (`ß` becomes `SS`). With that mapping, `ExportedName.Shortens` would not
  hold.
- Cli.CommandsFacts: states the three commands. It does not state that the
  build is spawned only after `esm/index.js` has been written, because
  timing is not modelled.
