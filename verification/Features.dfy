/** Resolving the option list into the feature booleans (index.js lines
    46-51 and 66-69). Unknown options are ignored; no combination is an
    error. */
module Features {

  /** The tool that turns `esm/` into `cjs/` (`--ucjs` picks the alternative). */
  datatype Converter = Ascjs | Ucjs {
    function Name(): string
    {
      match this
      case Ascjs => "ascjs"
      case Ucjs => "ucjs"
    }
  }

  datatype Flags = Flags(
    converter: Converter,
    esx: bool,
    force: bool,
    lint: bool,
    noDefault: bool,
    node: bool,
    cover: bool,
    babel: bool,
    ungap: bool)

  function Resolve(options: seq<string>): (f: Flags)
    ensures f.converter == Ucjs <==> "--ucjs" in options
    ensures f.esx <==> "--esx" in options
    ensures f.force <==> "--force" in options
    ensures f.lint <==> "--lint" in options
    ensures f.cover <==> "--cover" in options
    ensures f.noDefault <==> "--no-default" in options || "--no-interop" in options
    ensures f.node <==> "--node" in options || "--nodejs" in options
    ensures f.babel <==> f.esx || (!f.node && "--babel" in options)
    ensures f.ungap <==> !f.node && "--ungap" in options
  {
    var node := "--node" in options || "--nodejs" in options;
    var esx := "--esx" in options;
    Flags(
      converter := if "--ucjs" in options then Ucjs else Ascjs,
      esx := esx,
      force := "--force" in options,
      lint := "--lint" in options,
      noDefault := "--no-default" in options || "--no-interop" in options,
      node := node,
      cover := "--cover" in options,
      babel := esx || (!node && "--babel" in options),
      ungap := !node && "--ungap" in options)
  }

  /** The combinations `Resolve` can produce: `--esx` drags in Babel, and a
      NodeJS-only module neither polyfills nor transpiles unless ESX asked
      for Babel. */
  predicate Canonical(f: Flags)
  {
    && (f.esx ==> f.babel)
    && (f.node ==> !f.ungap)
    && (f.node && f.babel ==> f.esx)
  }

  /** `[x]` when `c` holds, nothing otherwise: an option, script or
      package that is only there under a condition. */
  function When(c: bool, x: string): seq<string>
  {
    if c then [x] else []
  }

  /** One option list that requests exactly `f`. */
  function Request(f: Flags): seq<string>
  {
    ToolOptions(f) + ModuleOptions(f) + BrowserOptions(f)
  }

  function ToolOptions(f: Flags): seq<string>
  {
    When(f.converter == Ucjs, "--ucjs") + When(f.esx, "--esx") + When(f.force, "--force")
  }

  function ModuleOptions(f: Flags): seq<string>
  {
    When(f.lint, "--lint") + When(f.noDefault, "--no-default") + When(f.node, "--node")
  }

  function BrowserOptions(f: Flags): seq<string>
  {
    When(f.cover, "--cover") + When(f.babel && !f.esx, "--babel") + When(f.ungap, "--ungap")
  }

  lemma RequestMembers(f: Flags, x: string)
    ensures x in Request(f) <==>
      || (x == "--ucjs" && f.converter == Ucjs) || (x == "--esx" && f.esx)
      || (x == "--force" && f.force) || (x == "--lint" && f.lint)
      || (x == "--no-default" && f.noDefault) || (x == "--node" && f.node)
      || (x == "--cover" && f.cover) || (x == "--babel" && f.babel && !f.esx)
      || (x == "--ungap" && f.ungap)
  {
    ToolOptionsMembers(f, x);
    ModuleOptionsMembers(f, x);
    BrowserOptionsMembers(f, x);
  }

  lemma ToolOptionsMembers(f: Flags, x: string)
    ensures x in ToolOptions(f) <==>
      (x == "--ucjs" && f.converter == Ucjs) || (x == "--esx" && f.esx) || (x == "--force" && f.force)
  {
  }

  lemma ModuleOptionsMembers(f: Flags, x: string)
    ensures x in ModuleOptions(f) <==>
      (x == "--lint" && f.lint) || (x == "--no-default" && f.noDefault) || (x == "--node" && f.node)
  {
  }

  lemma BrowserOptionsMembers(f: Flags, x: string)
    ensures x in BrowserOptions(f) <==>
      (x == "--cover" && f.cover) || (x == "--babel" && f.babel && !f.esx) || (x == "--ungap" && f.ungap)
  {
  }

  lemma ResolveIsCanonical(options: seq<string>)
    ensures Canonical(Resolve(options))
  {
  }

  /** Every canonical feature set is reachable, so `Canonical` is exactly
      the image of `Resolve`. */
  lemma ResolveRequest(f: Flags)
    requires Canonical(f)
    ensures Resolve(Request(f)) == f
  {
    ResolveRequestTools(f);
    ResolveRequestModule(f);
    ResolveRequestBrowser(f);
  }

  lemma ResolveRequestTools(f: Flags)
    ensures var r := Resolve(Request(f));
      r.converter == f.converter && r.esx == f.esx && r.force == f.force
  {
    RequestMembers(f, "--ucjs");
    RequestMembers(f, "--esx");
    RequestMembers(f, "--force");
  }

  lemma ResolveRequestModule(f: Flags)
    ensures var r := Resolve(Request(f));
      r.lint == f.lint && r.noDefault == f.noDefault && r.node == f.node
  {
    RequestMembers(f, "--lint");
    RequestMembers(f, "--no-default");
    RequestMembers(f, "--no-interop");
    RequestMembers(f, "--node");
    RequestMembers(f, "--nodejs");
  }

  lemma ResolveRequestBrowser(f: Flags)
    requires Canonical(f)
    ensures var r := Resolve(Request(f));
      r.cover == f.cover && r.babel == f.babel && r.ungap == f.ungap
  {
    RequestMembers(f, "--esx");
    RequestMembers(f, "--node");
    RequestMembers(f, "--nodejs");
    RequestMembers(f, "--cover");
    RequestMembers(f, "--babel");
    RequestMembers(f, "--ungap");
  }

  /** Resolution is idempotent: re-requesting a resolved set resolves to it. */
  lemma ResolveIdempotent(options: seq<string>)
    ensures Resolve(Request(Resolve(options))) == Resolve(options)
  {
    ResolveIsCanonical(options);
    ResolveRequest(Resolve(options));
  }

  /** `--node` silences `--babel` and `--ungap`, but `--esx` still forces
      Babel on. */
  lemma NodeSuppressesBrowserToolchain(options: seq<string>)
    ensures var f := Resolve(options); f.node && !f.esx ==> !f.babel && !f.ungap
    ensures var f := Resolve(options); "--esx" in options ==> f.babel
  {
  }

  /** The options recognised by the resolver. */
  const Recognized: set<string> := {
    "--ucjs", "--esx", "--force", "--lint", "--no-default", "--no-interop",
    "--node", "--nodejs", "--cover", "--babel", "--ungap"}

  /** Only which recognised options are present matters: not their order,
      not repetitions, and not any unrecognised option. */
  lemma ResolveSeesOnlyRecognized(a: seq<string>, b: seq<string>)
    requires forall x :: x in Recognized ==> (x in a <==> x in b)
    ensures Resolve(a) == Resolve(b)
  {
    assert "--ucjs" in Recognized && "--esx" in Recognized && "--force" in Recognized;
    assert "--lint" in Recognized && "--no-default" in Recognized && "--no-interop" in Recognized;
    assert "--node" in Recognized && "--nodejs" in Recognized && "--cover" in Recognized;
    assert "--babel" in Recognized && "--ungap" in Recognized;
  }
}
