/** The edits made to the `package.json` that `npm init -y` wrote (index.js
    lines 113-127 and 179): the object is loaded, changed in place by
    property assignment and `delete`, and written back. */
module Manifest {
  import opened Fields
  import opened Features

  /** The two entry points of the dual module. */
  const EsmEntry := "./esm/index.js"
  const CjsEntry := "./cjs/index.js"

  /** The `exports` map: `import` resolves to the ESM build, everything else
      to the CommonJS one, and the manifest itself stays reachable. */
  function Exports(): Json
  {
    JObj([
      (".", JObj([("import", JStr(EsmEntry)), ("default", JStr(CjsEntry))])),
      ("./package.json", JStr("./package.json"))])
  }

  /** The browser bundle `unpkg` serves: the minified Babel build or the
      plain rollup build. */
  function Unpkg(f: Flags): string
  {
    if f.babel then "min.js" else "es.js"
  }

  /** `scripts` as a JSON object of strings. */
  function ScriptsJson(scripts: Entries<string>): (j: Json)
    ensures j.JObj? && Keys(j.members) == Keys(scripts)
    ensures forall k :: Member(j, k) == if k in Keys(scripts) then Some(JStr(Get(scripts, k).value)) else None
  {
    JObj(Strings(scripts))
  }

  function Strings(scripts: Entries<string>): (r: Entries<Json>)
    ensures Keys(r) == Keys(scripts)
    ensures forall k :: Get(r, k) == if k in Keys(scripts) then Some(JStr(Get(scripts, k).value)) else None
  {
    if scripts == [] then [] else [(scripts[0].0, JStr(scripts[0].1))] + Strings(scripts[1..])
  }

  /** The assignments of lines 115-125: entry points, module type, exports. */
  function EntryAssignments(): Entries<Json>
  {
    [("version", JStr("0.0.0")), ("module", JStr(EsmEntry)), ("main", JStr(CjsEntry)),
     ("type", JStr("module")), ("exports", Exports())]
  }

  /** Lines 126-127: only a browser module gets an `unpkg` field. */
  function UnpkgAssignment(f: Flags): Entries<Json>
  {
    if f.node then [] else [("unpkg", JStr(Unpkg(f)))]
  }

  /** The assignments of lines 115-127 and 179, in the order they are made. */
  function Assignments(f: Flags, scripts: Entries<string>): Entries<Json>
  {
    EntryAssignments() + UnpkgAssignment(f) + [("scripts", ScriptsJson(scripts))]
  }

  /** The manifest after the edits. */
  function Updated(fields: Entries<Json>, f: Flags, scripts: Entries<string>): Entries<Json>
  {
    PutAll(Remove(fields, "directories"), Assignments(f, scripts))
  }

  /** Every property the scaffolder touches. */
  const Managed: set<string> :=
    {"directories", "version", "module", "main", "type", "exports", "unpkg", "scripts"}

  lemma EntryKeys()
    ensures Keys(EntryAssignments()) == ["version", "module", "main", "type", "exports"]
  {
  }

  lemma AssignmentKeys(f: Flags, scripts: Entries<string>)
    ensures Keys(Assignments(f, scripts)) ==
      ["version", "module", "main", "type", "exports"] + (if f.node then [] else ["unpkg"]) + ["scripts"]
  {
    EntryKeys();
    KeysAppend(EntryAssignments(), UnpkgAssignment(f));
    KeysAppend(EntryAssignments() + UnpkgAssignment(f), [("scripts", ScriptsJson(scripts))]);
  }

  /** No property is assigned twice. */
  lemma AssignmentsDistinct(f: Flags, scripts: Entries<string>)
    ensures Distinct(Keys(Assignments(f, scripts)))
  {
    AssignmentKeys(f, scripts);
    var ks := ["version", "module", "main", "type", "exports"];
    assert Distinct(ks);
    DistinctAppend(ks, if f.node then [] else ["unpkg"]);
    DistinctAppend(ks + (if f.node then [] else ["unpkg"]), ["scripts"]);
  }

  /** The value the edits give property `k`; a property they do not
      assign reads as before, except that `directories` is deleted. */
  lemma UpdatedGet(fields: Entries<Json>, f: Flags, scripts: Entries<string>, k: string)
    ensures Get(Updated(fields, f, scripts), k) ==
      if k in Keys(Assignments(f, scripts)) then Get(Assignments(f, scripts), k)
      else if k == "directories" then None
      else Get(fields, k)
  {
    AssignmentsDistinct(f, scripts);
    RemoveSpec(fields, "directories");
    PutAllGet(Remove(fields, "directories"), Assignments(f, scripts), k);
  }

  /** Where one of lines 115-125 assigns `k`, the manifest holds that value. */
  lemma UpdatedEntry(fields: Entries<Json>, f: Flags, scripts: Entries<string>, k: string)
    requires k in Keys(EntryAssignments())
    ensures Get(Updated(fields, f, scripts), k) == Get(EntryAssignments(), k)
  {
    var rest := UnpkgAssignment(f) + [("scripts", ScriptsJson(scripts))];
    assert Assignments(f, scripts) == EntryAssignments() + rest;
    KeysAppend(EntryAssignments(), rest);
    UpdatedGet(fields, f, scripts, k);
    GetConcat(EntryAssignments(), rest, k);
  }

  /** `directories` is gone from the written manifest. */
  lemma UpdatedDropsDirectories(fields: Entries<Json>, f: Flags, scripts: Entries<string>)
    ensures Get(Updated(fields, f, scripts), "directories") == None
  {
    UpdatedGet(fields, f, scripts, "directories");
    AssignmentKeys(f, scripts);
  }

  /** The version restarts at 0.0.0. */
  lemma UpdatedVersion(fields: Entries<Json>, f: Flags, scripts: Entries<string>)
    ensures Get(Updated(fields, f, scripts), "version") == Some(JStr("0.0.0"))
  {
    EntryKeys();
    UpdatedEntry(fields, f, scripts, "version");
  }

  /** Both entry points and the module type are fixed: the package is an
      ES module whose `main` is the CommonJS build. */
  lemma UpdatedEntryPoints(fields: Entries<Json>, f: Flags, scripts: Entries<string>)
    ensures Get(Updated(fields, f, scripts), "module") == Some(JStr("./esm/index.js"))
    ensures Get(Updated(fields, f, scripts), "main") == Some(JStr("./cjs/index.js"))
    ensures Get(Updated(fields, f, scripts), "type") == Some(JStr("module"))
  {
    EntryKeys();
    UpdatedEntry(fields, f, scripts, "module");
    UpdatedEntry(fields, f, scripts, "main");
    UpdatedEntry(fields, f, scripts, "type");
  }

  /** `import` resolves to the ESM build, anything else to the CommonJS build. */
  lemma UpdatedExports(fields: Entries<Json>, f: Flags, scripts: Entries<string>)
    ensures var e := Get(Updated(fields, f, scripts), "exports");
      && e == Some(Exports())
      && Member(e.value, ".") == Some(JObj([("import", JStr("./esm/index.js")), ("default", JStr("./cjs/index.js"))]))
      && Member(e.value, "./package.json") == Some(JStr("./package.json"))
  {
    EntryKeys();
    UpdatedEntry(fields, f, scripts, "exports");
  }

  /** A browser module advertises its bundle to unpkg (the minified Babel
      build when transpiling); a NodeJS module keeps whatever `npm init` wrote. */
  lemma UpdatedUnpkg(fields: Entries<Json>, f: Flags, scripts: Entries<string>)
    ensures Get(Updated(fields, f, scripts), "unpkg") ==
      if f.node then Get(fields, "unpkg")
      else if f.babel then Some(JStr("min.js"))
      else Some(JStr("es.js"))
  {
    UpdatedGet(fields, f, scripts, "unpkg");
    AssignmentKeys(f, scripts);
    EntryKeys();
    var rest := UnpkgAssignment(f) + [("scripts", ScriptsJson(scripts))];
    assert Assignments(f, scripts) == EntryAssignments() + rest;
    GetConcat(EntryAssignments(), rest, "unpkg");
    GetConcat(UnpkgAssignment(f), [("scripts", ScriptsJson(scripts))], "unpkg");
  }

  /** The generated scripts replace the ones `npm init` wrote, name for name. */
  lemma UpdatedScripts(fields: Entries<Json>, f: Flags, scripts: Entries<string>)
    ensures Get(Updated(fields, f, scripts), "scripts") == Some(ScriptsJson(scripts))
    ensures forall k :: Member(ScriptsJson(scripts), k) == (if k in Keys(scripts) then Some(JStr(Get(scripts, k).value)) else None)
  {
    UpdatedGet(fields, f, scripts, "scripts");
    AssignmentKeys(f, scripts);
    var tail := [("scripts", ScriptsJson(scripts))];
    KeysAppend(EntryAssignments() + UnpkgAssignment(f), tail);
    GetConcat(EntryAssignments() + UnpkgAssignment(f), tail, "scripts");
  }

  /** Everything `npm init` wrote that the scaffolder does not manage reads
      exactly as before. */
  lemma UpdatedKeepsOthers(fields: Entries<Json>, f: Flags, scripts: Entries<string>, k: string)
    requires k !in Managed
    ensures Get(Updated(fields, f, scripts), k) == Get(fields, k)
  {
    UpdatedGet(fields, f, scripts, k);
    AssignmentKeys(f, scripts);
  }

  /** The written key order: the keys `npm init` wrote keep their places
      (less `directories`), and the new ones follow in the order assigned. */
  lemma UpdatedKeyOrder(fields: Entries<Json>, f: Flags, scripts: Entries<string>)
    ensures Keys(Updated(fields, f, scripts)) ==
      Assigned(Without(Keys(fields), "directories"), Keys(Assignments(f, scripts)))
  {
    RemoveSpec(fields, "directories");
    PutAllKeys(Remove(fields, "directories"), Assignments(f, scripts));
  }

  /** The loaded `package.json`, edited in place. */
  class Package {
    var fields: Entries<Json>

    /** A parsed JSON object never repeats a key. */
    predicate Valid()
      reads this
    {
      Distinct(Keys(fields))
    }

    constructor (loaded: Entries<Json>)
      requires Distinct(Keys(loaded))
      ensures fields == loaded && Valid()
    {
      fields := loaded;
    }

    /** `package[k] = v` */
    method Set(k: string, v: Json)
      requires Valid()
      modifies this
      ensures fields == Put(old(fields), k, v) && Valid()
    {
      PutKeepsDistinct(fields, k, v);
      fields := Put(fields, k, v);
    }

    /** `delete package[k]` */
    method Delete(k: string)
      requires Valid()
      modifies this
      ensures fields == Remove(old(fields), k) && Valid()
    {
      RemoveKeepsDistinct(fields, k);
      fields := Remove(fields, k);
    }

    /** Lines 114-127 and 179, one statement at a time. */
    method Update(f: Flags, scripts: Entries<string>)
      requires Valid()
      modifies this
      ensures fields == Updated(old(fields), f, scripts) && Valid()
    {
      Delete("directories");
      ghost var base := fields;
      ghost var done: Entries<Json> := [];
      Set("version", JStr("0.0.0"));
      PutAllSnoc(base, done, "version", JStr("0.0.0"));
      done := done + [("version", JStr("0.0.0"))];
      Set("module", JStr(EsmEntry));
      PutAllSnoc(base, done, "module", JStr(EsmEntry));
      done := done + [("module", JStr(EsmEntry))];
      Set("main", JStr(CjsEntry));
      PutAllSnoc(base, done, "main", JStr(CjsEntry));
      done := done + [("main", JStr(CjsEntry))];
      Set("type", JStr("module"));
      PutAllSnoc(base, done, "type", JStr("module"));
      done := done + [("type", JStr("module"))];
      Set("exports", Exports());
      PutAllSnoc(base, done, "exports", Exports());
      done := done + [("exports", Exports())];
      assert done == EntryAssignments();
      if !f.node {
        Set("unpkg", JStr(Unpkg(f)));
        PutAllSnoc(base, done, "unpkg", JStr(Unpkg(f)));
        done := done + [("unpkg", JStr(Unpkg(f)))];
      }
      Set("scripts", ScriptsJson(scripts));
      PutAllSnoc(base, done, "scripts", ScriptsJson(scripts));
      done := done + [("scripts", ScriptsJson(scripts))];
      assert done == Assignments(f, scripts);
    }
  }
}
