/** The linter configuration written to `.eslintrc.json` when `--lint` is
    given (index.js lines 159-172): a fixed object whose `env` is then told
    whether the module runs on NodeJS or in the browser. */
module Eslint {
  import opened Fields

  /** The object literal of lines 159-168, before an environment is added. */
  function Initial(): Json
  {
    JObj([("env", JObj([("es2021", JBool(true))]))] + Settings())
  }

  /** The members after `env`: the recommended rule set, ES2021 module
      syntax, no rules of the project's own. */
  function Settings(): Entries<Json>
  {
    [("extends", JStr("eslint:recommended")),
     ("parserOptions", JObj([("ecmaVersion", JNum(12)), ("sourceType", JStr("module"))])),
     ("rules", JObj([]))]
  }

  /** The environment a module runs in. */
  function Environment(node: bool): string
  {
    if node then "node" else "browser"
  }

  /** The configuration as written: ES2021 plus exactly one runtime. */
  function Config(node: bool): Json
  {
    JObj([("env", JObj([("es2021", JBool(true)), (Environment(node), JBool(true))]))] + Settings())
  }

  /** `config.env[key] = true`, on a configuration whose `env` is an object. */
  function EnableEnv(config: Json, key: string): Json
    requires config.JObj? && Member(config, "env").Some? && Member(config, "env").value.JObj?
  {
    var env := Member(config, "env").value;
    JObj(Put(config.members, "env", JObj(Put(env.members, key, JBool(true)))))
  }

  /** Lines 159-172: build the object, then switch on one environment. */
  method Build(node: bool) returns (config: Json)
    ensures config == Config(node)
  {
    config := Initial();
    if node {
      config := EnableEnv(config, "node");
    } else {
      config := EnableEnv(config, "browser");
    }
    Enabled(node);
  }

  lemma Enabled(node: bool)
    ensures EnableEnv(Initial(), Environment(node)) == Config(node)
  {
    var env: Entries<Json> := [("es2021", JBool(true))];
    var e0 := ("env", JObj(env));
    assert Initial().members == [e0] + Settings();
    assert ([e0] + Settings())[1..] == Settings();
    KeysCons(("es2021", JBool(true)), []);
    PutNew(env, Environment(node), JBool(true));
    assert env + [(Environment(node), JBool(true))] == [("es2021", JBool(true)), (Environment(node), JBool(true))];
  }

  /** The environment enables ES2021 and exactly one of NodeJS and the
      browser, the one the `--node` option asks for. */
  lemma EnvironmentChoice(node: bool)
    ensures var env := Member(Config(node), "env");
      && env.Some?
      && Member(env.value, "es2021") == Some(JBool(true))
      && Member(env.value, "node") == (if node then Some(JBool(true)) else None)
      && Member(env.value, "browser") == (if node then None else Some(JBool(true)))
      && Keys(env.value.members) == ["es2021", Environment(node)]
  {
    KeysCons(("es2021", JBool(true)), [(Environment(node), JBool(true))]);
    KeysCons((Environment(node), JBool(true)), []);
  }

  /** The members come in the order of the object literal. */
  lemma ConfigKeys(node: bool)
    ensures Keys(Config(node).members) == ["env", "extends", "parserOptions", "rules"]
  {
    var env := ("env", JObj([("es2021", JBool(true)), (Environment(node), JBool(true))]));
    KeysCons(env, Settings());
    KeysAt(Settings());
  }

  /** The rest of the configuration does not depend on the options. */
  lemma ConfigSettings(node: bool)
    ensures Member(Config(node), "extends") == Some(JStr("eslint:recommended"))
    ensures Member(Config(node), "parserOptions") ==
      Some(JObj([("ecmaVersion", JNum(12)), ("sourceType", JStr("module"))]))
    ensures Member(Config(node), "rules") == Some(JObj([]))
  {
    var env := ("env", JObj([("es2021", JBool(true)), (Environment(node), JBool(true))]));
    GetConcat([env], Settings(), "extends");
    GetConcat([env], Settings(), "parserOptions");
    GetConcat([env], Settings(), "rules");
  }
}
