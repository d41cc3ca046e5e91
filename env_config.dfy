/** Configuration read from the process environment (Web_SearchAgent.py,
    lines 26-60): `_get_env`, which tries candidate names in order, and the
    four module-level settings it resolves at import time. The environment
    is a map from variable names to values. */
module EnvConfig {
  import opened Wrappers
  import opened PyBuiltins

  type Env = map<string, string>

  /** `os.getenv(name)`. */
  function Getenv(env: Env, name: string): Option<string> {
    if name in env then Some(env[name]) else None
  }

  /** `name` is set to a non-empty value; an empty value counts as missing. */
  predicate Resolves(env: Env, name: string) {
    name in env && env[name] != ""
  }

  predicate AnyResolves(env: Env, names: seq<string>) {
    exists i :: 0 <= i < |names| && Resolves(env, names[i])
  }

  /** The text of the `RuntimeError` raised when no required candidate resolves. */
  function MissingMessage(names: seq<string>): string {
    "Missing required env var (tried: " + Join(names, ", ") + ")"
  }

  /** `_get_env(*names, required=required)`: the value of the first name, in
      argument order, that is set to a non-empty value; otherwise an error
      when `required`, else `None`. */
  function GetEnv(env: Env, names: seq<string>, required: bool): (r: Result<Option<string>, string>)
    ensures r.Failure? <==> required && !AnyResolves(env, names)
    ensures r.Failure? ==> r.error == MissingMessage(names)
    ensures r == Success(None) <==> !required && !AnyResolves(env, names)
    ensures r.Success? && r.value.Some? ==>
              exists i :: 0 <= i < |names| && Resolves(env, names[i]) && r.value.value == env[names[i]]
                          && forall j :: 0 <= j < i ==> !Resolves(env, names[j])
  {
    var lookup := n => Getenv(env, n);
    assert forall i :: 0 <= i < |names| ==> (Truthy(lookup(names[i])) <==> Resolves(env, names[i]));
    match FirstTruthy(lookup, names)
    case Some(v) => Success(Some(v))
    case None => if required then Failure(MissingMessage(names)) else Success(None)
  }

  /** The error raised for a missing required value names every candidate tried. */
  lemma MissingMessageNamesEveryCandidate(names: seq<string>, i: nat)
    requires i < |names|
    ensures Contains(MissingMessage(names), names[i])
  {
    JoinContainsEach(names, ", ", i);
    ContainsExtended("Missing required env var (tried: ", Join(names, ", "), ")", names[i]);
  }

  /** Once a candidate resolves, later candidates are never consulted:
      adding more names after it changes nothing. */
  lemma GetEnvIgnoresLater(env: Env, names: seq<string>, rest: seq<string>, required: bool)
    requires AnyResolves(env, names)
    ensures GetEnv(env, names + rest, required) == GetEnv(env, names, required)
  {
    FirstTruthyIgnoresLater(n => Getenv(env, n), names, rest);
  }

  /** `_get_env` reads no variable other than its candidates. */
  lemma GetEnvReadsOnlyCandidates(env: Env, env': Env, names: seq<string>, required: bool)
    requires forall i :: 0 <= i < |names| ==> Getenv(env, names[i]) == Getenv(env', names[i])
    ensures GetEnv(env, names, required) == GetEnv(env', names, required)
  {
    FirstTruthyReadsOnlyKeys(n => Getenv(env, n), n => Getenv(env', n), names);
  }

  // ---------------------------------------------------------------------
  // Module-level configuration (lines 56-60)
  // ---------------------------------------------------------------------

  const FirecrawlKeyNames := ["FIRECRAWL_API_KEY", "FIRECRAWL_API_Key"]
  const KimiBaseNames := ["KIMI_K2_HF_BASE", "Kimi_K2_HF_Base"]
  const KimiTokenNames := ["KIMI_K2_HF_TOKEN", "Kimi_K2_HF_Token"]
  const KimiModelNames := ["KIMI_K2_HF_MODEL", "Kimi_K2_HF_Model"]
  const DefaultKimiModel := "moonshotai/Kimi-K2-Instruct:fireworks-ai"

  /** The four module globals `FIRECRAWL_API_KEY`, `KIMI_BASE`, `KIMI_TOKEN`
      and `KIMI_MODEL`. */
  datatype Config = Config(firecrawlApiKey: string, kimiBase: string, kimiToken: string, kimiModel: string)

  /** `KIMI_MODEL`: the optional model setting, or the built-in default. */
  function KimiModel(env: Env): (m: string)
    ensures m != ""
    ensures !Resolves(env, "KIMI_K2_HF_MODEL") && !Resolves(env, "Kimi_K2_HF_Model") ==> m == DefaultKimiModel
    ensures Resolves(env, "KIMI_K2_HF_MODEL") ==> m == env["KIMI_K2_HF_MODEL"]
    ensures !Resolves(env, "KIMI_K2_HF_MODEL") && Resolves(env, "Kimi_K2_HF_Model") ==> m == env["Kimi_K2_HF_Model"]
  {
    var found := GetEnv(env, KimiModelNames, false).value;
    Or(found, Some(DefaultKimiModel)).value
  }

  /** The module's import: the three required settings are resolved in
      order, and the first one missing raises; then `KIMI_MODEL`. */
  function LoadConfig(env: Env): (r: Result<Config, string>)
    ensures r.Success? <==> AnyResolves(env, FirecrawlKeyNames) && AnyResolves(env, KimiBaseNames)
                            && AnyResolves(env, KimiTokenNames)
    ensures r.Success? ==> r.value.firecrawlApiKey != "" && r.value.kimiBase != ""
                           && r.value.kimiToken != "" && r.value.kimiModel == KimiModel(env)
    ensures r.Success? ==> r.value.firecrawlApiKey == GetEnv(env, FirecrawlKeyNames, true).value.value
                           && r.value.kimiBase == GetEnv(env, KimiBaseNames, true).value.value
                           && r.value.kimiToken == GetEnv(env, KimiTokenNames, true).value.value
    ensures r.Failure? ==> r.error == MissingMessage(
                             if !AnyResolves(env, FirecrawlKeyNames) then FirecrawlKeyNames
                             else if !AnyResolves(env, KimiBaseNames) then KimiBaseNames
                             else KimiTokenNames)
  {
    match GetEnv(env, FirecrawlKeyNames, true)
    case Failure(e) => Failure(e)
    case Success(key) =>
      match GetEnv(env, KimiBaseNames, true)
      case Failure(e) => Failure(e)
      case Success(base) =>
        match GetEnv(env, KimiTokenNames, true)
        case Failure(e) => Failure(e)
        case Success(token) => Success(Config(key.value, base.value, token.value, KimiModel(env)))
  }

  /** `KIMI_MODEL` is the built-in default exactly when no model variable is
      set, or when the one that wins is itself set to the default text. */
  lemma KimiModelIsDefaultIff(env: Env)
    ensures KimiModel(env) == DefaultKimiModel <==>
              GetEnv(env, KimiModelNames, false) == Success(None)
              || GetEnv(env, KimiModelNames, false) == Success(Some(DefaultKimiModel))
  {
  }

  /** An environment that sets only the legacy mixed-case names still loads. */
  lemma LegacyNamesSuffice(env: Env)
    requires Resolves(env, "FIRECRAWL_API_Key") && Resolves(env, "Kimi_K2_HF_Base")
    requires Resolves(env, "Kimi_K2_HF_Token")
    ensures LoadConfig(env).Success?
  {
    assert Resolves(env, FirecrawlKeyNames[1]);
    assert Resolves(env, KimiBaseNames[1]);
    assert Resolves(env, KimiTokenNames[1]);
  }

  /** With only the legacy name of a pair set, `_get_env` returns its value. */
  lemma LegacyAliasResolves(env: Env, name: string, legacy: string, required: bool)
    requires !Resolves(env, name) && Resolves(env, legacy)
    ensures GetEnv(env, [name, legacy], required) == Success(Some(env[legacy]))
  {
    var names := [name, legacy];
    assert Resolves(env, names[1]);
  }
}
