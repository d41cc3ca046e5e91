/** The `FirecrawlAgent` class (Web_SearchAgent.py, lines 81-172): preflight
    validation, preparation of the Firecrawl MCP server's process parameters,
    and the settings of the chat model. `os.name == "nt"` is the parameter
    `isWindows`; `shutil.which` is the parameter `which`. */
module FirecrawlAgent {
  import opened Wrappers
  import opened PyBuiltins
  import opened EnvConfig
  import opened Locator

  const MissingFirecrawlKey := "Missing FIRECRAWL_API_KEY"
  const MissingKimiBase := "Missing KIMI_K2_HF_BASE"
  const MissingKimiToken := "Missing KIMI_K2_HF_TOKEN"
  const NpxNotFound := "npx not found on PATH (install Node.js LTS)."
  const CannotFindNpx := "Cannot find 'npx' on PATH."
  const NpxCandidates := ["npx.cmd", "npx"]
  const McpArgs := ["-y", "firecrawl-mcp"]

  // ---------------------------------------------------------------------
  // Preflight (lines 107-128)
  // ---------------------------------------------------------------------

  /** One preflight check: whether it failed, and the problem it reports. */
  datatype Check = Check(failed: bool, problem: string)

  /** Whether the preflight finds `npx` on PATH. */
  predicate NpxOnPath(isWindows: bool, which: Which) {
    if isWindows then WhichWindows(which, NpxCandidates).Some? else Truthy(which("npx"))
  }

  /** The four checks, in the order the preflight runs them. */
  function PreflightChecks(cfg: Config, isWindows: bool, which: Which): seq<Check> {
    [ Check(cfg.firecrawlApiKey == "", MissingFirecrawlKey),
      Check(cfg.kimiBase == "", MissingKimiBase),
      Check(cfg.kimiToken == "", MissingKimiToken),
      Check(!NpxOnPath(isWindows, which), NpxNotFound) ]
  }

  /** The problem one check contributes: its text when it failed, else nothing. */
  function ProblemOf(c: Check): seq<string> {
    if c.failed then [c.problem] else []
  }

  /** The problems of the failed checks, in check order. */
  function FailingProblems(checks: seq<Check>): (ps: seq<string>)
    ensures |ps| <= |checks|
    ensures ps == [] <==> forall i :: 0 <= i < |checks| ==> !checks[i].failed
    ensures forall p :: p in ps ==> exists i :: 0 <= i < |checks| && checks[i].failed && checks[i].problem == p
  {
    if |checks| == 0 then []
    else
      var rest := FailingProblems(checks[1..]);
      assert forall i :: 1 <= i < |checks| ==> checks[i] == checks[1..][i - 1];
      ProblemOf(checks[0]) + rest
  }

  /** Appending one more check appends its problem exactly when it fails. */
  lemma {:induction false} FailingProblemsSnoc(checks: seq<Check>, c: Check)
    ensures FailingProblems(checks + [c]) == FailingProblems(checks) + ProblemOf(c)
  {
    if |checks| > 0 {
      assert (checks + [c])[1..] == checks[1..] + [c];
      FailingProblemsSnoc(checks[1..], c);
    }
  }

  function PreflightProblems(cfg: Config, isWindows: bool, which: Which): seq<string> {
    FailingProblems(PreflightChecks(cfg, isWindows, which))
  }

  /** The consolidated `RuntimeError` text: each problem on its own bullet line. */
  function PreflightMessage(problems: seq<string>): string {
    "Preflight failed:\n - " + Join(problems, "\n - ")
  }

  /** Four checks report their problems one after another. */
  lemma FailingProblemsOfFour(c0: Check, c1: Check, c2: Check, c3: Check)
    ensures FailingProblems([c0, c1, c2, c3]) == ProblemOf(c0) + ProblemOf(c1) + ProblemOf(c2) + ProblemOf(c3)
  {
    assert [c0] == [] + [c0];
    FailingProblemsSnoc([], c0);
    assert [c0, c1] == [c0] + [c1];
    FailingProblemsSnoc([c0], c1);
    assert [c0, c1, c2] == [c0, c1] + [c2];
    FailingProblemsSnoc([c0, c1], c2);
    assert [c0, c1, c2, c3] == [c0, c1, c2] + [c3];
    FailingProblemsSnoc([c0, c1, c2], c3);
  }

  /** The problem list holds every failing check and nothing else, in check
      order: FIRECRAWL, then BASE, then TOKEN, then npx. */
  lemma PreflightProblemsInCheckOrder(cfg: Config, isWindows: bool, which: Which)
    ensures PreflightProblems(cfg, isWindows, which) ==
              (if cfg.firecrawlApiKey == "" then [MissingFirecrawlKey] else [])
              + (if cfg.kimiBase == "" then [MissingKimiBase] else [])
              + (if cfg.kimiToken == "" then [MissingKimiToken] else [])
              + (if !NpxOnPath(isWindows, which) then [NpxNotFound] else [])
  {
    var cs := PreflightChecks(cfg, isWindows, which);
    FailingProblemsOfFour(cs[0], cs[1], cs[2], cs[3]);
    assert cs == [cs[0], cs[1], cs[2], cs[3]];
  }

  /** The preflight passes if and only if every check passes. */
  lemma PreflightPassesIff(cfg: Config, isWindows: bool, which: Which)
    ensures PreflightProblems(cfg, isWindows, which) == [] <==>
              cfg.firecrawlApiKey != "" && cfg.kimiBase != "" && cfg.kimiToken != "" && NpxOnPath(isWindows, which)
  {
    PreflightProblemsInCheckOrder(cfg, isWindows, which);
  }

  /** The error message names every problem found. */
  lemma PreflightMessageListsEveryProblem(problems: seq<string>, i: nat)
    requires i < |problems|
    ensures Contains(PreflightMessage(problems), problems[i])
  {
    JoinContainsEach(problems, "\n - ", i);
    ContainsExtended("Preflight failed:\n - ", Join(problems, "\n - "), "", problems[i]);
    assert "Preflight failed:\n - " + Join(problems, "\n - ") + "" == PreflightMessage(problems);
  }

  /** The module-level lookups already raise for a missing required value,
      so on a configuration that loaded only the npx check can fail. */
  lemma LoadedConfigOnlyNpxCanFail(env: Env, isWindows: bool, which: Which)
    requires LoadConfig(env).Success?
    ensures PreflightProblems(LoadConfig(env).value, isWindows, which) ==
              (if NpxOnPath(isWindows, which) then [] else [NpxNotFound])
  {
    PreflightProblemsInCheckOrder(LoadConfig(env).value, isWindows, which);
  }

  // ---------------------------------------------------------------------
  // MCP server parameters (lines 131-156)
  // ---------------------------------------------------------------------

  /** `StdioServerParameters(command, args, env)`: how to spawn the server. */
  datatype ServerParams = ServerParams(command: string, args: seq<string>, env: map<string, string>)

  /** The parameters `_init_firecrawl_mcp_server` prepares, or the error it raises. */
  function ServerSpec(cfg: Config, isWindows: bool, which: Which): (r: Result<ServerParams, string>)
    ensures r.Failure? <==> isWindows && WhichWindows(which, NpxCandidates).None?
    ensures r.Failure? ==> r.error == CannotFindNpx
    ensures r.Success? ==> r.value.args == ["-y", "firecrawl-mcp"]
                           && r.value.env.Keys == {"FIRECRAWL_API_KEY"}
                           && r.value.env["FIRECRAWL_API_KEY"] == cfg.firecrawlApiKey
                           && r.value.command != ""
    ensures r.Success? && isWindows ==>
              r.value.command == if Truthy(which("npx.cmd")) then which("npx.cmd").value else which("npx").value
    ensures !isWindows ==>
              r.Success? && r.value.command == if Truthy(which("npx")) then which("npx").value else "npx"
  {
    var command :=
      if isWindows then WhichWindows(which, NpxCandidates)
      else Or(which("npx"), Some("npx"));
    if command.None? then Failure(CannotFindNpx)
    else Success(ServerParams(command.value, McpArgs, map["FIRECRAWL_API_KEY" := cfg.firecrawlApiKey]))
  }

  /** A passing preflight guarantees that preparing the server cannot fail:
      both consult the same lookup for the same candidates. */
  lemma PreflightCoversServerLookup(cfg: Config, isWindows: bool, which: Which)
    requires PreflightProblems(cfg, isWindows, which) == []
    ensures ServerSpec(cfg, isWindows, which).Success?
  {
    PreflightPassesIff(cfg, isWindows, which);
  }

  // ---------------------------------------------------------------------
  // The chat model (lines 159-172)
  // ---------------------------------------------------------------------

  /** The arguments `ChatOpenAI` is constructed with. */
  datatype ModelSettings = ModelSettings(model: string, temperature: int, apiKey: string, baseUrl: string)

  // ---------------------------------------------------------------------
  // The class
  // ---------------------------------------------------------------------

  class Agent {
    var model: Option<ModelSettings>
    var serverParams: Option<ServerParams>

    /** Lines 92-95: both fields start unset. */
    constructor Empty()
      ensures model == None && serverParams == None
    {
      model := None;
      serverParams := None;
    }

    /** `_Loading_verifying_requirements`: collects every problem before
        raising one error that lists them all. */
    method VerifyRequirements(cfg: Config, isWindows: bool, which: Which) returns (r: Outcome<string>)
      ensures r.Pass? <==> PreflightProblems(cfg, isWindows, which) == []
      ensures r.Fail? ==> r.error == PreflightMessage(PreflightProblems(cfg, isWindows, which))
    {
      var problems: seq<string> := [];
      if cfg.firecrawlApiKey == "" { problems := problems + [MissingFirecrawlKey]; }
      ghost var done := problems;
      assert done == if cfg.firecrawlApiKey == "" then [MissingFirecrawlKey] else [];
      if cfg.kimiBase == "" { problems := problems + [MissingKimiBase]; }
      assert problems == done + (if cfg.kimiBase == "" then [MissingKimiBase] else []);
      done := problems;
      if cfg.kimiToken == "" { problems := problems + [MissingKimiToken]; }
      assert problems == done + (if cfg.kimiToken == "" then [MissingKimiToken] else []);
      done := problems;
      if isWindows {
        if !WhichWindows(which, NpxCandidates).Some? {
          problems := problems + [NpxNotFound];
        }
      } else {
        if !Truthy(which("npx")) {
          problems := problems + [NpxNotFound];
        }
      }
      assert problems == done + (if !NpxOnPath(isWindows, which) then [NpxNotFound] else []);
      PreflightProblemsInCheckOrder(cfg, isWindows, which);
      if problems != [] {
        return Fail(PreflightMessage(problems));
      }
      return Pass;
    }

    /** `_init_firecrawl_mcp_server`: sets `server_params`, or raises on
        Windows when `npx` cannot be found. */
    method InitFirecrawlMcpServer(cfg: Config, isWindows: bool, which: Which) returns (r: Outcome<string>)
      modifies this`serverParams
      ensures match ServerSpec(cfg, isWindows, which)
              case Success(p) => r == Pass && serverParams == Some(p)
              case Failure(e) => r == Fail(e) && serverParams == old(serverParams)
    {
      var command: string;
      if isWindows {
        var npxPath := WhichWindows(which, NpxCandidates);
        if !Truthy(npxPath) {
          return Fail(CannotFindNpx);
        }
        command := npxPath.value;
      } else {
        command := Or(which("npx"), Some("npx")).value;
      }
      serverParams := Some(ServerParams(command, McpArgs, map["FIRECRAWL_API_KEY" := cfg.firecrawlApiKey]));
      return Pass;
    }

    /** `_init_kimi_k2_model`: the model, token and endpoint at temperature 0. */
    method InitKimiK2Model(cfg: Config)
      modifies this`model
      ensures model == Some(ModelSettings(cfg.kimiModel, 0, cfg.kimiToken, cfg.kimiBase))
    {
      model := Some(ModelSettings(cfg.kimiModel, 0, cfg.kimiToken, cfg.kimiBase));
    }

    /** `FirecrawlAgent()`: preflight, then the server parameters, then the
        model; the first step that raises aborts construction. */
    static method Create(cfg: Config, isWindows: bool, which: Which) returns (r: Result<Agent, string>)
      ensures PreflightProblems(cfg, isWindows, which) != [] ==>
                r == Failure(PreflightMessage(PreflightProblems(cfg, isWindows, which)))
      ensures PreflightProblems(cfg, isWindows, which) == [] ==>
                match ServerSpec(cfg, isWindows, which)
                case Failure(e) => r == Failure(e)
                case Success(p) =>
                  && r.Success? && fresh(r.value)
                  && r.value.serverParams == Some(p)
                  && r.value.model == Some(ModelSettings(cfg.kimiModel, 0, cfg.kimiToken, cfg.kimiBase))
    {
      var agent := new Agent.Empty();
      var pre := agent.VerifyRequirements(cfg, isWindows, which);
      if pre.Fail? {
        return Failure(pre.error);
      }
      var server := agent.InitFirecrawlMcpServer(cfg, isWindows, which);
      if server.Fail? {
        return Failure(server.error);
      }
      agent.InitKimiK2Model(cfg);
      return Success(agent);
    }
  }
}
