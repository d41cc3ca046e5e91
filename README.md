# Firecrawl MCP web-search agent — a Dafny model of its control logic

The repository wires a chat model (Kimi-K2 behind an OpenAI-compatible
endpoint) to the web-scraping tools of a Firecrawl MCP server, launched
with `npx`, and runs a terminal conversation. This project models the
parts of `Web_SearchAgent.py` that carry their own logic and proves what
they promise:

- `_get_env` resolves a setting from candidate environment variables,
  including legacy aliases. The module-level `FIRECRAWL_API_KEY`,
  `KIMI_BASE`, `KIMI_TOKEN` and `KIMI_MODEL` are resolved this way, and
  `KIMI_MODEL` has a built-in default (`env_config.dfy`).
- `_which_windows` looks up an executable from candidate names
  (`locator.dfy`).
- The `FirecrawlAgent` class covers the preflight check, which collects every
  problem before raising one error; the preparation of the MCP server's
  process parameters; the chat-model settings; and the construction order
  of `__init__` (`firecrawl_agent.dfy`).
- The conversation loop of `main` works over the `messages` list. The model
  covers one pass of the loop body, the loop over a sequence of input lines,
  and how the printed reply is extracted from the agent's result
  (`repl.dfy`).

`py_builtins.dfy` holds the Python semantics these rely on:
- truthiness of `None`-or-`str` values and the `or` operator;
- the early-return "first truthy lookup" loop, which `_get_env` and
  `_which_windows` share;
- `str.strip` with Python's full whitespace set, `str.lower`, `str.join`,
  and `in` on strings.

`wrappers.dfy` defines `Option`, `Result` and `Outcome`. A raised
`RuntimeError` is a `Failure`/`Fail` carrying the exception's message.

Inputs from outside the program are parameters:
- the process environment is a `map<string, string>`;
- `shutil.which` is a function `string -> Option<string>`;
- `os.name == "nt"` is the boolean `isWindows`;
- the lines typed at the prompt are a `seq<string>`;
- `agent.ainvoke` is a function from the message list to an outcome: a
  returned result, or a raised exception given by its `repr`.

What would be printed is returned as a value.

Two points about the loop's behaviour:
- The code never appends the agent's reply to `messages` (lines 224-243), so
  later turns see only the system instruction and the user's messages.
- The printed reply falls back from the last message's content to `output`,
  then `final`, then a placeholder.

## Model

| member | source | states |
|---|---|---|
| PyBuiltins.FirstTruthy | Web_SearchAgent.py:42-45 | the result is `None` iff no key's lookup is truthy; otherwise it is the value of a key whose lookup is truthy, and no earlier key's lookup is truthy |
| PyBuiltins.FirstTruthyAt | Web_SearchAgent.py:42-45 | when key `i` is the first truthy one, the loop returns exactly its value |
| PyBuiltins.FirstTruthyIgnoresLater | Web_SearchAgent.py:42-45 | once a key matches, appending more keys never changes the result |
| PyBuiltins.FirstTruthyReadsOnlyKeys | Web_SearchAgent.py:42-45 | two lookups that agree on the listed keys give the same result |
| PyBuiltins.Or | Web_SearchAgent.py:238 | `a or b` is truthy iff either operand is, it is `a` whenever `a` is truthy, and `b` otherwise |
| PyBuiltins.Strip | Web_SearchAgent.py:218 | the result is a slice of the input with only whitespace cut on both sides, and it neither starts nor ends with whitespace |
| PyBuiltins.StripPadded | Web_SearchAgent.py:218 | stripping whitespace padding around a text that does not start or end with whitespace gives back exactly that text |
| PyBuiltins.StripIdempotent | Web_SearchAgent.py:218 | stripping twice equals stripping once |
| PyBuiltins.JoinContainsEach | Web_SearchAgent.py:48 | every part occurs as a substring of `sep.join(parts)` |
| EnvConfig.GetEnv | Web_SearchAgent.py:26-49 | it raises iff `required` and no candidate is set non-empty, with the message `Missing required env var (tried: …)`; it returns `None` iff not required and none is set; otherwise it returns the value of the first candidate, in argument order, that is set non-empty, and an empty value counts as missing |
| EnvConfig.MissingMessageNamesEveryCandidate | Web_SearchAgent.py:46-48 | the error for a missing required value contains every candidate name, not just the first |
| EnvConfig.GetEnvIgnoresLater | Web_SearchAgent.py:42-45 | once a candidate resolves, candidates after it are never consulted |
| EnvConfig.GetEnvReadsOnlyCandidates | Web_SearchAgent.py:42-43 | environments that agree on the candidate names give the same answer |
| EnvConfig.LegacyAliasResolves | Web_SearchAgent.py:42-45 | with the primary name unset and the legacy alias set, the alias's value is returned |
| EnvConfig.KimiModel | Web_SearchAgent.py:59-60 | `KIMI_MODEL` is `KIMI_K2_HF_MODEL` if that is set non-empty, else `Kimi_K2_HF_Model` if that is set non-empty, else `moonshotai/Kimi-K2-Instruct:fireworks-ai` |
| EnvConfig.KimiModelIsDefaultIff | Web_SearchAgent.py:59-60 | `KIMI_MODEL` equals the default iff no model variable resolves or the one that resolves holds the default text |
| EnvConfig.LoadConfig | Web_SearchAgent.py:56-60 | importing the module succeeds iff each of the three required pairs has a name set non-empty; then the three values are the non-empty values `_get_env` resolves for them and the model is `KIMI_MODEL`; otherwise the error names the candidates of the first missing setting, in the order key, base, token |
| EnvConfig.LegacyNamesSuffice | Web_SearchAgent.py:56-58 | an environment that sets only the legacy mixed-case names still loads |
| Locator.WhichWindows | Web_SearchAgent.py:74-79 | the result is the path for the first candidate that the lookup resolves, or `None` iff no candidate resolves |
| FirecrawlAgent.FailingProblems | Web_SearchAgent.py:109-124 | the problem list is empty iff no check failed, and every listed problem comes from a failed check |
| FirecrawlAgent.FailingProblemsSnoc | Web_SearchAgent.py:112-124 | running one more check appends its problem exactly when that check fails |
| FirecrawlAgent.FailingProblemsOfFour | Web_SearchAgent.py:109-124 | four checks run in a row report their problems one after another, each only if it failed |
| FirecrawlAgent.PreflightProblemsInCheckOrder | Web_SearchAgent.py:109-124 | the problems are exactly the failing checks, in check order: FIRECRAWL, then BASE, then TOKEN, then npx |
| FirecrawlAgent.PreflightPassesIff | Web_SearchAgent.py:109-128 | the preflight passes iff the key, base and token are non-empty and npx is on PATH |
| FirecrawlAgent.PreflightMessageListsEveryProblem | Web_SearchAgent.py:127-128 | the consolidated error message contains every problem found |
| FirecrawlAgent.LoadedConfigOnlyNpxCanFail | Web_SearchAgent.py:111-124 | the module-level lookups already raise for missing values, so on a configuration that loaded only the npx check can fail |
| FirecrawlAgent.ServerSpec | Web_SearchAgent.py:140-156 | the args are always `["-y", "firecrawl-mcp"]`; the env override has the single key `FIRECRAWL_API_KEY`, holding the key; on POSIX the command is the resolved path, else `"npx"`, and this never fails; on Windows it is the first resolved of `npx.cmd` and `npx`, and it raises `Cannot find 'npx' on PATH.` iff neither resolves |
| FirecrawlAgent.PreflightCoversServerLookup | Web_SearchAgent.py:140-145 | with a `which` that gives the same answer on both lookups, a passing preflight means preparing the server parameters cannot fail |
| FirecrawlAgent.Agent.Empty | Web_SearchAgent.py:90-95 | a new agent starts with `model` and `server_params` unset |
| FirecrawlAgent.Agent.VerifyRequirements | Web_SearchAgent.py:107-128 | appending the problems one by one, it raises iff at least one check fails, with the message `Preflight failed:` followed by every problem in check order |
| FirecrawlAgent.Agent.InitFirecrawlMcpServer | Web_SearchAgent.py:131-156 | it sets `server_params` to the prepared parameters, or raises and leaves the field unchanged |
| FirecrawlAgent.Agent.InitKimiK2Model | Web_SearchAgent.py:159-172 | it sets `model` to the model name, temperature 0, the token and the base URL |
| FirecrawlAgent.Agent.Create | Web_SearchAgent.py:90-104 | construction fails with the preflight message if any check fails; it then fails with the server error if that step raises; otherwise it yields a fresh agent with both fields set |
| Repl.Truncate | Web_SearchAgent.py:223-224 | the stored text is a prefix of the input of length min(length, 175000); a shorter input is stored unchanged |
| Repl.ShownText | Web_SearchAgent.py:230-240 | the printed text is the last message's content if truthy, else `output` if truthy, else `final` if truthy, else `[No content returned]`; a result that is not a dict prints the placeholder |
| Repl.ShownTextIsFirstTruthy | Web_SearchAgent.py:230-240 | the printed text equals the first truthy of (last content, output, final), or the placeholder when there is none |
| Repl.Step | Web_SearchAgent.py:217-243 | one pass stops iff the stripped input is `quit` or `exit` in any case, and then leaves the list unchanged; otherwise it appends exactly one human message, the stripped and truncated input; the agent is called on the list including that message; on a raised error the list keeps the user message, nothing more is added, and the error is reported |
| Repl.ExitIgnoresAgent | Web_SearchAgent.py:219-221 | an exit word ends the loop without consulting the agent |
| Repl.ExitLineIgnoresPadding | Web_SearchAgent.py:218-219 | whitespace around a line does not change whether it is an exit word |
| Repl.ExitWordsAnyCase | Web_SearchAgent.py:219 | `quit`, `QUIT` and `Exit` are exit words |
| Repl.MapSnoc | Web_SearchAgent.py:224 | converting one more line appends exactly its converted value after the earlier ones |
| Repl.ConversationSnoc | Web_SearchAgent.py:224 | accepting one more line appends exactly its human message to the conversation |
| Repl.ConversationGrows | Web_SearchAgent.py:224 | the conversation through line n is the conversation before it plus line n's human message |
| Repl.RepliesMatchExtends | Web_SearchAgent.py:226-243 | printing the agent's answer to the conversation through the next line keeps every printed reply matched to the conversation up to its own line |
| Repl.ReplayedExtends | Web_SearchAgent.py:224-243 | a non-exit line extends the history by its message and the outputs by the agent's reply to the whole history so far |
| Repl.ReplayedAfterGoodbye | Web_SearchAgent.py:219-221 | the farewell leaves earlier turns' history and replies intact |
| Repl.RunRepl | Web_SearchAgent.py:204-243 | the loop reads one line per output until an exit word or the end of input; the system message stays at index 0; one human message is appended per non-exit line, in order, whether the agent succeeds or fails; the reply at turn k answers the system message plus the first k+1 user messages |

## Left out

- `LLM_Model_HuggingFace.py` is not part of this model. It is a pair of FastAPI routes that forward a prompt to a network client and read `choices[0].message.content`.
- The MCP client and agent construction are foreign async libraries, subprocess spawning and a wire protocol: `stdio_client`, `ClientSession.initialize`, `load_mcp_tools`, `create_react_agent` and the printed tool list (lines 188-202). `agent.ainvoke` is modelled only by its outcome.
- Loading `keys.env` with dotenv, and resolving its path (lines 15-19), are file I/O.
- Terminal I/O, `asyncio.run`, and the `KeyboardInterrupt` and `FATAL` exit paths (lines 218, 240, 247-257) are left out. Input lines are a given sequence, and the printed text is returned.
- End of input: `input()` would raise `EOFError`, which ends the program through the `FATAL` path. In the model the loop simply stops when the lines run out.
- FirecrawlAgent.Agent.InitKimiK2Model: `model` records the arguments passed to `ChatOpenAI`, not the client object, which belongs to an unseen library.
- Repl.ShownText: a message `content`, `output` or `final` is modelled as `None` or a `str`. A truthy non-string value, such as a list of content blocks, would be printed with `str()`; the model does not cover that case.
- FirecrawlAgent.PreflightCoversServerLookup: holds only because `which` is a pure function that answers the lookup at line 142 as it answered the one at line 119. The real `shutil.which` reads the file system on each call, so `npx` can disappear between the two; the code keeps its raise at lines 143-144 for that case.
- Repl.Step: the agent is assumed not to modify the list it is given. Line 228 passes the `messages` list object itself to `agent.ainvoke`, while the model's agent receives a value, so "nothing more is added" rests on that assumption.
- Repl.Step: only exceptions derived from `Exception` are caught by the loop. `BaseException`s such as a cancellation escape it, and the model does not represent them.
- `str.lower` is modelled on ASCII letters only. For the one place it is used, the comparison with `quit` and `exit`, this is exact. No non-ASCII character lowers to one of the letters q, u, i, t, e or x. The one character that lowers to several characters (U+0130) produces U+0307, which is not in either word.
