# langchain-mcp core, modelled in Dafny

This project models the sequential logic inside a small agent runtime. The agent
starts three tool servers (weather, web search, math) as stdio subprocesses. It
answers one query through a language model that uses their tools. Then it tears
the servers down. The model covers:

- **Agent** (`agent.dfy`): the tracked list of started server processes and the
  once-only teardown flag, as the class `ProcessTracker`. `CleanupProcesses` does
  nothing on a second or later call. On the first call it sets the flag, then
  calls `terminate()` exactly on the entries that are present and have no return
  code, in list order. A `terminate()` that raises is reported and the loop goes
  on. The class `ProcessTrackingClient` appends every started process to the
  tracked list, and a client's `close` keeps the list. The module also holds the
  static server configuration, the API-key early return of `run_agent`, the
  handling of interrupted input and of the last agent message, and `main`'s
  mapping from outcome to exit status (0, 130, 1) with cleanup on every path.
- **Shutdown flag** (`shutdown.dfy`): each server's `shutdown_requested` global
  and its `signal_handler`. The class `ShutdownFlag` starts cleared and can only be
  set. Every tool reads it before doing anything else and fails with the
  unprefixed "Server is shutting down".
- **Math server** (`math_server.dfy`): the `calculate` tool. It checks the shutdown
  flag, then validates against the allow-list `0123456789+-*/().^ `, then rewrites
  every `^` to `**`. A success echoes the rewritten expression, and every later
  failure gets the prefix "Error calculating expression: ". Proved about the
  rewrite: no `^` remains, the length grows by the number of `^`, the rewrite
  distributes over concatenation, the other characters keep their order, and the
  rewrite leaves the input unchanged when it has no `^`.
- **Search server** (`tavily.dfy`): the API-key check at start-up, the exact
  headers and payloads of `search_web` and `search_news`, the loop that maps the
  decoded `results` list to `{title, url, content}` records (a missing key gives
  `""`, a missing list gives no records), and the error prefixes.
- **Weather server** (`weather.dfy`): the mock `get_weather` record. The
  temperature is 22.5 exactly for `"metric"` (the default) and 72.5 otherwise. The
  location is echoed, and the other fields are constants.

Calls the model cannot see are parameters. Evaluation (`eval` then `float`) is
`evaluate: string -> Result<real>`. The HTTP exchange with the search endpoint,
together with `raise_for_status` and JSON decoding, is
`post: Request -> Result<SearchData>`. The simulated weather API call
(`asyncio.sleep(1)`) is an `Outcome`. Whether an OS `terminate()` raises is a
nondeterministic choice inside the cleanup loop. What the language-model session
produced is a `SessionEvent`. Floating-point values are `real` (see "## Left out").

Exceptions are `Failure(message)` values, where the message is the text the
source passes to `ValueError` or `str(e)`. Python module globals are fields of
one object per module (`ProcessTracker`, `ShutdownFlag`). A process is a record
of its optional return code and a "terminate delivered" mark. The ghost field
`terminateCalls` logs the positions on which `terminate()` was called.

## Model

| member | source | states |
|---|---|---|
| `Wrappers.WithPrefix` | src/mcpserver/math_server.py:71-73 | a failure is re-raised as the prefix followed by the inner message (recoverable by dropping the prefix); a success passes unchanged |
| `Shutdown.ShutdownFlag.constructor` | src/mcpserver/math_server.py:18-19 | the shutdown flag starts cleared |
| `Shutdown.ShutdownFlag.SignalHandler` | src/mcpserver/math_server.py:21-25 | the handler sets the flag; no operation clears it, so a repeated signal is idempotent |
| `MathServer.ReplaceCaret` | src/mcpserver/math_server.py:63 | no `^` remains after the rewrite, and the length grows by exactly the number of `^` in the input |
| `MathServer.ReplaceCaretAppend` | src/mcpserver/math_server.py:63 | the rewrite works character by character: rewriting `a + b` gives the rewrite of `a` followed by the rewrite of `b` |
| `MathServer.ReplaceCaretKeepsOthers` | src/mcpserver/math_server.py:63 | every character other than `^` and `*` keeps its order in the rewritten text |
| `MathServer.ReplaceCaretIdentity` | src/mcpserver/math_server.py:63 | an expression with no `^` is passed on unchanged |
| `MathServer.ReplaceCaretKeepsAllowed` | src/mcpserver/math_server.py:58-63 | the rewrite of an allowed expression contains only allowed characters |
| `MathServer.IsAllowed` | src/mcpserver/math_server.py:58-59 | an expression passes exactly when the set of its characters lies inside the allow-list `0123456789+-*/().^ ` |
| `MathServer.Calculate` | src/mcpserver/math_server.py:46-73 | a set flag gives the unprefixed shutdown error, whatever the input; a character outside the allow-list gives the prefixed invalid-characters error, whatever the evaluator; the call succeeds if and only if the flag is clear, the input is allowed and the evaluator succeeds on the rewrite, and then it returns the evaluator's value with the rewritten expression; every other failure carries the prefix plus the inner message |
| `MathServer.AllowListExamples` | src/mcpserver/math_server.py:58-63 | `2+a` is rejected, `2 + 2` and `2^3` pass, and `2^3` is rewritten to `2**3` |
| `Weather.GetWeather` | src/mcpserver/weather.py:49-77 | a set flag gives the unprefixed shutdown error and no record; a failure inside the call is re-raised with "Error getting weather: "; the temperature is 22.5 if and only if units is "metric" and 72.5 for any other units; the location is echoed verbatim; description, humidity and wind speed are the fixed constants |
| `Weather.DefaultUnitsAreMetric` | src/mcpserver/weather.py:49-64 | when units are left out the temperature is the metric 22.5 |
| `Tavily.RunServer` | src/mcpserver/tavily.py:62-65 | the server starts if and only if `TAVILY_API_KEY` is set and non-empty, and its tools capture that key; otherwise it stops with "TAVILY_API_KEY environment variable is not set" |
| `Tavily.Headers` | src/mcpserver/tavily.py:85-88 | exactly the keys content-type and Authorization; the content type is JSON; Authorization is "Bearer " and the API key follows it verbatim |
| `Tavily.WebPayload` | src/mcpserver/tavily.py:90-96 | exactly the keys query, search_depth, include_answer, include_images and max_results, with the values advanced, true and false for the fixed ones |
| `Tavily.NewsPayload` | src/mcpserver/tavily.py:138-145 | the news payload sets search_type to news |
| `Tavily.NewsPayloadExtendsWeb` | src/mcpserver/tavily.py:138-145 | the news payload is the web payload plus the one key search_type, which the web payload lacks |
| `Tavily.WebRequest` | src/mcpserver/tavily.py:84-96 | the web request goes to the search URL with Authorization "Bearer " plus the key, and carries the query and max_results and no search_type |
| `Tavily.NewsRequest` | src/mcpserver/tavily.py:132-145 | the news request has the same URL and headers as the web request, and its payload is the web payload with search_type set to news |
| `Tavily.ToSearchResult` | src/mcpserver/tavily.py:106-110 | a field that is present is copied verbatim; a missing title, url or content becomes "" |
| `Tavily.RawResults` | src/mcpserver/tavily.py:104 | a response without a `results` key gives the empty list |
| `Tavily.CollectResults` | src/mcpserver/tavily.py:103-111 | one search result per raw element, in input order, each mapped by `ToSearchResult` |
| `Tavily.RunSearch` | src/mcpserver/tavily.py:98-116 | a failed request gives the prefix plus the inner message; a successful one gives one result per element of `results`, in order |
| `Tavily.SearchWeb` | src/mcpserver/tavily.py:72-116 | a set flag gives the unprefixed shutdown error before any request is built or sent; otherwise the web request is sent, failures come back as "Error in web search: " plus the inner message, and a success maps the results in order; max_results defaults to 10 |
| `Tavily.SearchNews` | src/mcpserver/tavily.py:120-165 | the same as for the web search, with the news request and "Error in news search: " |
| `Tavily.SearchWithoutResultsKey` | src/mcpserver/tavily.py:103-113 | a search whose response has no `results` key succeeds with an empty result list |
| `Agent.Terminated` | src/agent.py:39 | a delivered `terminate()` marks the process and leaves its return code alone |
| `Agent.NeedsTerminate` | src/agent.py:36 | only a present entry needs terminating, and a present one needs it exactly when it has no return code |
| `Agent.TerminateTargets` | src/agent.py:35-36 | cleanup never targets more positions than there are entries |
| `Agent.TerminateTargetsExact` | src/agent.py:35-39 | cleanup targets a position if and only if its entry is present and has no return code, and targets each such position once, in increasing order |
| `Agent.ProcessTracker.constructor` | src/agent.py:19-22 | no process is tracked at first, and cleanup has not run |
| `Agent.ProcessTracker.CleanupProcesses` | src/agent.py:25-42 | a later call changes nothing; the first call sets the flag and calls `terminate()` exactly on the targets, in order; an entry whose `terminate()` raised is left as it was, and the loop still reaches every later entry; already exited or absent entries are untouched |
| `Agent.ProcessTracker.SignalHandler` | src/agent.py:48-52 | a signal runs the same once-only cleanup and exits with status 0 |
| `Agent.ProcessTrackingClient.constructor` | src/agent.py:61-63 | the client starts with no processes of its own |
| `Agent.ProcessTrackingClient.StartServer` | src/agent.py:65-68 | the started process is appended to the tracked list and returned; nothing else changes |
| `Agent.ProcessTrackingClient.Close` | src/agent.py:70-72 | closing the client keeps every tracked entry |
| `Agent.StartThenClose` | src/agent.py:65-72 | two servers started one after another are tracked in start order, and closing the client keeps both |
| `Agent.AllTriggersTerminateOnce` | src/agent.py:25-52 | the `finally` block, `atexit` and the signal handler together call `terminate()` on each target exactly once |
| `Agent.EnvGet` | src/agent.py:76-100 | a set variable gives its value, an unset one the default, as `os.environ.get(key, default)` does |
| `Agent.LaunchCode` | src/agent.py:87-106 | the `-c` program embeds the source directory and the server module, and both can be read back from it at fixed offsets |
| `Agent.StdioServer` | src/agent.py:85-92 | one server entry: the given interpreter, arguments `-c` and the launch program for its module, transport stdio, and exactly the given environment |
| `Agent.ServerConfigs` | src/agent.py:83-112 | three entries named weather, tavily and math, in that order, all over stdio, and only tavily's environment has TAVILY_API_KEY |
| `Agent.ServerConfigsShape` | src/agent.py:83-112 | exactly weather, tavily and math, in that order, all over stdio and launched by `python -c` with the program that imports `run_server` from `mcpserver.weather`, `mcpserver.tavily` and `mcpserver.math_server` respectively; only tavily receives TAVILY_API_KEY, PATH and HOME; every server gets PYTHONPATH, and the other two get nothing else |
| `Agent.TavilyServerGetsKey` | src/agent.py:93-102 | the search server started with the agent's configuration runs with the agent's own key |
| `Agent.RunAgent` | src/agent.py:74-144 | an empty or missing key returns the not-configured message and creates no client; otherwise the client gets the fixed configuration; interrupted or ended input returns "Operation cancelled by user."; a normal return is otherwise the content of the last agent message; a KeyboardInterrupt outside the `try` propagates as KeyboardInterrupt, any other exception propagates with its message, and an empty message list raises IndexError |
| `Agent.ExitCode` | src/agent.py:146-162 | the status is 0 on a normal return, 130 on KeyboardInterrupt and 1 on any other exception, each if and only if |
| `Agent.StartedBy` | src/agent.py:78-83 | processes are added only when a client is created: none without a key, every started one otherwise |
| `Agent.EntryPoint` | src/agent.py:146-165 | `main` returns the exit code for how the agent run ended; the tracked list becomes the old list followed by the processes started inside the client, in start order (none without a key); cleanup runs afterwards on every path: if it had run before, that list is left as it is; otherwise `terminate()` is called exactly once on each running entry of it, in order, each such entry is marked unless its `terminate()` raised, and every other entry is unchanged |

## Left out

- The arithmetic itself (`eval` and `float`) is a parameter of `Calculate`. No expression parser is modelled, because the source contains none.
- HTTP traffic to the search endpoint, the 30-second client timeout, `raise_for_status` and JSON decoding are the parameter `post`. Its failure stands for any status or network error.
- A `results` value that is JSON null, an element that is not an object, and a field value that is not a string are not modelled. In the source they raise inside the `try` and come out with the same search-error prefix.
- The FastMCP runtime, `mcp.run`, `run_stdio_async`, `asyncio.gather`, the `check_shutdown` polling task, and the outer `try` of each `run_server` that only logs are not modelled. They are library internals or timing.
- The client library (MultiServerMCPClient): which servers it starts, when, and in what order, and how it spawns processes behind `_start_server`. `StartServer` receives the handle the library produced. The field `closed` stands for the library's session state.
- Agent.EntryPoint: the handles the library starts inside `async with` are an input sequence, fed through `StartServer` in that order and unrelated to `SessionEvent`; a start that fails part-way is not distinguished from the session outcome.
- Floating point: results and weather values are `real`. `eval` can return inf or nan from allowed characters only (for example `10.0**308*10`), which `Result<real>` cannot hold; such results are outside the model.
- Weather.GetWeather: the failing `simulatedCall` is a hypothetical Exception from the awaited call. The real `asyncio.sleep(1)` raises only `CancelledError`, a BaseException that `except Exception` does not catch, so it would propagate unprefixed; that path is not modelled.
- The language model, `create_react_agent`, `ChatOpenAI` and the query itself are summarised by `SessionEvent`.
- Console and environment I/O (`input`, `print`, logging, `load_dotenv`) and the `sys.path` changes are not modelled. The environment is an input map.
- Signal delivery and registration (`signal.signal`, `atexit.register`) are not modelled. Each trigger is a call to `SignalHandler` or `CleanupProcesses`.
- `sys.exit` is not modelled. A signal that arrives while the cleanup loop runs makes the handler's own cleanup call return at once, but that handler's `sys.exit(0)` would then end the loop at that point. The model runs the loop to completion.
- Because the agent installs its own SIGINT handler, Ctrl+C reaches `main` as that handler and not as KeyboardInterrupt. `SessionEvent` still offers both KeyboardInterrupt cases, which `run_agent` and `main` handle.
- Real OS process behaviour is not modelled. A process is a record of its optional return code and a terminate mark, and `terminate()` does not set the return code.
- The input models `SearchWebInput` and `SearchNewsInput` are not modelled separately. Their only content, the default of 10 for `max_results`, is the default parameter of `SearchWeb` and `SearchNews`.
