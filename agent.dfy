/** The agent driver: tracking of started server processes, once-only
    teardown, the server configuration, and the outcome-to-exit-code mapping. */
module Agent {
  import opened Wrappers
  import Tavily

  // ---------------------------------------------------------------------
  // Processes

  /** A started server process as the tracker sees it: its return code once
      it has exited, and whether `terminate()` was delivered to it. */
  datatype Process = Process(returncode: Option<int>, terminateRequested: bool)

  /** An entry of the tracked list; None is a falsy entry (`if process` fails). */
  type Handle = Option<Process>

  /** `process and process.returncode is None`. */
  predicate NeedsTerminate(h: Handle)
    ensures NeedsTerminate(h) ==> h.Some?
    ensures h.Some? ==> (NeedsTerminate(h) <==> h.value.returncode.None?)
  {
    h.Some? && h.value.returncode.None?
  }

  /** The entry after a `terminate()` that did not raise. */
  function Terminated(h: Handle): (t: Handle)
    requires h.Some?
    ensures t.Some? && t.value.terminateRequested && t.value.returncode == h.value.returncode
  {
    Some(h.value.(terminateRequested := true))
  }

  /** Positions of the tracked list on which cleanup calls `terminate()`, in list order. */
  function TerminateTargets(ps: seq<Handle>): (r: seq<nat>)
    ensures |r| <= |ps|
  {
    if ps == [] then []
    else
      var n := |ps| - 1;
      TerminateTargets(ps[..n]) + (if NeedsTerminate(ps[n]) then [n] else [])
  }

  /** Cleanup targets exactly the entries that are present and still running,
      each once, in increasing position. */
  lemma {:induction false} TerminateTargetsExact(ps: seq<Handle>)
    ensures forall k: int :: k in TerminateTargets(ps) <==> 0 <= k < |ps| && NeedsTerminate(ps[k])
    ensures forall a, b :: 0 <= a < b < |TerminateTargets(ps)| ==>
              TerminateTargets(ps)[a] < TerminateTargets(ps)[b] < |ps|
  {
    if ps != [] {
      var n := |ps| - 1;
      TerminateTargetsExact(ps[..n]);
      var r := TerminateTargets(ps);
      var p := TerminateTargets(ps[..n]);
      assert r == p + (if NeedsTerminate(ps[n]) then [n] else []);
      forall k: int ensures k in r <==> 0 <= k < |ps| && NeedsTerminate(ps[k]) {
        if 0 <= k < n {
          assert ps[..n][k] == ps[k];
        }
      }
      forall a, b | 0 <= a < b < |r| ensures r[a] < r[b] < |ps| {
        if b < |p| {
          assert r[a] == p[a] && r[b] == p[b] && p[b] in p;
        } else {
          assert r[b] == n;
          assert r[a] == p[a] && p[a] in p;
        }
      }
    }
  }

  /** One step of the cleanup loop extends the targets by at most position `i`. */
  lemma TerminateTargetsStep(ps: seq<Handle>, i: nat)
    requires i < |ps|
    ensures TerminateTargets(ps[..i + 1]) == TerminateTargets(ps[..i]) + (if NeedsTerminate(ps[i]) then [i] else [])
  {
    assert ps[..i + 1][..i] == ps[..i];
  }

  /** An entry after cleanup, given whether its `terminate()` raised. */
  function AfterCleanup(h: Handle, raised: bool): Handle {
    if NeedsTerminate(h) && !raised then Terminated(h) else h
  }

  /** The tracked list after cleanup: an entry that needed terminating and
      whose `terminate()` did not raise is marked; every other entry is as it was. */
  ghost predicate CleanedUp(before: seq<Handle>, after: seq<Handle>, failures: seq<nat>) {
    && |after| == |before|
    && (forall k :: 0 <= k < |before| ==>
          after[k] == AfterCleanup(before[k], k in failures))
    && (forall k :: k in failures ==> k < |before| && NeedsTerminate(before[k]))
  }

  /** The module-level state of the agent: `active_processes` and `_cleanup_called`. */
  class ProcessTracker {
    var activeProcesses: seq<Handle>
    var cleanupCalled: bool
    /** Positions on which `terminate()` was called, in call order. */
    ghost var terminateCalls: seq<nat>

    constructor ()
      ensures activeProcesses == [] && !cleanupCalled && terminateCalls == []
    {
      activeProcesses := [];
      cleanupCalled := false;
      terminateCalls := [];
    }

    /** `cleanup_processes`. A call after the first does nothing. The first
        sets the flag before touching any process, then calls `terminate()`
        once on each entry that is present and still running, in list order;
        a `terminate()` that raises is reported in `failures` and the loop
        goes on. */
    method CleanupProcesses() returns (failures: seq<nat>)
      modifies this
      ensures cleanupCalled
      ensures old(cleanupCalled) ==>
                activeProcesses == old(activeProcesses) && terminateCalls == old(terminateCalls) && failures == []
      ensures !old(cleanupCalled) ==>
                && terminateCalls == old(terminateCalls) + TerminateTargets(old(activeProcesses))
                && CleanedUp(old(activeProcesses), activeProcesses, failures)
    {
      failures := [];
      if cleanupCalled {
        return;
      }
      cleanupCalled := true;
      ghost var before := activeProcesses;
      ghost var calls := terminateCalls;
      var i := 0;
      while i < |activeProcesses|
        invariant 0 <= i <= |activeProcesses| == |before|
        invariant cleanupCalled
        invariant terminateCalls == calls + TerminateTargets(before[..i])
        invariant forall k :: 0 <= k < i ==> activeProcesses[k] == AfterCleanup(before[k], k in failures)
        invariant forall k :: i <= k < |activeProcesses| ==> activeProcesses[k] == before[k]
        invariant forall k :: k in failures ==> k < i && NeedsTerminate(before[k])
      {
        TerminateTargetsStep(before, i);
        var process := activeProcesses[i];
        if process.Some? && process.value.returncode.None? {
          terminateCalls := terminateCalls + [i];
          // Whether the OS call raises is not under the program's control.
          var raised: bool :| true;
          if raised {
            failures := failures + [i];
          } else {
            activeProcesses := activeProcesses[i := Terminated(process)];
          }
        }
        i := i + 1;
      }
      assert before[..i] == before;
    }

    /** The agent's `signal_handler`: runs the same once-only cleanup and
        exits with status 0. */
    method SignalHandler() returns (status: int, failures: seq<nat>)
      modifies this
      ensures status == 0 && cleanupCalled
      ensures old(cleanupCalled) ==>
                activeProcesses == old(activeProcesses) && terminateCalls == old(terminateCalls) && failures == []
      ensures !old(cleanupCalled) ==>
                && terminateCalls == old(terminateCalls) + TerminateTargets(old(activeProcesses))
                && CleanedUp(old(activeProcesses), activeProcesses, failures)
    {
      failures := CleanupProcesses();
      status := 0;
    }
  }

  /** The client subclass that records each server process it starts. */
  class ProcessTrackingClient {
    const tracker: ProcessTracker
    const connections: seq<NamedServer>
    /** Set in `__init__` and never used afterwards. */
    var serverProcesses: seq<Handle>
    /** Stands for the client library's own session state, which `close` ends. */
    var closed: bool

    constructor (tracker: ProcessTracker, connections: seq<NamedServer>)
      ensures this.tracker == tracker && this.connections == connections
      ensures serverProcesses == [] && !closed
    {
      this.tracker := tracker;
      this.connections := connections;
      serverProcesses := [];
      closed := false;
    }

    /** `_start_server`: `proc` is the handle the library's own start routine
        returned; it is appended to the tracked list and returned. */
    method StartServer(name: string, proc: Handle) returns (p: Handle)
      modifies tracker
      ensures p == proc
      ensures tracker.activeProcesses == old(tracker.activeProcesses) + [proc]
      ensures tracker.cleanupCalled == old(tracker.cleanupCalled)
      ensures tracker.terminateCalls == old(tracker.terminateCalls)
    {
      tracker.activeProcesses := tracker.activeProcesses + [proc];
      p := proc;
    }

    /** `close`: ends the library session and leaves the tracked list alone,
        so cleanup can still reach every started process. */
    method Close()
      modifies this
      ensures closed
      ensures serverProcesses == old(serverProcesses)
      ensures tracker.activeProcesses == old(tracker.activeProcesses)
    {
      closed := true;
    }
  }

  /** Servers started one after another are tracked in start order, and
      closing the client keeps them all. */
  method StartThenClose(client: ProcessTrackingClient, first: Handle, second: Handle)
    modifies client, client.tracker
    ensures client.tracker.activeProcesses == old(client.tracker.activeProcesses) + [first, second]
  {
    var p1 := client.StartServer("weather", first);
    var p2 := client.StartServer("tavily", second);
    client.Close();
  }

  /** The three triggers (the `finally` block, `atexit`, the signal handler)
      together call `terminate()` on each running process exactly once. */
  method AllTriggersTerminateOnce(tracker: ProcessTracker)
    modifies tracker
    requires !tracker.cleanupCalled
    ensures tracker.terminateCalls == old(tracker.terminateCalls) + TerminateTargets(old(tracker.activeProcesses))
  {
    var fromFinally := tracker.CleanupProcesses();
    var fromAtexit := tracker.CleanupProcesses();
    var status, fromSignal := tracker.SignalHandler();
  }

  // ---------------------------------------------------------------------
  // Server configuration

  datatype ServerConfig = ServerConfig(
    command: string,
    args: seq<string>,
    transport: string,
    env: map<string, string>)

  datatype NamedServer = NamedServer(name: string, config: ServerConfig)

  /** `os.environ.get(key, default)`. */
  function EnvGet(env: map<string, string>, key: string, default: string): (v: string)
    ensures key in env ==> v == env[key]
    ensures key !in env ==> v == default
  {
    if key in env then env[key] else default
  }

  const LaunchHead: string := "import sys; sys.path.insert(0, '"
  const LaunchMiddle: string := "'); from mcpserver."
  const LaunchTail: string := " import run_server; run_server()"

  /** The `-c` program that puts `srcDir` first on the import path and runs
      `run_server` from `mcpserver.<moduleName>`. */
  function LaunchCode(srcDir: string, moduleName: string): (code: string)
    ensures |code| == |LaunchHead| + |srcDir| + |LaunchMiddle| + |moduleName| + |LaunchTail|
    // Both the source directory and the module can be read back from the program.
    ensures code[|LaunchHead|..|LaunchHead| + |srcDir|] == srcDir
    ensures code[|LaunchHead| + |srcDir| + |LaunchMiddle|..|code| - |LaunchTail|] == moduleName
  {
    var code := LaunchHead + srcDir + LaunchMiddle + moduleName + LaunchTail;
    assert code[|LaunchHead|..|LaunchHead| + |srcDir|] == srcDir;
    assert code[|LaunchHead| + |srcDir| + |LaunchMiddle|..|code| - |LaunchTail|] == moduleName;
    code
  }

  /** One stdio server run by `python -c`. */
  function StdioServer(python: string, srcDir: string, moduleName: string, env: map<string, string>)
    : (c: ServerConfig)
    ensures c.transport == "stdio" && c.command == python && c.env == env
    ensures |c.args| == 2 && c.args[0] == "-c" && c.args[1] == LaunchCode(srcDir, moduleName)
  {
    ServerConfig(python, ["-c", LaunchCode(srcDir, moduleName)], "stdio", env)
  }

  /** The configuration handed to the client, in dictionary order. */
  function ServerConfigs(python: string, srcDir: string, apiKey: string, path: string, home: string)
    : (cs: seq<NamedServer>)
    ensures |cs| == 3 && cs[0].name == "weather" && cs[1].name == "tavily" && cs[2].name == "math"
    ensures forall i :: 0 <= i < |cs| ==> cs[i].config.transport == "stdio"
    ensures forall i :: 0 <= i < |cs| ==> ("TAVILY_API_KEY" in cs[i].config.env <==> i == 1)
  {
    [ NamedServer("weather", StdioServer(python, srcDir, "weather", map["PYTHONPATH" := srcDir])),
      NamedServer("tavily", StdioServer(python, srcDir, "tavily",
        map["TAVILY_API_KEY" := apiKey, "PATH" := path, "HOME" := home, "PYTHONPATH" := srcDir])),
      NamedServer("math", StdioServer(python, srcDir, "math_server", map["PYTHONPATH" := srcDir])) ]
  }

  /** Exactly `weather`, `tavily` and `math`, all over stdio; only `tavily`
      receives the API key, PATH and HOME, the others get PYTHONPATH alone. */
  lemma ServerConfigsShape(python: string, srcDir: string, apiKey: string, path: string, home: string)
    ensures var cs := ServerConfigs(python, srcDir, apiKey, path, home);
      && |cs| == 3
      && cs[0].name == "weather" && cs[1].name == "tavily" && cs[2].name == "math"
      && (forall i :: 0 <= i < |cs| ==>
            cs[i].config.transport == "stdio" && cs[i].config.command == python
            && |cs[i].config.args| == 2 && cs[i].config.args[0] == "-c"
            && "PYTHONPATH" in cs[i].config.env && cs[i].config.env["PYTHONPATH"] == srcDir)
      && cs[0].config.args[1] == LaunchCode(srcDir, "weather")
      && cs[1].config.args[1] == LaunchCode(srcDir, "tavily")
      && cs[2].config.args[1] == LaunchCode(srcDir, "math_server")
      && cs[0].config.env.Keys == {"PYTHONPATH"}
      && cs[2].config.env.Keys == {"PYTHONPATH"}
      && cs[1].config.env.Keys == {"TAVILY_API_KEY", "PATH", "HOME", "PYTHONPATH"}
      && cs[1].config.env["TAVILY_API_KEY"] == apiKey
      && cs[1].config.env["PATH"] == path && cs[1].config.env["HOME"] == home
  {
  }

  /** The key the agent passes on is the one the search server starts with. */
  lemma TavilyServerGetsKey(python: string, srcDir: string, apiKey: string, path: string, home: string)
    requires apiKey != ""
    ensures Tavily.RunServer(ServerConfigs(python, srcDir, apiKey, path, home)[1].config.env)
              == Tavily.Serving(apiKey)
  {
  }

  // ---------------------------------------------------------------------
  // run_agent and main

  const NotConfiguredMessage: string :=
    "Tavily API key is not configured. Please set TAVILY_API_KEY in your .env file."
  const CancelledMessage: string := "Operation cancelled by user."
  /** What `[-1]` on an empty list raises. */
  const IndexErrorMessage: string := "list index out of range"

  /** What happened once the client was entered, as far as `run_agent` can tell. */
  datatype SessionEvent =
    | AgentAnswered(messages: seq<string>)  // `ainvoke` returned these message contents
    | InputInterrupted                      // KeyboardInterrupt inside the `try`
    | InputEnded                            // EOFError from `input`
    | StartupInterrupted                    // KeyboardInterrupt outside the `try`
    | SessionFailed(error: string)          // any other exception

  /** How `run_agent` ended, as `main` sees it. */
  datatype RunOutcome = Returned(text: string) | KeyboardInterruptRaised | ExceptionRaised(error: string)

  /** `servers` is the configuration given to the client, None when no client was created. */
  datatype AgentRun = AgentRun(outcome: RunOutcome, servers: Option<seq<NamedServer>>)

  /** `run_agent`. */
  function RunAgent(env: map<string, string>, python: string, srcDir: string, session: SessionEvent)
    : (r: AgentRun)
    // A missing or empty key returns the message without creating a client.
    ensures r.servers.None? <==> EnvGet(env, "TAVILY_API_KEY", "") == ""
    ensures r.servers.None? ==> r.outcome == Returned(NotConfiguredMessage)
    ensures r.servers.Some? ==>
              r.servers.value == ServerConfigs(python, srcDir, env["TAVILY_API_KEY"],
                                               EnvGet(env, "PATH", ""), EnvGet(env, "HOME", ""))
    // Interrupted or ended input is a normal return with the cancel message.
    ensures r.servers.Some? && (session.InputInterrupted? || session.InputEnded?) ==>
              r.outcome == Returned(CancelledMessage)
    // Otherwise a normal return is the content of the last agent message.
    ensures r.servers.Some? && session.AgentAnswered? && session.messages != [] ==>
              r.outcome == Returned(session.messages[|session.messages| - 1])
    // A KeyboardInterrupt outside the `try` and every other exception propagate;
    // so does the IndexError of `[-1]` on an empty message list.
    ensures r.servers.Some? && session.StartupInterrupted? ==> r.outcome == KeyboardInterruptRaised
    ensures r.servers.Some? && session.SessionFailed? ==> r.outcome == ExceptionRaised(session.error)
    ensures r.servers.Some? && session == AgentAnswered([]) ==> r.outcome == ExceptionRaised(IndexErrorMessage)
    ensures r.servers.Some? && r.outcome.Returned? ==>
              session.InputInterrupted? || session.InputEnded? || (session.AgentAnswered? && session.messages != [])
  {
    var apiKey := EnvGet(env, "TAVILY_API_KEY", "");
    if apiKey == "" then AgentRun(Returned(NotConfiguredMessage), None)
    else
      var servers := ServerConfigs(python, srcDir, apiKey, EnvGet(env, "PATH", ""), EnvGet(env, "HOME", ""));
      var outcome :=
        match session
        case AgentAnswered(messages) =>
          if messages == [] then ExceptionRaised(IndexErrorMessage)
          else Returned(messages[|messages| - 1])
        case InputInterrupted => Returned(CancelledMessage)
        case InputEnded => Returned(CancelledMessage)
        case StartupInterrupted => KeyboardInterruptRaised
        case SessionFailed(e) => ExceptionRaised(e);
      AgentRun(outcome, Some(servers))
  }

  /** The exit status `main` returns for each way `run_agent` can end. */
  function ExitCode(o: RunOutcome): (code: int)
    ensures code == 0 <==> o.Returned?
    ensures code == 130 <==> o.KeyboardInterruptRaised?
    ensures code == 1 <==> o.ExceptionRaised?
  {
    match o
    case Returned(_) => 0
    case KeyboardInterruptRaised => 130
    case ExceptionRaised(_) => 1
  }

  /** The processes `main` adds to the tracked list: those the client
      started, or none when no client was created. */
  function StartedBy(run: AgentRun, started: seq<Handle>): (s: seq<Handle>)
    ensures run.servers.None? ==> s == []
    ensures run.servers.Some? ==> s == started
  {
    if run.servers.Some? then started else []
  }

  /** `main`: run the agent, map the outcome to an exit status, and call
      cleanup on every path. `started` are the handles the client library
      produced while `run_agent` was inside `async with`; each reaches
      `_start_server`, so the final cleanup sees them. `failures` are the
      positions whose `terminate()` raised. */
  method EntryPoint(tracker: ProcessTracker, env: map<string, string>, python: string, srcDir: string,
                    session: SessionEvent, started: seq<Handle>)
    returns (code: int, failures: seq<nat>)
    modifies tracker
    ensures code == ExitCode(RunAgent(env, python, srcDir, session).outcome)
    ensures tracker.cleanupCalled
    // Cleanup already ran: the started processes are tracked and left untouched.
    ensures old(tracker.cleanupCalled) ==>
              && tracker.activeProcesses
                   == old(tracker.activeProcesses) + StartedBy(RunAgent(env, python, srcDir, session), started)
              && tracker.terminateCalls == old(tracker.terminateCalls)
              && failures == []
    // First cleanup: the old list followed by the started processes, each
    // running one sent `terminate()` exactly once and marked unless it raised.
    ensures !old(tracker.cleanupCalled) ==>
              var all := old(tracker.activeProcesses) + StartedBy(RunAgent(env, python, srcDir, session), started);
              && tracker.terminateCalls == old(tracker.terminateCalls) + TerminateTargets(all)
              && CleanedUp(all, tracker.activeProcesses, failures)
  {
    var run := RunAgent(env, python, srcDir, session);
    if run.servers.Some? {
      var client := new ProcessTrackingClient(tracker, run.servers.value);
      var i := 0;
      while i < |started|
        invariant 0 <= i <= |started|
        invariant client.tracker == tracker
        invariant tracker.activeProcesses == old(tracker.activeProcesses) + started[..i]
        invariant tracker.cleanupCalled == old(tracker.cleanupCalled)
        invariant tracker.terminateCalls == old(tracker.terminateCalls)
      {
        var p := client.StartServer("", started[i]);
        assert started[..i + 1] == started[..i] + [started[i]];
        i := i + 1;
      }
      assert started[..i] == started;
      client.Close();
    } else {
      assert old(tracker.activeProcesses) + [] == old(tracker.activeProcesses);
    }
    match run.outcome {
      case Returned(_) => code := 0;
      case KeyboardInterruptRaised => code := 130;
      case ExceptionRaised(_) => code := 1;
    }
    failures := tracker.CleanupProcesses();
  }
}
