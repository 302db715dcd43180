/** The sclang side of src/context.ts: the launch options `processOptions`
    builds, the nullable `sclangProcess` handle, and the bookkeeping of the
    stdout and exit handlers that `serverOptions` installs once the UDP reader
    socket is bound. Spawning is opaque: a spawned process records its launch
    options and whether it was killed, and the pid the operating system returns
    is a parameter. */
module Context {
  import opened Text
  import opened Wrappers

  /** The stdout text that announces the language server is listening. */
  const LspReadyMarker := "***LSP READY***"

  const LspEnableKey := "SCLANG_LSP_ENABLE"
  const LspServerPortKey := "SCLANG_LSP_SERVERPORT"
  const LspClientPortKey := "SCLANG_LSP_CLIENTPORT"
  const LspLogLevelKey := "SCLANG_LSP_LOGLEVEL"

  /** The workspace settings `processOptions` reads. */
  datatype Configuration = Configuration(
    sclangCmd: string,
    sclangArgs: seq<string>,
    sclangEnvironment: map<string, string>,
    confYaml: string,
    readPort: nat,
    writePort: nat,
    logLevel: string)

  /** `{command, args, options}`; of the spawn options only `env` is set. */
  datatype LaunchOptions = LaunchOptions(command: string, args: seq<string>, env: map<string, string>)

  /** The configured arguments, in order, followed by `-i vscode -l <confYaml>`. */
  function LaunchArgs(c: Configuration): (r: seq<string>)
    ensures |r| == |c.sclangArgs| + 4
    ensures forall i :: 0 <= i < |c.sclangArgs| ==> r[i] == c.sclangArgs[i]
    ensures r[|c.sclangArgs|..] == ["-i", "vscode", "-l", c.confYaml]
  {
    c.sclangArgs + ["-i", "vscode", "-l", c.confYaml]
  }

  /** The four variables that switch on sclang's language server. */
  function LspVariables(c: Configuration): (r: map<string, string>)
    ensures r.Keys == {LspEnableKey, LspServerPortKey, LspClientPortKey, LspLogLevelKey}
  {
    map[LspEnableKey := "1",
        LspServerPortKey := NatToString(c.readPort),
        LspClientPortKey := NatToString(c.writePort),
        LspLogLevelKey := c.logLevel]
  }

  /** The environment after the four assignments and `Object.assign(env, sclangEnv)`:
      exactly the inherited, language-server and configured variables, the
      configured ones overriding everything and every other inherited one
      passed through unchanged. */
  function LaunchEnvironment(base: map<string, string>, c: Configuration): (r: map<string, string>)
    ensures r.Keys == base.Keys + {LspEnableKey, LspServerPortKey, LspClientPortKey, LspLogLevelKey} + c.sclangEnvironment.Keys
    ensures forall k :: k in c.sclangEnvironment ==> r[k] == c.sclangEnvironment[k]
    ensures forall k :: k in base && k !in c.sclangEnvironment
              && k != LspEnableKey && k != LspServerPortKey && k != LspClientPortKey && k != LspLogLevelKey
              ==> r[k] == base[k]
  {
    (base + LspVariables(c)) + c.sclangEnvironment
  }

  /** Four successive updates of a map are one merge of the four entries. */
  lemma UpdatesAsMerge<K, V>(m: map<K, V>, k1: K, v1: V, k2: K, v2: V, k3: K, v3: V, k4: K, v4: V)
    ensures m[k1 := v1][k2 := v2][k3 := v3][k4 := v4] == m + map[k1 := v1, k2 := v2, k3 := v3, k4 := v4]
  {
  }

  /** Unless overridden, the language-server variables carry `1`, the decimal
      ports and the log level, and the port texts read back as the ports. */
  lemma LspVariablesSet(base: map<string, string>, c: Configuration)
    requires LspEnableKey !in c.sclangEnvironment && LspServerPortKey !in c.sclangEnvironment
    requires LspClientPortKey !in c.sclangEnvironment && LspLogLevelKey !in c.sclangEnvironment
    ensures var env := LaunchEnvironment(base, c);
            && env[LspEnableKey] == "1"
            && env[LspServerPortKey] == NatToString(c.readPort)
            && DecimalValue(env[LspServerPortKey]) == c.readPort
            && env[LspClientPortKey] == NatToString(c.writePort)
            && DecimalValue(env[LspClientPortKey]) == c.writePort
            && env[LspLogLevelKey] == c.logLevel
  {
    DecimalRoundTrip(c.readPort);
    DecimalRoundTrip(c.writePort);
  }

  /** `process.env`: one object that `processOptions` updates in place. */
  class ProcessEnvironment {
    var vars: map<string, string>

    constructor (vars: map<string, string>)
      ensures this.vars == vars
    {
      this.vars := vars;
    }
  }

  /** A spawned sclang: its launch options, the pid the system gave it
      (`None` when there is none), and whether `kill()` was called. */
  class SclangProcess {
    const launch: LaunchOptions
    const pid: Option<nat>
    var killed: bool

    constructor (launch: LaunchOptions, pid: Option<nat>)
      ensures this.launch == launch && this.pid == pid && !killed
    {
      this.launch := launch;
      this.pid := pid;
      killed := false;
    }

    method Kill()
      modifies this
      ensures killed
    {
      killed := true;
    }
  }

  /** JavaScript truthiness of `pid`: absent and `0` are both falsy. */
  predicate HasPid(pid: Option<nat>)
  {
    pid.Some? && pid.value != 0
  }

  class SuperColliderContext {
    var sclangProcess: SclangProcess?

    constructor ()
      ensures sclangProcess == null
    {
      sclangProcess := null;
    }

    /** `processOptions()`: sets the four language-server variables on the
        shared environment, merges the configured ones into it, and returns the
        launch options. */
    method ProcessOptions(c: Configuration, env: ProcessEnvironment) returns (options: LaunchOptions)
      modifies env
      ensures env.vars == LaunchEnvironment(old(env.vars), c)
      ensures options == LaunchOptions(c.sclangCmd, LaunchArgs(c), env.vars)
    {
      UpdatesAsMerge(env.vars, LspEnableKey, "1", LspServerPortKey, NatToString(c.readPort),
                     LspClientPortKey, NatToString(c.writePort), LspLogLevelKey, c.logLevel);
      env.vars := env.vars[LspEnableKey := "1"];
      env.vars := env.vars[LspServerPortKey := NatToString(c.readPort)];
      env.vars := env.vars[LspClientPortKey := NatToString(c.writePort)];
      env.vars := env.vars[LspLogLevelKey := c.logLevel];
      env.vars := env.vars + c.sclangEnvironment;
      options := LaunchOptions(c.sclangCmd, c.sclangArgs + ["-i", "vscode", "-l", c.confYaml], env.vars);
    }

    /** `disposeProcess()`: kill and forget the process, if any. */
    method DisposeProcess()
      modifies this, sclangProcess
      ensures sclangProcess == null
      ensures old(sclangProcess) == null ==> unchanged(this)
      ensures old(sclangProcess) != null ==> old(sclangProcess).killed
    {
      if sclangProcess != null {
        sclangProcess.Kill();
        sclangProcess := null;
      }
    }

    /** `createProcess()`: kill the current process, if any, spawn a new one
        with `pid` from the system, and return it, or null when it has no pid.
        The field itself is left as it was. */
    method CreateProcess(c: Configuration, env: ProcessEnvironment, pid: Option<nat>) returns (p: SclangProcess?)
      modifies sclangProcess, env
      ensures sclangProcess == old(sclangProcess)
      ensures old(sclangProcess) != null ==> sclangProcess.killed
      ensures env.vars == LaunchEnvironment(old(env.vars), c)
      ensures p != null <==> HasPid(pid)
      ensures p != null ==> fresh(p) && !p.killed && p.pid == pid
      ensures p != null ==> p.launch == LaunchOptions(c.sclangCmd, LaunchArgs(c), env.vars)
    {
      if sclangProcess != null {
        sclangProcess.Kill();
      }
      var options := ProcessOptions(c, env);
      var spawned := new SclangProcess(options, pid);
      if !HasPid(spawned.pid) {
        return null;
      }
      p := spawned;
    }

    /** The start of `serverOptions`: the field takes the result of
        `createProcess()`, and the closure that follows keeps its own copy. */
    method ServerOptions(c: Configuration, env: ProcessEnvironment, pid: Option<nat>) returns (session: ServerSession)
      modifies this, sclangProcess, env
      ensures old(sclangProcess) != null ==> old(sclangProcess).killed
      ensures env.vars == LaunchEnvironment(old(env.vars), c)
      ensures sclangProcess != null <==> HasPid(pid)
      ensures sclangProcess != null ==> fresh(sclangProcess) && !sclangProcess.killed
      ensures sclangProcess != null ==> sclangProcess.launch == LaunchOptions(c.sclangCmd, LaunchArgs(c), env.vars)
      ensures fresh(session) && session.Valid()
      ensures session.process == sclangProcess && !session.bound
    {
      var p := CreateProcess(c, env, pid);
      sclangProcess := p;
      session := new ServerSession(p);
    }
  }

  /** Whether one stdout chunk carries the readiness marker. */
  predicate ContainsMarker(chunk: string)
    ensures ContainsMarker(chunk) <==> exists i :: OccursAt(chunk, LspReadyMarker, i)
  {
    IndexOf(chunk, LspReadyMarker) != -1
  }

  /** Whether the readiness promise has been resolved after these chunks:
      never before any output, always once a chunk carries the marker, and
      once resolved it stays resolved. */
  function ReadyAfter(chunks: seq<string>): (r: bool)
    ensures r ==> |chunks| > 0
    ensures |chunks| > 0 && ContainsMarker(chunks[|chunks| - 1]) ==> r
    ensures |chunks| > 0 && ReadyAfter(chunks[..|chunks| - 1]) ==> r
    decreases |chunks|
  {
    |chunks| > 0 && (ReadyAfter(chunks[..|chunks| - 1]) || ContainsMarker(chunks[|chunks| - 1]))
  }

  /** Readiness is reached exactly when some single chunk carries the marker. */
  lemma {:induction false} ReadyAfterSomeChunk(chunks: seq<string>)
    ensures ReadyAfter(chunks) <==> exists i :: 0 <= i < |chunks| && ContainsMarker(chunks[i])
    decreases |chunks|
  {
    if |chunks| > 0 {
      var init := chunks[..|chunks| - 1];
      ReadyAfterSomeChunk(init);
      if ReadyAfter(init) {
        var i :| 0 <= i < |init| && ContainsMarker(init[i]);
        assert chunks[i] == init[i];
      }
      if exists i :: 0 <= i < |chunks| && ContainsMarker(chunks[i]) {
        var i :| 0 <= i < |chunks| && ContainsMarker(chunks[i]);
        if i < |init| {
          assert init[i] == chunks[i];
        }
      }
    }
  }

  /** A marker cut in two by the stream is never seen, though the text it
      forms is the marker. */
  lemma MarkerSplitAcrossChunks(a: string, b: string)
    requires a + b == LspReadyMarker && |a| > 0 && |b| > 0
    ensures !ReadyAfter([a, b])
    ensures ContainsMarker(a + b)
  {
    assert !OccursAt(a, LspReadyMarker, IndexOf(a, LspReadyMarker));
    assert !OccursAt(b, LspReadyMarker, IndexOf(b, LspReadyMarker));
    assert [a, b][..1] == [a];
    assert [a][..0] == [];
    assert (a + b)[0..|LspReadyMarker|] == LspReadyMarker;
    assert OccursAt(a + b, LspReadyMarker, 0);
    assert IndexOf(a + b, LspReadyMarker) != -1;
    assert !ContainsMarker(a);
    assert !ContainsMarker(b);
    assert ReadyAfter([a]) == (ReadyAfter([]) || ContainsMarker(a));
  }

  /** How installing the stdout handlers in the bind callback ends: with the
      handlers installed, or with the TypeError of reading `stdout` of the null
      returned for a spawn without pid. */
  datatype BindOutcome = Bound | TypeError

  /** The state the `serverOptions` closure and its handlers share: its copy of
      the process, whether the handlers are installed, whether the readiness
      promise was resolved, the chunks forwarded to the output channel, and how
      often the reader and the writer were disposed. */
  class ServerSession {
    var process: SclangProcess?
    var bound: bool
    var ready: bool
    var output: seq<string>
    var readerDisposals: nat
    var writerDisposals: nat

    /** Readiness reflects the chunks seen, and nothing is seen or disposed
        before the handlers exist. */
    ghost predicate Valid()
      reads this
    {
      && ready == ReadyAfter(output)
      && (!bound ==> output == [] && readerDisposals == 0 && writerDisposals == 0)
    }

    constructor (process: SclangProcess?)
      ensures Valid() && this.process == process && !bound && !ready
      ensures output == [] && readerDisposals == 0 && writerDisposals == 0
    {
      this.process := process;
      bound := false;
      ready := false;
      output := [];
      readerDisposals := 0;
      writerDisposals := 0;
    }

    /** The bind callback: create reader and writer and install the handlers. */
    method OnBind() returns (outcome: BindOutcome)
      requires Valid() && !bound
      modifies this
      ensures Valid()
      ensures outcome == Bound <==> old(process) != null
      ensures bound <==> outcome == Bound
      ensures process == old(process) && output == old(output) && ready == old(ready)
      ensures readerDisposals == old(readerDisposals) && writerDisposals == old(writerDisposals)
    {
      if process == null {
        return TypeError;
      }
      bound := true;
      outcome := Bound;
    }

    /** The `data` handler: resolve when this chunk carries the marker, and
        forward the chunk to the output channel in any case. */
    method OnStdoutData(data: string) returns (resolvedNow: bool)
      requires Valid() && bound
      modifies this
      ensures Valid() && bound
      ensures resolvedNow <==> ContainsMarker(data)
      ensures output == old(output) + [data]
      ensures ready <==> old(ready) || ContainsMarker(data)
      ensures process == old(process)
      ensures readerDisposals == old(readerDisposals) && writerDisposals == old(writerDisposals)
    {
      resolvedNow := IndexOf(data, LspReadyMarker) != -1;
      if resolvedNow {
        ready := true;
      }
      output := output + [data];
      assert output[..|output| - 1] == old(output);
    }

    /** The `end` and `error` handlers: dispose the reader and the writer. */
    method OnStdoutClosed()
      requires Valid() && bound
      modifies this
      ensures Valid() && bound
      ensures readerDisposals == old(readerDisposals) + 1 && writerDisposals == old(writerDisposals) + 1
      ensures process == old(process) && output == old(output) && ready == old(ready)
    {
      readerDisposals := readerDisposals + 1;
      writerDisposals := writerDisposals + 1;
    }

    /** The `exit` handler: clear the closure's process and dispose the reader
        and the writer. */
    method OnExit()
      requires Valid() && bound
      modifies this
      ensures Valid() && bound
      ensures process == null
      ensures readerDisposals == old(readerDisposals) + 1 && writerDisposals == old(writerDisposals) + 1
      ensures output == old(output) && ready == old(ready)
    {
      process := null;
      readerDisposals := readerDisposals + 1;
      writerDisposals := writerDisposals + 1;
    }
  }
}
