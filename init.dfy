/**
 * What `initHandler` decides, as a function of the proxy's state, the request
 * and the collaborators: the reply, the new state and the calls made. The
 * handler is a chain of guarded early returns; the stages below follow it.
 */
module Init {
  import opened Wrappers
  import opened Text
  import opened Paths
  import Base64
  import opened VastaiApi
  import opened Effects
  import opened VastaiClient
  import opened Responses

  /** The `value` of an init request, with the environment's values as strings. */
  datatype InitBody = InitBody(code: string, binary: bool, main: string, env: map<string, string>)

  /** The request body: unreadable, rejected by the JSON decoder (with its message), or decoded. */
  datatype InitInput = ReadFailed(err: string) | Unparsable(err: string) | Request(value: InitBody)

  /** The package flag `Debugging`, and whether `OW_LOG_INIT_ERROR` is set. */
  datatype Config = Config(debugging: bool, logInitError: bool)

  /** The fields of the action proxy the handlers read and write. */
  datatype ProxyState = ProxyState(initialized: bool, env: map<string, string>, compiler: string, hasExecutor: bool)

  /** What the handler answers: `sendError` with a status and a cause, or `sendOK`. */
  datatype Reply = Rejected(code: int, cause: string) | Accepted

  function ReplyEvents(r: Reply, canFlush: bool): seq<WriterEvent> {
    match r
    case Rejected(code, cause) => ErrorEvents(code, cause)
    case Accepted => OkEvents(canFlush)
  }

  datatype InitResult = InitResult(reply: Reply, state: ProxyState, calls: seq<Call>)

  const OnceMessage := "Cannot initialize the action more than once."
  const UnmarshalPrefix := "Error unmarshaling request: "
  const NoCodeMessage := "Missing main/no code to execute."
  const DecodePrefix := "cannot decode the request: "
  const Base64Error := "illegal base64 data at input byte "
  const EmptyFilename := "empty filename"
  const CannotCompile := "cannot compile"
  const LoggedBuildMessage := "The action failed to generate or locate a binary. See logs for details."

  const ApiKey := "OPS_VASTAI_API_KEY"
  const InstanceId := "OPS_VASTAI_INSTANCE_ID"
  const SshKey := "OPS_VASTAI_SSH_KEY"
  const SshUrl := "VASTAI_SSH_URL"

  const ApiKeyMessage := "Vast.ai API key not found (use -p OPS_VASTAI_API_KEY api_key when creating the action.)"
  const InstanceIdMessage := "Vast.ai Instance ID not found (use -p OPS_VASTAI_INSTANCE_ID instance_id when creating the action.)"
  const SshKeyMessage := "Vast.ai SSH key not found (use -p OPS_VASTAI_SSH_KEY ssh_key when creating the action.)"
  const ResolveMessage := "Error connecting to Vast.ai. Check logs for details."
  const ConnectMessage := "Error connecting to Vast.ai. Make sure the instance ID and SSH key are set correctly. Check logs for details."
  const FoldersMessage := "Error creating action folder in Vast.ai. Check logs for details."
  const TransferMessage := "Error transferring action to Vast.ai. Check logs for details."
  const UnzipMessage := "Error unzipping action in Vast.ai. Check logs for details."

  /** The entry point handed to the compiler. */
  function MainOf(req: InitBody): (m: string)
    ensures m != ""
    ensures req.main != "" ==> m == req.main
    ensures req.main == "" ==> m == "main"
  {
    if req.main == "" then "main" else req.main
  }

  /** The bytes to extract: the code itself, or its base64 decoding when `binary` is set. */
  function Payload(req: InitBody): (r: Result<Bytes, string>)
    ensures !req.binary ==> r == Success(req.code)
    ensures req.binary ==> (r.Success? <==> Base64.Decode(req.code).Some?)
    ensures req.binary && r.Success? ==> Base64.Decode(req.code) == Some(r.value)
  {
    if !req.binary then Success(req.code)
    else match Base64.Decode(req.code)
      case Some(b) => Success(b)
      case None => Failure(Base64Error)
  }

  /** The calls of the extraction stage: only the local file system and the compiler. */
  predicate Local(c: Call) {
    c.ExtractAction? || c.IsCompiled? || c.Rename? || c.Mkdir? || c.CompileAction? || c.Stat?
  }

  datatype Built = Built(binFile: Result<string, string>, calls: seq<Call>)

  /**
   * `ExtractAndCompile`: extract into `src`, then either rename `src` to `bin`
   * or compile into `bin` and check that `bin/exec` exists. A path it returns
   * has the two segments the folder command needs.
   */
  function ExtractAndCompile(w: World, compiler: string, buf: Bytes, main: string): (r: Built)
    ensures r.binFile.Success? ==> IsClean(r.binFile.value) && HasTopFolders(r.binFile.value)
    ensures forall c :: c in r.calls ==> Local(c)
  {
    var x := w.extract(buf, "src");
    if x.err.Some? then Built(Failure(x.err.value), [ExtractAction(buf, "src")])
    else if x.file == "" then Built(Failure(EmptyFilename), [ExtractAction(buf, "src")])
    else
      ExtractedLayout(x.file);
      var p := Place(w, compiler, x.file, main);
      Built(p.binFile, [ExtractAction(buf, "src")] + p.calls)
  }

  /** The path surgery on the extracted file, and the choice between renaming and compiling. */
  function Place(w: World, compiler: string, file: string, main: string): (r: Built)
    ensures forall c :: c in r.calls ==> Local(c)
    ensures r.binFile.Success? ==> r.binFile.value == BinFile(Dir(Dir(file)))
  {
    var parent := Dir(Dir(file));
    var srcDir, binDir := Join(parent, "src"), Join(parent, "bin");
    var binFile := BinFile(parent);
    var probe := if compiler == "" then [] else [IsCompiled(file)];
    if compiler == "" || w.compiled(file) then Built(Success(binFile), probe + [Rename(srcDir, binDir)])
    else
      var compiling := probe + [Mkdir(binDir), CompileAction(main, srcDir, binDir)];
      var e := w.compile(main, srcDir, binDir);
      if e.Some? then Built(Failure(e.value), compiling)
      else if !w.binExists(binFile) then Built(Failure(CannotCompile), compiling + [Stat(binFile)])
      else Built(Success(binFile), compiling + [Stat(binFile)])
  }

  /** The executable path derived from a clean extracted file is clean, has two segments, and zips its grandparent. */
  lemma ExtractedLayout(file: string)
    requires IsClean(file)
    ensures var parent := Dir(Dir(file));
      IsClean(BinFile(parent)) && HasTopFolders(BinFile(parent)) && ZipRoot(BinFile(parent)) == parent
  {
    DirIsClean(file);
    DirIsClean(Dir(file));
    ArtifactLayout(Dir(Dir(file)));
  }

  /** The 502 cause of a failed extraction: the error itself, or a pointer to the logs. */
  function BuildMessage(cfg: Config, e: string): string {
    if cfg.logInitError then LoggedBuildMessage else e
  }

  /** A credential that is present and not empty. */
  predicate Provided(env: map<string, string>, key: string) {
    key in env && env[key] != ""
  }

  /** The SSH-key guard as written: it tests that the key is present, and then the instance id instead of the key. */
  predicate SshKeyRejectedAsWritten(env: map<string, string>, instanceId: string) {
    SshKey !in env || instanceId == ""
  }

  /** The SSH-key guard as the other two credential checks are written. */
  predicate SshKeyRejected(env: map<string, string>) {
    !Provided(env, SshKey)
  }

  /**
   * Which SSH-key guard the handler runs: the one written at that point of
   * `initHandler`, which tests the instance id again, or the one the other two
   * credential checks suggest, which tests the key.
   */
  datatype Guard = AsWritten | Corrected

  /** Whether the SSH-key guard refuses, given the instance id read by the check before it. */
  predicate KeyRefused(g: Guard, env: map<string, string>, instanceId: string) {
    match g
    case AsWritten => SshKeyRejectedAsWritten(env, instanceId)
    case Corrected => SshKeyRejected(env)
  }

  /** The condition on the SSH key under which the guard lets the init go on, once the instance id is known to be set. */
  predicate KeyPasses(g: Guard, env: map<string, string>) {
    SshKey in env && (g.Corrected? ==> env[SshKey] != "")
  }

  function Init(g: Guard, cfg: Config, st: ProxyState, input: InitInput, w: World): InitResult {
    if st.initialized && !cfg.debugging then InitResult(Rejected(403, OnceMessage), st, [])
    else match input
      case ReadFailed(e) => InitResult(Rejected(400, e), st, [])
      case Unparsable(e) => InitResult(Rejected(400, UnmarshalPrefix + e), st, [])
      case Request(req) =>
        if req.code == "" then InitResult(Rejected(403, NoCodeMessage), st, [])
        else
          var merged := st.(env := st.env + req.env);
          match Payload(req)
          case Failure(e) => InitResult(Rejected(400, DecodePrefix + e), merged, [])
          case Success(buf) =>
            var b := ExtractAndCompile(w, st.compiler, buf, MainOf(req));
            match b.binFile
            case Failure(e) => InitResult(Rejected(502, BuildMessage(cfg, e)), merged, b.calls)
            case Success(bin) => Provision(g, w, merged, bin, b.calls)
  }

  /** The credential checks, then the address lookup. */
  function Provision(g: Guard, w: World, st: ProxyState, bin: string, calls: seq<Call>): InitResult
    requires HasTopFolders(bin)
  {
    if !Provided(st.env, ApiKey) then InitResult(Rejected(400, ApiKeyMessage), st, calls)
    else if !Provided(st.env, InstanceId) then InitResult(Rejected(400, InstanceIdMessage), st, calls)
    else Record(g, w, st, bin, ResolveAddress(w, st.env[ApiKey], st.env[InstanceId]), calls)
  }

  /** The address found recorded under `VASTAI_SSH_URL`, the SSH-key check, then `Deploy`. */
  function Record(g: Guard, w: World, st: ProxyState, bin: string, found: Resolved, calls: seq<Call>): InitResult
    requires HasTopFolders(bin) && Provided(st.env, InstanceId)
  {
    var resolved := calls + found.calls;
    match found.address
    case Failure(_) => InitResult(Rejected(502, ResolveMessage), st, resolved)
    case Success(address) =>
      var stored := st.(env := st.env[SshUrl := address]);
      if KeyRefused(g, stored.env, st.env[InstanceId]) then InitResult(Rejected(400, SshKeyMessage), stored, resolved)
      else Deploy(w, stored, bin, address, stored.env[SshKey], resolved)
  }

  /** Connect, create the folders, transfer and unzip; the proxy is initialized only after all four. */
  function Deploy(w: World, st: ProxyState, bin: string, address: string, key: string, calls: seq<Call>): InitResult
    requires HasTopFolders(bin)
  {
    var c := Exec(w, ConnectPlan(address, key));
    if c.err.Some? then InitResult(Rejected(502, ConnectMessage), st, calls + c.calls)
    else
      var f := Exec(w, FoldersPlan(w, bin));
      if f.err.Some? then InitResult(Rejected(502, FoldersMessage), st, calls + c.calls + f.calls)
      else
        var t := Exec(w, TransferPlan(bin));
        if t.err.Some? then InitResult(Rejected(502, TransferMessage), st, calls + c.calls + f.calls + t.calls)
        else
          var u := Exec(w, UnzipPlan(bin));
          if u.err.Some? then InitResult(Rejected(502, UnzipMessage), st, calls + c.calls + f.calls + t.calls + u.calls)
          else InitResult(Accepted, st.(initialized := true), calls + c.calls + f.calls + t.calls + u.calls)
  }

  // ---------------------------------------------------------------------------
  // Properties of the extraction stage

  /**
   * The extraction comes first; its errors and an empty file name stop the
   * stage after the extraction alone.
   */
  lemma ExtractFailureStops(w: World, compiler: string, buf: Bytes, main: string)
    ensures var x, r := w.extract(buf, "src"), ExtractAndCompile(w, compiler, buf, main);
      && |r.calls| >= 1 && r.calls[0] == ExtractAction(buf, "src")
      && (x.err.Some? ==> r == Built(Failure(x.err.value), [ExtractAction(buf, "src")]))
      && (x.err.None? && x.file == "" ==> r == Built(Failure(EmptyFilename), [ExtractAction(buf, "src")]))
  {
  }

  /** A path returned is `bin/exec` under the directory two levels above the extracted file, and zips that directory. */
  lemma ExtractedPath(w: World, compiler: string, buf: Bytes, main: string)
    ensures var x, r := w.extract(buf, "src"), ExtractAndCompile(w, compiler, buf, main);
      var parent := Dir(Dir(x.file));
      r.binFile.Success? ==> r.binFile.value == BinFile(parent) && ZipRoot(r.binFile.value) == parent
  {
    var x := w.extract(buf, "src");
    if x.err.None? && x.file != "" {
      ExtractedLayout(x.file);
    }
  }

  /**
   * Without a compiler, or for a compiled file, `src` is renamed to `bin` and
   * nothing is compiled; otherwise the entry point is compiled from `src`
   * into `bin`, and after a clean compile a missing executable is "cannot
   * compile". The file is probed with `isCompiled` exactly when a compiler
   * is set, and `bin/exec` is looked up only after a clean compile.
   */
  lemma ExtractAndCompileCases(w: World, compiler: string, buf: Bytes, main: string)
    ensures var x, r := w.extract(buf, "src"), ExtractAndCompile(w, compiler, buf, main);
      var parent := Dir(Dir(x.file));
      && (x.err.None? && x.file != "" && (compiler == "" || w.compiled(x.file)) ==>
            && r.binFile == Success(BinFile(parent))
            && Rename(Join(parent, "src"), Join(parent, "bin")) in r.calls
            && (IsCompiled(x.file) in r.calls <==> compiler != "")
            && forall c :: c in r.calls ==> !c.CompileAction? && !c.Stat?)
      && (x.err.None? && x.file != "" && compiler != "" && !w.compiled(x.file) ==>
            && IsCompiled(x.file) in r.calls
            && CompileAction(main, Join(parent, "src"), Join(parent, "bin")) in r.calls
            && (Stat(BinFile(parent)) in r.calls <==> w.compile(main, Join(parent, "src"), Join(parent, "bin")).None?)
            && (w.compile(main, Join(parent, "src"), Join(parent, "bin")).None? && !w.binExists(BinFile(parent)) ==>
                  r.binFile == Failure(CannotCompile)))
  {
    var x := w.extract(buf, "src");
    if x.err.None? && x.file != "" {
      if compiler == "" || w.compiled(x.file) {
        RenameBranch(w, compiler, buf, main);
      } else {
        CompileBranch(w, compiler, buf, main);
      }
    }
  }

  lemma RenameBranch(w: World, compiler: string, buf: Bytes, main: string)
    requires w.extract(buf, "src").err.None? && w.extract(buf, "src").file != ""
    requires compiler == "" || w.compiled(w.extract(buf, "src").file)
    ensures var x, r := w.extract(buf, "src"), ExtractAndCompile(w, compiler, buf, main);
      var parent := Dir(Dir(x.file));
      && r.binFile == Success(BinFile(parent))
      && Rename(Join(parent, "src"), Join(parent, "bin")) in r.calls
      && (IsCompiled(x.file) in r.calls <==> compiler != "")
      && forall c :: c in r.calls ==> !c.CompileAction? && !c.Stat?
  {
    var x := w.extract(buf, "src");
    PlaceCases(w, compiler, x.file, main);
    var r, parent := ExtractAndCompile(w, compiler, buf, main), Dir(Dir(x.file));
    var rename := Rename(Join(parent, "src"), Join(parent, "bin"));
    if compiler == "" {
      assert r.calls == [ExtractAction(buf, "src"), rename];
    } else {
      assert r.calls == [ExtractAction(buf, "src"), IsCompiled(x.file), rename];
    }
  }

  lemma CompileBranch(w: World, compiler: string, buf: Bytes, main: string)
    requires w.extract(buf, "src").err.None? && w.extract(buf, "src").file != ""
    requires compiler != "" && !w.compiled(w.extract(buf, "src").file)
    ensures var x, r := w.extract(buf, "src"), ExtractAndCompile(w, compiler, buf, main);
      var parent := Dir(Dir(x.file));
      var srcDir, binDir := Join(parent, "src"), Join(parent, "bin");
      && IsCompiled(x.file) in r.calls
      && CompileAction(main, srcDir, binDir) in r.calls
      && (Stat(BinFile(parent)) in r.calls <==> w.compile(main, srcDir, binDir).None?)
      && (w.compile(main, srcDir, binDir).None? && !w.binExists(BinFile(parent)) ==> r.binFile == Failure(CannotCompile))
  {
    var x := w.extract(buf, "src");
    PlaceCases(w, compiler, x.file, main);
    var r, parent := ExtractAndCompile(w, compiler, buf, main), Dir(Dir(x.file));
    var srcDir, binDir := Join(parent, "src"), Join(parent, "bin");
    var compiling := [ExtractAction(buf, "src"), IsCompiled(x.file), Mkdir(binDir), CompileAction(main, srcDir, binDir)];
    if w.compile(main, srcDir, binDir).None? {
      assert r.calls == compiling + [Stat(BinFile(parent))];
    } else {
      assert r.calls == compiling;
    }
  }

  /**
   * Renaming without a compiler or for a compiled file; otherwise making
   * `bin` and compiling, and, after a clean compile only, looking up the
   * executable. The file is probed exactly when there is a compiler.
   */
  lemma PlaceCases(w: World, compiler: string, file: string, main: string)
    ensures var r, parent := Place(w, compiler, file, main), Dir(Dir(file));
      var srcDir, binDir := Join(parent, "src"), Join(parent, "bin");
      && (compiler == "" ==> r == Built(Success(BinFile(parent)), [Rename(srcDir, binDir)]))
      && (compiler != "" && w.compiled(file) ==> r == Built(Success(BinFile(parent)), [IsCompiled(file), Rename(srcDir, binDir)]))
      && (compiler != "" && !w.compiled(file) ==>
            var compiling := [IsCompiled(file), Mkdir(binDir), CompileAction(main, srcDir, binDir)];
            && (w.compile(main, srcDir, binDir).Some? ==> r == Built(Failure(w.compile(main, srcDir, binDir).value), compiling))
            && (w.compile(main, srcDir, binDir).None? ==>
                  && r.calls == compiling + [Stat(BinFile(parent))]
                  && r.binFile == if w.binExists(BinFile(parent)) then Success(BinFile(parent)) else Failure(CannotCompile)))
  {
  }

  // ---------------------------------------------------------------------------
  // Properties of the handler

  /** Once initialized, and outside debugging, a second init is refused with 403 and changes nothing. */
  lemma InitOnlyOnce(g: Guard, cfg: Config, st: ProxyState, input: InitInput, w: World)
    requires st.initialized && !cfg.debugging
    ensures Init(g, cfg, st, input, w) == InitResult(Rejected(403, OnceMessage), st, [])
  {
  }

  /** Empty code is refused with 403 before the environment is merged, anything is decoded or anything is called. */
  lemma EmptyCodeRefused(g: Guard, cfg: Config, st: ProxyState, req: InitBody, w: World)
    requires !(st.initialized && !cfg.debugging) && req.code == ""
    ensures Init(g, cfg, st, Request(req), w) == InitResult(Rejected(403, NoCodeMessage), st, [])
  {
  }

  /** The proxy has not changed before the JSON decoding succeeds. */
  lemma UnreadableRequestRefused(g: Guard, cfg: Config, st: ProxyState, input: InitInput, w: World)
    requires !(st.initialized && !cfg.debugging) && !input.Request?
    ensures var r := Init(g, cfg, st, input, w);
      && r.state == st && r.calls == []
      && r.reply == Rejected(400, if input.ReadFailed? then input.err else UnmarshalPrefix + input.err)
  {
  }

  /**
   * Past the first checks: a body that does not decode is refused with 400
   * before extraction; otherwise the extraction stage runs first on the
   * payload with the defaulted entry point, and its failure is a 502.
   */
  lemma InitDecodesThenBuilds(g: Guard, cfg: Config, st: ProxyState, req: InitBody, w: World)
    requires !(st.initialized && !cfg.debugging) && req.code != ""
    ensures var r, merged := Init(g, cfg, st, Request(req), w), st.(env := st.env + req.env);
      && (Payload(req).Failure? ==> r == InitResult(Rejected(400, DecodePrefix + Base64Error), merged, []))
      && (Payload(req).Success? ==>
            var b := ExtractAndCompile(w, st.compiler, Payload(req).value, MainOf(req));
            && |b.calls| <= |r.calls| && r.calls[..|b.calls|] == b.calls
            && r.calls[0] == ExtractAction(Payload(req).value, "src")
            && (b.binFile.Failure? ==> r == InitResult(Rejected(502, BuildMessage(cfg, b.binFile.error)), merged, b.calls)))
  {
    if Payload(req).Success? {
      var merged := st.(env := st.env + req.env);
      var b := ExtractAndCompile(w, st.compiler, Payload(req).value, MainOf(req));
      assert b.calls[0] == ExtractAction(Payload(req).value, "src") by {
        ExtractFailureStops(w, st.compiler, Payload(req).value, MainOf(req));
      }
      if b.binFile.Success? {
        assert Init(g, cfg, st, Request(req), w) == Provision(g, w, merged, b.binFile.value, b.calls);
        ProvisionCalls(g, w, merged, b.binFile.value, b.calls);
      }
    }
  }

  /**
   * When the handler compiles, what it compiles is the request's `main`, or
   * `"main"` when the request gives none.
   */
  lemma InitCompilesEntryPoint(g: Guard, cfg: Config, st: ProxyState, req: InitBody, w: World)
    requires !(st.initialized && !cfg.debugging) && req.code != "" && Payload(req).Success?
    requires w.extract(Payload(req).value, "src").err.None? && w.extract(Payload(req).value, "src").file != ""
    requires st.compiler != "" && !w.compiled(w.extract(Payload(req).value, "src").file)
    ensures var parent := Dir(Dir(w.extract(Payload(req).value, "src").file));
      var entry := if req.main == "" then "main" else req.main;
      CompileAction(entry, Join(parent, "src"), Join(parent, "bin")) in Init(g, cfg, st, Request(req), w).calls
  {
    var r := Init(g, cfg, st, Request(req), w);
    var b := ExtractAndCompile(w, st.compiler, Payload(req).value, MainOf(req));
    var parent := Dir(Dir(w.extract(Payload(req).value, "src").file));
    var c := CompileAction(MainOf(req), Join(parent, "src"), Join(parent, "bin"));
    InitDecodesThenBuilds(g, cfg, st, req, w);
    ExtractAndCompileCases(w, st.compiler, Payload(req).value, MainOf(req));
    var i :| 0 <= i < |b.calls| && b.calls[i] == c;
    assert r.calls[i] == r.calls[..|b.calls|][i];
  }

  /** Every deployment step succeeds. */
  predicate Deployed(w: World, address: string, key: string, bin: string)
    requires HasTopFolders(bin)
  {
    && Exec(w, ConnectPlan(address, key)).err.None?
    && Exec(w, FoldersPlan(w, bin)).err.None?
    && Exec(w, TransferPlan(bin)).err.None?
    && Exec(w, UnzipPlan(bin)).err.None?
  }

  /** Calls of the deployment stage, in which only the given key is parsed and only the given address dialled, as root. */
  predicate DeployTrace(calls: seq<Call>, address: string, key: string) {
    forall c :: c in calls ==>
      && DeployCall(c)
      && (c.ParsePrivateKey? ==> c.key == key)
      && (c.Dial? ==> c.address == address && c.user == "root")
  }

  lemma DeployTraceAppend(a: seq<Call>, b: seq<Call>, address: string, key: string)
    requires DeployTrace(a, address, key) && DeployTrace(b, address, key)
    ensures DeployTrace(a + b, address, key)
  {
  }

  /**
   * The deployment stage leaves the environment alone, answers 502 on any
   * failure, accepts exactly when all four steps succeed, and marks the proxy
   * initialized only then.
   */
  lemma DeployOutcome(w: World, st: ProxyState, bin: string, address: string, key: string, calls: seq<Call>)
    requires HasTopFolders(bin)
    ensures var r := Deploy(w, st, bin, address, key, calls);
      && r.state == st.(initialized := st.initialized || r.reply.Accepted?)
      && (r.reply.Accepted? <==> Deployed(w, address, key, bin))
      && (r.reply.Rejected? ==> r.reply.code == 502)
  {
  }

  /**
   * The deployment steps run in order until one fails: each failure answers
   * 502 with that step's own message, and the trace then ends with that
   * step's calls, so no later step runs.
   */
  lemma DeploySteps(w: World, st: ProxyState, bin: string, address: string, key: string, calls: seq<Call>)
    requires HasTopFolders(bin)
    ensures var r := Deploy(w, st, bin, address, key, calls);
      var c, f := Exec(w, ConnectPlan(address, key)), Exec(w, FoldersPlan(w, bin));
      var t, u := Exec(w, TransferPlan(bin)), Exec(w, UnzipPlan(bin));
      && (c.err.Some? ==> r.reply == Rejected(502, ConnectMessage) && r.calls == calls + c.calls)
      && (c.err.None? && f.err.Some? ==> r.reply == Rejected(502, FoldersMessage) && r.calls == calls + c.calls + f.calls)
      && (c.err.None? && f.err.None? && t.err.Some? ==>
            r.reply == Rejected(502, TransferMessage) && r.calls == calls + c.calls + f.calls + t.calls)
      && (c.err.None? && f.err.None? && t.err.None? ==>
            && r.reply == (if u.err.Some? then Rejected(502, UnzipMessage) else Accepted)
            && r.calls == calls + c.calls + f.calls + t.calls + u.calls)
  {
  }

  lemma DeployAppends(w: World, st: ProxyState, bin: string, address: string, key: string, calls: seq<Call>)
    requires HasTopFolders(bin)
    ensures var r := Deploy(w, st, bin, address, key, calls);
      && |calls| <= |r.calls| && r.calls[..|calls|] == calls
      && DeployTrace(r.calls[|calls|..], address, key)
  {
    var c, f := Exec(w, ConnectPlan(address, key)), Exec(w, FoldersPlan(w, bin));
    var t, u := Exec(w, TransferPlan(bin)), Exec(w, UnzipPlan(bin));
    assert DeployTrace(c.calls, address, key) by {
      ConnectCalls(w, address, key);
    }
    assert DeployTrace(f.calls, address, key) by {
      FoldersCalls(w, bin);
    }
    assert DeployTrace(t.calls, address, key) by {
      TransferCalls(w, bin);
    }
    assert DeployTrace(u.calls, address, key) by {
      UnzipCalls(w, bin);
    }
    var rest := ChainCalls(c, f, t, u);
    ChainTrace(c, f, t, u, address, key);
    assert Deploy(w, st, bin, address, key, calls).calls == calls + rest;
    assert (calls + rest)[|calls|..] == rest;
  }

  /** The calls of the deployment steps that ran, given their outcomes in order. */
  function ChainCalls(c: Outcome, f: Outcome, t: Outcome, u: Outcome): seq<Call> {
    if c.err.Some? then c.calls
    else if f.err.Some? then c.calls + f.calls
    else if t.err.Some? then c.calls + f.calls + t.calls
    else c.calls + f.calls + t.calls + u.calls
  }

  lemma ChainTrace(c: Outcome, f: Outcome, t: Outcome, u: Outcome, address: string, key: string)
    requires DeployTrace(c.calls, address, key) && DeployTrace(f.calls, address, key)
    requires DeployTrace(t.calls, address, key) && DeployTrace(u.calls, address, key)
    ensures DeployTrace(ChainCalls(c, f, t, u), address, key)
  {
    DeployTraceAppend(c.calls, f.calls, address, key);
    DeployTraceAppend(c.calls + f.calls, t.calls, address, key);
    DeployTraceAppend(c.calls + f.calls + t.calls, u.calls, address, key);
  }

  /**
   * What a call made from the credential checks on may be, given the
   * environment they read and the one left behind: the provider is queried
   * with both credentials in its URL, the key parsed is the environment's
   * SSH key (never an empty one under the corrected guard), and the address
   * dialled is the one recorded.
   */
  predicate Gated(g: Guard, c: Call, env: map<string, string>, after: map<string, string>) {
    && !Local(c)
    && (c.HttpGet? ==> Provided(env, ApiKey) && Provided(env, InstanceId) && c.url == ProviderUrl(env[InstanceId], env[ApiKey]))
    && (c.ParsePrivateKey? ==> SshKey in env && c.key == env[SshKey] && (g.Corrected? ==> c.key != ""))
    && (c.Dial? ==> c.user == "root" && SshUrl in after && after[SshUrl] == c.address)
  }

  predicate AllGated(g: Guard, calls: seq<Call>, env: map<string, string>, after: map<string, string>) {
    forall c :: c in calls ==> Gated(g, c, env, after)
  }

  /**
   * From the credential checks on, calls are only appended, and each is
   * gated as `Gated` says.
   */
  lemma ProvisionCalls(g: Guard, w: World, st: ProxyState, bin: string, calls: seq<Call>)
    requires HasTopFolders(bin)
    ensures var r := Provision(g, w, st, bin, calls);
      && |calls| <= |r.calls| && r.calls == calls + r.calls[|calls|..]
      && AllGated(g, r.calls[|calls|..], st.env, r.state.env)
      && (!Provided(st.env, ApiKey) || !Provided(st.env, InstanceId) ==> r.calls == calls && r.reply.Rejected? && r.reply.code == 400)
  {
    if Provided(st.env, ApiKey) && Provided(st.env, InstanceId) {
      var url := ProviderUrl(st.env[InstanceId], st.env[ApiKey]);
      var found := ResolveAddress(w, st.env[ApiKey], st.env[InstanceId]);
      assert found.calls == [HttpGet(url)];
      RecordCalls(g, w, st, bin, found, calls);
      var r := Record(g, w, st, bin, found, calls);
      assert Provision(g, w, st, bin, calls) == r;
      assert Gated(g, HttpGet(url), st.env, r.state.env);
      var rest := r.calls[|calls + found.calls|..];
      DropPrefix(calls, [HttpGet(url)], rest);
      GatedCons(g, HttpGet(url), rest, st.env, r.state.env);
    }
  }

  /**
   * The refusals from the credential checks on: a missing or empty API key
   * or instance id is a 400 with its own message and no call at all; a
   * failed lookup is the 502 after the single GET; and an SSH key the guard
   * refuses is the 400 after that GET, with the address already stored.
   */
  lemma ProvisionRefusals(g: Guard, w: World, st: ProxyState, bin: string, calls: seq<Call>)
    requires HasTopFolders(bin)
    ensures var r := Provision(g, w, st, bin, calls);
      && (!Provided(st.env, ApiKey) ==> r == InitResult(Rejected(400, ApiKeyMessage), st, calls))
      && (Provided(st.env, ApiKey) && !Provided(st.env, InstanceId) ==> r == InitResult(Rejected(400, InstanceIdMessage), st, calls))
      && (Provided(st.env, ApiKey) && Provided(st.env, InstanceId) ==>
            var found := ResolveAddress(w, st.env[ApiKey], st.env[InstanceId]);
            var after := calls + [HttpGet(ProviderUrl(st.env[InstanceId], st.env[ApiKey]))];
            && (found.address.Failure? ==> r == InitResult(Rejected(502, ResolveMessage), st, after))
            && (found.address.Success? && !KeyPasses(g, st.env) ==>
                  r == InitResult(Rejected(400, SshKeyMessage), st.(env := st.env[SshUrl := found.address.value]), after)))
  {
    if Provided(st.env, ApiKey) && Provided(st.env, InstanceId) {
      var found := ResolveAddress(w, st.env[ApiKey], st.env[InstanceId]);
      assert found.calls == [HttpGet(ProviderUrl(st.env[InstanceId], st.env[ApiKey]))];
      if found.address.Success? {
        var stored := st.env[SshUrl := found.address.value];
        assert !KeyRefused(g, stored, st.env[InstanceId]) <==> KeyPasses(g, st.env);
      }
    }
  }

  /**
   * The same refusals on the whole handler, once the action is built: the
   * credentials are those of the merged environment, and the calls before
   * them are the extraction stage's.
   */
  lemma CredentialRefusals(g: Guard, cfg: Config, st: ProxyState, req: InitBody, w: World)
    requires !(st.initialized && !cfg.debugging) && req.code != "" && Payload(req).Success?
    requires ExtractAndCompile(w, st.compiler, Payload(req).value, MainOf(req)).binFile.Success?
    ensures var r, b := Init(g, cfg, st, Request(req), w), ExtractAndCompile(w, st.compiler, Payload(req).value, MainOf(req));
      var merged := st.(env := st.env + req.env);
      var env := merged.env;
      && (!Provided(env, ApiKey) ==> r == InitResult(Rejected(400, ApiKeyMessage), merged, b.calls))
      && (Provided(env, ApiKey) && !Provided(env, InstanceId) ==> r == InitResult(Rejected(400, InstanceIdMessage), merged, b.calls))
      && (Provided(env, ApiKey) && Provided(env, InstanceId) ==>
            var found := ResolveAddress(w, env[ApiKey], env[InstanceId]);
            var after := b.calls + [HttpGet(ProviderUrl(env[InstanceId], env[ApiKey]))];
            && (found.address.Failure? ==> r == InitResult(Rejected(502, ResolveMessage), merged, after))
            && (found.address.Success? && !KeyPasses(g, env) ==>
                  r == InitResult(Rejected(400, SshKeyMessage), merged.(env := env[SshUrl := found.address.value]), after)))
  {
    var merged := st.(env := st.env + req.env);
    var b := ExtractAndCompile(w, st.compiler, Payload(req).value, MainOf(req));
    assert Init(g, cfg, st, Request(req), w) == Provision(g, w, merged, b.binFile.value, b.calls);
    ProvisionRefusals(g, w, merged, b.binFile.value, b.calls);
  }

  lemma DropPrefix(a: seq<Call>, b: seq<Call>, c: seq<Call>)
    ensures (a + b + c)[|a|..] == b + c
  {
  }

  lemma GatedCons(g: Guard, first: Call, rest: seq<Call>, env: map<string, string>, after: map<string, string>)
    requires Gated(g, first, env, after) && AllGated(g, rest, env, after)
    ensures AllGated(g, [first] + rest, env, after)
  {
  }

  /** After the lookup, the calls are those of the deployment stage, gated as `Gated` says. */
  lemma RecordCalls(g: Guard, w: World, st: ProxyState, bin: string, found: Resolved, calls: seq<Call>)
    requires HasTopFolders(bin) && Provided(st.env, InstanceId)
    ensures var r, before := Record(g, w, st, bin, found, calls), calls + found.calls;
      && |before| <= |r.calls| && r.calls == before + r.calls[|before|..]
      && AllGated(g, r.calls[|before|..], st.env, r.state.env)
  {
    var before := calls + found.calls;
    if found.address.Success? {
      var address := found.address.value;
      var stored := st.(env := st.env[SshUrl := address]);
      if !KeyRefused(g, stored.env, st.env[InstanceId]) {
        var key := stored.env[SshKey];
        assert key == st.env[SshKey];
        DeployOutcome(w, stored, bin, address, key, before);
        DeployAppends(w, stored, bin, address, key, before);
        var r := Record(g, w, st, bin, found, calls);
        forall c | c in r.calls[|before|..] ensures Gated(g, c, st.env, r.state.env) {
          assert DeployCall(c);
        }
      }
    }
  }

  /**
   * Every call `initHandler` makes is an extraction-stage call or is gated as
   * `Gated` says against the merged environment: the provider is queried
   * only with both credentials present and carries them in its URL, the only
   * key parsed is the environment's SSH key (under the corrected guard never
   * an empty one), and the address dialled is the one left in
   * `VASTAI_SSH_URL`.
   */
  lemma InitCalls(g: Guard, cfg: Config, st: ProxyState, input: InitInput, w: World)
    ensures var r := Init(g, cfg, st, input, w);
      forall c :: c in r.calls ==> input.Request? && (Local(c) || Gated(g, c, st.env + input.value.env, r.state.env))
  {
    var r := Init(g, cfg, st, input, w);
    if !(st.initialized && !cfg.debugging) && input.Request? && input.value.code != "" && Payload(input.value).Success? {
      var req := input.value;
      var merged := st.(env := st.env + req.env);
      var b := ExtractAndCompile(w, st.compiler, Payload(req).value, MainOf(req));
      if b.binFile.Success? {
        assert r == Provision(g, w, merged, b.binFile.value, b.calls);
        ProvisionCalls(g, w, merged, b.binFile.value, b.calls);
        forall c | c in r.calls ensures Gated(g, c, merged.env, r.state.env) || Local(c) {
          assert c in b.calls || c in r.calls[|b.calls|..];
        }
      }
    }
  }

  /** `initialized` becomes true exactly on an accepted init; the compiler and the executor are never touched. */
  lemma InitState(g: Guard, cfg: Config, st: ProxyState, input: InitInput, w: World)
    ensures var r := Init(g, cfg, st, input, w);
      && r.state.initialized == (st.initialized || r.reply.Accepted?)
      && r.state.compiler == st.compiler && r.state.hasExecutor == st.hasExecutor
  {
    if !(st.initialized && !cfg.debugging) && input.Request? && input.value.code != "" && Payload(input.value).Success? {
      var req := input.value;
      var merged := st.(env := st.env + req.env);
      var b := ExtractAndCompile(w, st.compiler, Payload(req).value, MainOf(req));
      if b.binFile.Success? {
        ProvisionState(g, w, merged, b.binFile.value, b.calls);
      }
    }
  }

  /** The SSH address the provider returns for the environment's credentials, when both are set and the lookup succeeds. */
  function Resolution(w: World, env: map<string, string>): Option<string> {
    if Provided(env, ApiKey) && Provided(env, InstanceId) then
      match ResolveAddress(w, env[ApiKey], env[InstanceId]).address
      case Success(a) => Some(a)
      case Failure(_) => None
    else None
  }

  /** The environment with the resolved address recorded, if there is one. */
  function WithAddress(env: map<string, string>, address: Option<string>): map<string, string> {
    match address
    case Some(a) => env[SshUrl := a]
    case None => env
  }

  /**
   * From the credential checks on, `initialized` turns true only on
   * acceptance, and the environment gains exactly the resolved address under
   * `VASTAI_SSH_URL`, whatever happens after the lookup.
   */
  lemma ProvisionState(g: Guard, w: World, st: ProxyState, bin: string, calls: seq<Call>)
    requires HasTopFolders(bin)
    ensures var r := Provision(g, w, st, bin, calls);
      && r.state.initialized == (st.initialized || r.reply.Accepted?)
      && r.state.compiler == st.compiler && r.state.hasExecutor == st.hasExecutor
      && r.state.env == WithAddress(st.env, Resolution(w, st.env))
  {
    if Provided(st.env, ApiKey) && Provided(st.env, InstanceId) {
      RecordState(g, w, st, bin, ResolveAddress(w, st.env[ApiKey], st.env[InstanceId]), calls);
    }
  }

  lemma RecordState(g: Guard, w: World, st: ProxyState, bin: string, found: Resolved, calls: seq<Call>)
    requires HasTopFolders(bin) && Provided(st.env, InstanceId)
    ensures var r := Record(g, w, st, bin, found, calls);
      && r.state.initialized == (st.initialized || r.reply.Accepted?)
      && r.state.compiler == st.compiler && r.state.hasExecutor == st.hasExecutor
      && (found.address.Success? ==> r.state.env == st.env[SshUrl := found.address.value])
      && (found.address.Failure? ==> r.state.env == st.env)
  {
    if found.address.Success? {
      var address := found.address.value;
      var stored := st.(env := st.env[SshUrl := address]);
      if !KeyRefused(g, stored.env, st.env[InstanceId]) {
        DeployOutcome(w, stored, bin, address, stored.env[SshKey], calls + found.calls);
      }
    }
  }

  /**
   * Once the code is accepted for decoding, the request's environment is
   * merged into the proxy's and stays there whatever fails later. The only
   * other change is the address the provider resolved, recorded under
   * `VASTAI_SSH_URL` whenever the action was built and the lookup succeeded,
   * even when the SSH key or a deployment step then fails.
   */
  lemma EnvPersists(g: Guard, cfg: Config, st: ProxyState, req: InitBody, w: World)
    requires !(st.initialized && !cfg.debugging) && req.code != ""
    ensures var r, merged := Init(g, cfg, st, Request(req), w), st.env + req.env;
      var built := Payload(req).Success? && ExtractAndCompile(w, st.compiler, Payload(req).value, MainOf(req)).binFile.Success?;
      r.state.env == if built then WithAddress(merged, Resolution(w, merged)) else merged
  {
    var merged := st.(env := st.env + req.env);
    if Payload(req).Success? {
      var b := ExtractAndCompile(w, st.compiler, Payload(req).value, MainOf(req));
      if b.binFile.Success? {
        ProvisionState(g, w, merged, b.binFile.value, b.calls);
      }
    }
  }

  /**
   * The conditions under which `initHandler` accepts, all at once: a request
   * that may initialize, with code that decodes and builds, the API key and
   * the instance id present and not empty, an SSH key the guard lets through,
   * an address the provider resolves, and every deployment step succeeding.
   */
  predicate Ready(g: Guard, cfg: Config, st: ProxyState, input: InitInput, w: World) {
    && !(st.initialized && !cfg.debugging)
    && input.Request?
    && input.value.code != ""
    && Payload(input.value).Success?
    && var b := ExtractAndCompile(w, st.compiler, Payload(input.value).value, MainOf(input.value));
      var env := st.env + input.value.env;
      && b.binFile.Success?
      && Provided(env, ApiKey) && Provided(env, InstanceId) && KeyPasses(g, env)
      && var found := ResolveAddress(w, env[ApiKey], env[InstanceId]);
        && found.address.Success?
        && Deployed(w, found.address.value, env[SshKey], b.binFile.value)
  }

  /** `initHandler` answers `{"ok":true}` exactly when every guard and every step passes. */
  lemma InitAcceptsIffReady(g: Guard, cfg: Config, st: ProxyState, input: InitInput, w: World)
    ensures Init(g, cfg, st, input, w).reply.Accepted? <==> Ready(g, cfg, st, input, w)
  {
    if !(st.initialized && !cfg.debugging) && input.Request? && input.value.code != "" && Payload(input.value).Success? {
      var req := input.value;
      var merged := st.(env := st.env + req.env);
      var b := ExtractAndCompile(w, st.compiler, Payload(req).value, MainOf(req));
      if b.binFile.Success? {
        assert Init(g, cfg, st, input, w) == Provision(g, w, merged, b.binFile.value, b.calls);
        ProvisionAccepts(g, w, merged, b.binFile.value, b.calls);
      }
    }
  }

  /**
   * Past extraction, the init is accepted exactly when the API key and the
   * instance id are there, the SSH key passes the guard, the address resolves
   * and every deployment step succeeds.
   */
  lemma ProvisionAccepts(g: Guard, w: World, st: ProxyState, bin: string, calls: seq<Call>)
    requires HasTopFolders(bin)
    ensures Provision(g, w, st, bin, calls).reply.Accepted? <==>
      && Provided(st.env, ApiKey) && Provided(st.env, InstanceId) && KeyPasses(g, st.env)
      && var found := ResolveAddress(w, st.env[ApiKey], st.env[InstanceId]);
        found.address.Success? && Deployed(w, found.address.value, st.env[SshKey], bin)
  {
    if Provided(st.env, ApiKey) && Provided(st.env, InstanceId) {
      RecordAccepts(g, w, st, bin, ResolveAddress(w, st.env[ApiKey], st.env[InstanceId]), calls);
    }
  }

  lemma RecordAccepts(g: Guard, w: World, st: ProxyState, bin: string, found: Resolved, calls: seq<Call>)
    requires HasTopFolders(bin) && Provided(st.env, InstanceId)
    ensures Record(g, w, st, bin, found, calls).reply.Accepted? <==>
      && found.address.Success? && KeyPasses(g, st.env)
      && Deployed(w, found.address.value, st.env[SshKey], bin)
  {
    if found.address.Success? {
      var address := found.address.value;
      var stored := st.(env := st.env[SshUrl := address]);
      assert !KeyRefused(g, stored.env, st.env[InstanceId]) <==> KeyPasses(g, st.env);
      if KeyPasses(g, st.env) {
        assert stored.env[SshKey] == st.env[SshKey];
        DeployOutcome(w, stored, bin, address, stored.env[SshKey], calls + found.calls);
      }
    }
  }

  /** As written, the SSH-key guard lets a present but empty key through, where the other two guards would refuse it. */
  lemma SshKeyGuardAsWrittenPassesEmptyKey()
    ensures var env := map[ApiKey := "k", InstanceId := "i", SshKey := ""];
      && Provided(env, ApiKey) && Provided(env, InstanceId)
      && !SshKeyRejectedAsWritten(env, env[InstanceId])
      && SshKeyRejected(env)
  {
    var env := map[ApiKey := "k", InstanceId := "i", SshKey := ""];
    assert env[InstanceId] == "i";
  }

  /**
   * Past the instance-id check, the guard as written only tests that the key
   * is present, so it refuses strictly less than the corrected guard: exactly
   * the present, empty keys slip through.
   */
  lemma SshKeyGuardsCompared(env: map<string, string>)
    requires Provided(env, InstanceId)
    ensures SshKeyRejectedAsWritten(env, env[InstanceId]) <==> SshKey !in env
    ensures SshKeyRejectedAsWritten(env, env[InstanceId]) ==> SshKeyRejected(env)
    ensures SshKeyRejected(env) && !SshKeyRejectedAsWritten(env, env[InstanceId]) <==> SshKey in env && env[SshKey] == ""
  {
  }

  /**
   * With a present but empty SSH key and an address resolved, the handler as
   * written parses the key `""`, and answers with the connect 502 when it does
   * not parse; the corrected guard answers the SSH-key 400 instead, right
   * after the lookup, without parsing any key.
   */
  lemma EmptyKeyReachesConnect(w: World, st: ProxyState, bin: string, calls: seq<Call>)
    requires HasTopFolders(bin)
    requires Provided(st.env, ApiKey) && Provided(st.env, InstanceId) && SshKey in st.env && st.env[SshKey] == ""
    requires ResolveAddress(w, st.env[ApiKey], st.env[InstanceId]).address.Success?
    ensures var r := Provision(AsWritten, w, st, bin, calls);
      && ParsePrivateKey("") in r.calls
      && (w.parseKey("").Some? ==> r.reply == Rejected(502, ConnectMessage))
    ensures var r := Provision(Corrected, w, st, bin, calls);
      && r.reply == Rejected(400, SshKeyMessage)
      && r.calls == calls + ResolveAddress(w, st.env[ApiKey], st.env[InstanceId]).calls
  {
    var found := ResolveAddress(w, st.env[ApiKey], st.env[InstanceId]);
    var address := found.address.value;
    var stored := st.(env := st.env[SshUrl := address]);
    assert stored.env[SshKey] == "";
    assert Provision(AsWritten, w, st, bin, calls) == Deploy(w, stored, bin, address, "", calls + found.calls);
    DeployParsesKey(w, stored, bin, address, "", calls + found.calls);
  }

  /** The deployment parses the key it is given first, and a key that does not parse is the connect 502. */
  lemma DeployParsesKey(w: World, st: ProxyState, bin: string, address: string, key: string, calls: seq<Call>)
    requires HasTopFolders(bin)
    ensures var r := Deploy(w, st, bin, address, key, calls);
      && ParsePrivateKey(key) in r.calls
      && (w.parseKey(key).Some? ==> r.reply == Rejected(502, ConnectMessage))
  {
    ConnectOrder(w, address, key);
    var c := Exec(w, ConnectPlan(address, key));
    var r := Deploy(w, st, bin, address, key, calls);
    assert c.calls[0] == ParsePrivateKey(key);
    assert r.calls[|calls|] == ParsePrivateKey(key) by {
      DeployAppends(w, st, bin, address, key, calls);
      assert r.calls == calls + r.calls[|calls|..];
      if c.err.None? {
        assert Deploy(w, st, bin, address, key, calls).calls[..|calls| + |c.calls|] == calls + c.calls;
      }
    }
  }
}
