/**
 * The action proxy itself: the fields the two handlers read and update in
 * place, and `initHandler`, `ExtractAndCompile` and `runHandler` as methods.
 * Each method is proved to do what the functions of `Init` and `Run` say:
 * the same reply on the response writer, the same new fields and the same
 * collaborator calls, so every property proved there holds of the handlers.
 */
module Proxy {
  import opened Wrappers
  import opened Text
  import opened Paths
  import opened VastaiApi
  import Base64
  import opened Effects
  import opened VastaiClient
  import opened Responses
  import opened Init
  import opened Run

  class ActionProxy {
    var initialized: bool
    var env: map<string, string>
    const compiler: string
    var hasExecutor: bool

    constructor (compiler: string, hasExecutor: bool)
      ensures State() == ProxyState(false, map[], compiler, hasExecutor)
    {
      this.initialized := false;
      this.env := map[];
      this.compiler := compiler;
      this.hasExecutor := hasExecutor;
    }

    function State(): ProxyState
      reads this
    {
      ProxyState(initialized, env, compiler, hasExecutor)
    }

    /** Extract into `src`, then move `src` to `bin` or compile into `bin`; the path of `bin/exec` or the error. */
    method ExtractAndCompile(w: World, buf: Bytes, main: string) returns (binFile: string, err: Option<string>, calls: seq<Call>)
      ensures var r := Init.ExtractAndCompile(w, compiler, buf, main);
        && calls == r.calls
        && (err.None? <==> r.binFile.Success?)
        && (err.None? ==> binFile == r.binFile.value)
        && (err.Some? ==> binFile == "" && err.value == r.binFile.error)
    {
      calls := [ExtractAction(buf, "src")];
      var x := w.extract(buf, "src");
      if x.err.Some? {
        return "", x.err, calls;
      }
      if x.file == "" {
        return "", Some(EmptyFilename), calls;
      }
      ExtractedLayout(x.file);
      var placed;
      binFile, err, placed := Place(w, x.file, main);
      calls := calls + placed;
    }

    /** The path surgery on the extracted file, then the move of `src` to `bin` or the compile into `bin` and the check for `bin/exec`. */
    method Place(w: World, file: string, main: string) returns (binFile: string, err: Option<string>, calls: seq<Call>)
      ensures var r := Init.Place(w, compiler, file, main);
        && calls == r.calls
        && (err.None? <==> r.binFile.Success?)
        && (err.None? ==> binFile == r.binFile.value)
        && (err.Some? ==> binFile == "" && err.value == r.binFile.error)
    {
      var dir := Dir(file);
      var parent := Dir(dir);
      var srcDir := Join(parent, "src");
      var binDir := Join(parent, "bin");
      binFile := Join(binDir, "exec");
      calls := [];
      if compiler != "" {
        calls := calls + [IsCompiled(file)];
      }
      if compiler == "" || w.compiled(file) {
        calls := calls + [Rename(srcDir, binDir)];
        return binFile, None, calls;
      }
      calls := calls + [Mkdir(binDir), CompileAction(main, srcDir, binDir)];
      var compileErr := w.compile(main, srcDir, binDir);
      if compileErr.Some? {
        return "", compileErr, calls;
      }
      calls := calls + [Stat(binFile)];
      if !w.binExists(binFile) {
        return "", Some(CannotCompile), calls;
      }
      err := None;
    }

    /**
     * `initHandler`. The stages below decide the reply, which is then written
     * with `sendError` or `sendOK`; no collaborator call touches the writer,
     * so this is the order in which Go writes it.
     */
    method InitHandler(cfg: Config, out: ResponseWriter, w: World, input: InitInput) returns (calls: seq<Call>)
      modifies this, out
      ensures var r := Init.Init(AsWritten, cfg, old(State()), input, w);
        && State() == r.state
        && out.events == old(out.events) + ReplyEvents(r.reply, out.canFlush)
        && calls == r.calls
    {
      var reply;
      reply, calls := Initialize(cfg, w, input);
      SendReply(out, reply);
    }

    /** The once guard, the request, the environment, the payload and the extraction stage, then `Provision`. */
    method Initialize(cfg: Config, w: World, input: InitInput) returns (reply: Reply, calls: seq<Call>)
      modifies this
      ensures Init.Init(AsWritten, cfg, old(State()), input, w) == InitResult(reply, State(), calls)
    {
      calls := [];
      if initialized && !cfg.debugging {
        return Rejected(403, OnceMessage), calls;
      }
      match input
      case ReadFailed(e) =>
        reply := Rejected(400, e);
      case Unparsable(e) =>
        reply := Rejected(400, UnmarshalPrefix + e);
      case Request(req) =>
        if req.code == "" {
          return Rejected(403, NoCodeMessage), calls;
        }
        env := env + req.env;
        var main := req.main;
        if main == "" {
          main := "main";
        }
        var buf: Bytes;
        if req.binary {
          var decoded := Base64.Decode(req.code);
          if decoded.None? {
            return Rejected(400, DecodePrefix + Base64Error), calls;
          }
          buf := decoded.value;
        } else {
          buf := req.code;
        }
        var binFile, err;
        binFile, err, calls := ExtractAndCompile(w, buf, main);
        if err.Some? {
          return Rejected(502, BuildMessage(cfg, err.value)), calls;
        }
        reply, calls := Provision(w, binFile, calls);
    }

    /**
     * The credential checks, the address lookup and its record under
     * `VASTAI_SSH_URL`, then `Deploy`. The SSH-key check tests the instance id
     * a second time, as the handler does.
     */
    method Provision(w: World, bin: string, before: seq<Call>) returns (reply: Reply, calls: seq<Call>)
      requires HasTopFolders(bin)
      modifies this
      ensures Init.Provision(AsWritten, w, old(State()), bin, before) == InitResult(reply, State(), calls)
    {
      calls := before;
      if ApiKey !in env || env[ApiKey] == "" {
        return Rejected(400, ApiKeyMessage), calls;
      }
      var apiKey := env[ApiKey];
      if InstanceId !in env || env[InstanceId] == "" {
        return Rejected(400, InstanceIdMessage), calls;
      }
      var instanceId := env[InstanceId];
      var address, err, found := ExtractSSHAddress(w, apiKey, instanceId);
      calls := calls + found;
      if err.Some? {
        return Rejected(502, ResolveMessage), calls;
      }
      env := env[SshUrl := address];
      if SshKey !in env || instanceId == "" {
        return Rejected(400, SshKeyMessage), calls;
      }
      reply, calls := Deploy(w, bin, address, env[SshKey], calls);
    }

    /** Connect, create the folders, transfer, unzip; initialized only after all four. */
    method Deploy(w: World, bin: string, address: string, key: string, before: seq<Call>) returns (reply: Reply, calls: seq<Call>)
      requires HasTopFolders(bin)
      modifies this
      ensures Init.Deploy(w, old(State()), bin, address, key, before) == InitResult(reply, State(), calls)
    {
      var err, made := ConnectSSH(w, address, key);
      calls := before + made;
      if err.Some? {
        return Rejected(502, ConnectMessage), calls;
      }
      err, made := CreateActionFoldersSSH(w, bin);
      calls := calls + made;
      if err.Some? {
        return Rejected(502, FoldersMessage), calls;
      }
      err, made := ScpTransfer(w, bin);
      calls := calls + made;
      if err.Some? {
        return Rejected(502, TransferMessage), calls;
      }
      err, made := UnzipRemote(w, bin);
      calls := calls + made;
      if err.Some? {
        return Rejected(502, UnzipMessage), calls;
      }
      initialized := true;
      reply := Accepted;
    }

    /**
     * `runHandler`: read and strip the body, launch the action, then send the
     * error it stopped with, or check the executor's answer and send it.
     */
    method RunHandler(out: ResponseWriter, w: World, input: RunInput) returns (calls: seq<Call>)
      modifies this, out
      ensures var r := Run.Run(old(State()), input, w, out.canFlush, out.reply);
        && State() == r.state
        && out.events == old(out.events) + r.events
        && calls == r.calls
    {
      match input
      case BodyFailed(e) =>
        calls := [];
        SendError(out, 400, ReadPrefix + e);
      case Body(data) =>
        ghost var st := State();
        var body := StripNewlines(data);
        var response, refusal;
        response, refusal, calls := LaunchAction(w, body);
        RunOfBody(st, data, w, out.canFlush, out.reply);
        if refusal.Some? {
          SendError(out, refusal.value.code, refusal.value.cause);
          return;
        }
        SendAnswer(out, response, w.parse(response));
    }

    /**
     * Ask the executor, connect with the address and key in the environment,
     * open a session (closed on return) and run the command; a failed run
     * drops the executor.
     */
    method LaunchAction(w: World, body: Bytes) returns (response: Bytes, refusal: Option<Refusal>, calls: seq<Call>)
      modifies this
      ensures response == w.interact(body)
      ensures Launch(old(State()), body, w) == Launched(refusal, State(), calls)
    {
      response := w.interact(body);
      calls := [Interact(body)];
      var err, made := ConnectSSH(w, EnvValue(env, SshUrl), EnvValue(env, SshKey));
      calls := calls + made;
      if err.Some? {
        return response, Some(Refusal(502, RunConnectMessage)), calls;
      }
      var cmd := RunCommand(body);
      var sessionErr := w.session(cmd);
      if sessionErr.Some? {
        calls := calls + [NewSession(cmd)];
        return response, Some(Refusal(502, SessionMessage)), calls;
      }
      var ran := w.run(cmd);
      calls := calls + [NewSession(cmd), RunRemote(cmd), CloseSession(cmd)];
      if ran.err.Some? {
        hasExecutor := false;
        return response, Some(Refusal(400, ExitedMessage)), calls;
      }
      refusal := None;
    }
  }

  /** `sendError` with the status and the cause, or `sendOK`. */
  method SendReply(out: ResponseWriter, reply: Reply)
    modifies out
    ensures out.events == old(out.events) + ReplyEvents(reply, out.canFlush)
  {
    match reply
    case Rejected(code, cause) => SendError(out, code, cause);
    case Accepted => SendOK(out);
  }

  /** The check that the answer is an object or an array, the write, the flush and the diagnostics. */
  method SendAnswer(out: ResponseWriter, response: Bytes, parsed: Option<Json.Json>)
    modifies out
    ensures out.events == old(out.events) + Answer(response, parsed, out.canFlush, out.reply)
  {
    if !Acceptable(parsed) {
      SendError(out, 502, NotJsonMessage);
      return;
    }
    var written, err := SendPayload(out, response);
    if err.Some? {
      SendError(out, 500, WritePrefix + err.value);
      return;
    }
    if written != |response| {
      SendError(out, 500, ShortWriteMessage(written, |response|));
    }
  }

  /** The headers, the payload and the flush; what the write returned. */
  method SendPayload(out: ResponseWriter, response: Bytes) returns (written: nat, err: Option<string>)
    modifies out
    ensures out.events == old(out.events) + JsonEvents(response, out.canFlush)
    ensures WriteReply(written, err) == out.reply(response)
  {
    out.SetHeader(ContentType, ApplicationJson);
    out.SetHeader(ContentLength, Decimal(|response|));
    written, err := out.Write(response);
    if out.canFlush {
      out.Flush();
    }
  }
}
