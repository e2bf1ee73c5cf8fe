/**
 * What `runHandler` does with a request, as a function of the proxy's state,
 * the body and the collaborators: the calls on the response writer, the new
 * state and the collaborator calls. Also the byte and string transforms it
 * applies: newline stripping, the remote command, and the check that the
 * answer is a JSON object or array.
 */
module Run {
  import opened Wrappers
  import opened Text
  import opened Json
  import opened Effects
  import opened VastaiClient
  import opened Responses
  import opened Init

  /** The request body as `ioutil.ReadAll` leaves it: an error, or the bytes. */
  datatype RunInput = BodyFailed(err: string) | Body(data: Bytes)

  datatype RunResult = RunResult(events: seq<WriterEvent>, state: ProxyState, calls: seq<Call>)

  const ReadPrefix := "Error reading request body: "
  const RunConnectMessage := "Error connecting to Vast.ai. Check logs for details."
  const SessionMessage := "Error creating session to Vast.ai instance. Check logs for details."
  const ExitedMessage := "command exited"
  const NotJsonMessage := "The action did not return a dictionary or array."
  const WritePrefix := "Error writing response: "

  /** `bytes.Replace(body, "\n", "", -1)`. */
  function StripNewlines(s: Bytes): (r: Bytes)
    ensures '\n' !in r
    ensures |r| == |s| - Count(s, '\n')
  {
    if s == [] then [] else (if s[0] == '\n' then [] else [s[0]]) + StripNewlines(s[1..])
  }

  /** The pieces of a list of strings, end to end. */
  function Concat(parts: seq<string>): string {
    if parts == [] then "" else parts[0] + Concat(parts[1..])
  }

  /**
   * Stripping keeps exactly the bytes between the newlines, in their order:
   * it is the concatenation of the pieces `strings.Split` cuts at `\n`.
   */
  lemma {:induction false} StripIsConcatOfPieces(s: Bytes)
    ensures StripNewlines(s) == Concat(Split(s, '\n'))
  {
    if s != [] {
      StripIsConcatOfPieces(s[1..]);
      var rest := Split(s[1..], '\n');
      if s[0] == '\n' {
        assert Split(s, '\n') == [""] + rest;
        ConcatCons("", rest);
      } else {
        assert Split(s, '\n') == [[s[0]] + rest[0]] + rest[1..];
        ConcatCons([s[0]] + rest[0], rest[1..]);
        assert rest == [rest[0]] + rest[1..];
        ConcatCons(rest[0], rest[1..]);
      }
    }
  }

  lemma ConcatCons(first: string, rest: seq<string>)
    ensures Concat([first] + rest) == first + Concat(rest)
  {
    assert ([first] + rest)[1..] == rest;
  }

  /** A body without newlines is left as it is; so stripping twice is stripping once. */
  lemma {:induction false} StripWithoutNewlines(s: Bytes)
    requires '\n' !in s
    ensures StripNewlines(s) == s
  {
    if s != [] {
      assert '\n' !in s[1..];
      StripWithoutNewlines(s[1..]);
      assert [s[0]] + s[1..] == s;
    }
  }

  lemma StripIdempotent(s: Bytes)
    ensures StripNewlines(StripNewlines(s)) == StripNewlines(s)
  {
    StripWithoutNewlines(StripNewlines(s));
  }

  const CommandPrefix := "cd /action && python3 main__.py '"

  /** The command run on the remote node: the body as the single-quoted argument of the action's entry script. */
  function RunCommand(body: Bytes): string {
    CommandPrefix + body + "'"
  }

  /** Reads the body back from a command. */
  function CommandArgument(cmd: string): Option<Bytes> {
    if |cmd| < |CommandPrefix| + 1 || cmd[..|CommandPrefix|] != CommandPrefix || cmd[|cmd| - 1] != '\'' then None
    else Some(cmd[|CommandPrefix|..|cmd| - 1])
  }

  /** The command carries the body unchanged, so distinct bodies give distinct commands. */
  lemma CommandRoundTrip(body: Bytes)
    ensures CommandArgument(RunCommand(body)) == Some(body)
  {
    var cmd := RunCommand(body);
    assert cmd[..|CommandPrefix|] == CommandPrefix;
    assert cmd[|CommandPrefix|..|cmd| - 1] == body;
  }

  /** `json.Unmarshal` into `map[string]*json.RawMessage` succeeds: an object, or `null`. */
  predicate DecodesAsMap(v: Option<Json>) {
    v.Some? && (v.value.JObject? || v.value.JNull?)
  }

  /** `json.Unmarshal` into `[]interface{}` succeeds: an array, or `null`. */
  predicate DecodesAsArray(v: Option<Json>) {
    v.Some? && (v.value.JArray? || v.value.JNull?)
  }

  /** The answer is passed on when one of the two decodings succeeds. */
  predicate Acceptable(v: Option<Json>) {
    DecodesAsMap(v) || DecodesAsArray(v)
  }

  /** Exactly JSON objects and arrays (and `null`) are passed on; strings, numbers, booleans and invalid JSON are not. */
  lemma AcceptableShapes(v: Option<Json>)
    ensures Acceptable(v) <==> v.Some? && (v.value.JObject? || v.value.JArray? || v.value.JNull?)
    ensures v.Some? && (v.value.JString? || v.value.JNumber? || v.value.JBool?) ==> !Acceptable(v)
  {
  }

  function ShortWriteMessage(written: nat, length: nat): string {
    "Only wrote " + Decimal(written) + " of " + Decimal(length) + " bytes to response"
  }

  /** What follows the payload: a 500 when the write failed or was short, nothing otherwise. */
  function WriteDiagnostics(reply: WriteReply, length: nat): seq<WriterEvent> {
    if reply.err.Some? then ErrorEvents(500, WritePrefix + reply.err.value)
    else if reply.count != length then ErrorEvents(500, ShortWriteMessage(reply.count, length))
    else []
  }

  /** A write error and a short write are told apart by their causes. */
  lemma DiagnosticsDistinct(e: string, written: nat, length: nat)
    ensures WritePrefix + e != ShortWriteMessage(written, length)
  {
    var a, b := WritePrefix + e, ShortWriteMessage(written, length);
    assert a[0] == 'E' && b[0] == 'O';
  }

  /** A variable of the environment, or "" when it is missing, as a Go map lookup gives. */
  function EnvValue(env: map<string, string>, key: string): string {
    if key in env then env[key] else ""
  }

  /** A `sendError` the handler ends with before the answer is checked. */
  datatype Refusal = Refusal(code: int, cause: string)

  /** What the handler has done when it gets to the answer, or the error it stopped with. */
  datatype Launched = Launched(refusal: Option<Refusal>, state: ProxyState, calls: seq<Call>)

  /**
   * The handler: strip the body, launch the action, then send the refusal,
   * or check the executor's answer and send it.
   */
  function Run(st: ProxyState, input: RunInput, w: World, canFlush: bool, write: Bytes -> WriteReply): RunResult {
    match input
    case BodyFailed(e) => RunResult(ErrorEvents(400, ReadPrefix + e), st, [])
    case Body(data) =>
      var body := StripNewlines(data);
      var l := Launch(st, body, w);
      match l.refusal
      case Some(refusal) => RunResult(ErrorEvents(refusal.code, refusal.cause), l.state, l.calls)
      case None => RunResult(Answer(w.interact(body), w.parse(w.interact(body)), canFlush, write), l.state, l.calls)
  }

  /**
   * Ask the local executor, connect with the address and key in the
   * environment, open a session (closed on return) and run the command; the
   * executor is dropped when the run fails.
   */
  function Launch(st: ProxyState, body: Bytes, w: World): Launched {
    var c := Exec(w, ConnectPlan(EnvValue(st.env, SshUrl), EnvValue(st.env, SshKey)));
    var calls := [Interact(body)] + c.calls;
    var cmd := RunCommand(body);
    if c.err.Some? then Launched(Some(Refusal(502, RunConnectMessage)), st, calls)
    else if w.session(cmd).Some? then Launched(Some(Refusal(502, SessionMessage)), st, calls + [NewSession(cmd)])
    else
      var ran := calls + [NewSession(cmd), RunRemote(cmd), CloseSession(cmd)];
      if w.run(cmd).err.Some? then Launched(Some(Refusal(400, ExitedMessage)), st.(hasExecutor := false), ran)
      else Launched(None, st, ran)
  }

  /** The executor's answer: a 502 unless it is an object or an array, else the payload and its diagnostics. */
  function Answer(response: Bytes, parsed: Option<Json>, canFlush: bool, write: Bytes -> WriteReply): seq<WriterEvent> {
    if !Acceptable(parsed) then ErrorEvents(502, NotJsonMessage)
    else JsonEvents(response, canFlush) + WriteDiagnostics(write(response), |response|)
  }

  /** A body is answered with the refusal `Launch` stops with, or else with the executor's checked answer. */
  lemma RunOfBody(st: ProxyState, data: Bytes, w: World, canFlush: bool, write: Bytes -> WriteReply)
    ensures var body := StripNewlines(data);
      var l, r := Launch(st, body, w), Run(st, Body(data), w, canFlush, write);
      && r.state == l.state && r.calls == l.calls
      && (l.refusal.Some? ==> r.events == ErrorEvents(l.refusal.value.code, l.refusal.value.cause))
      && (l.refusal.None? ==> r.events == Answer(w.interact(body), w.parse(w.interact(body)), canFlush, write))
  {
  }

  /** The connection, the session and the remote run all succeed for this body. */
  predicate Reaches(st: ProxyState, data: Bytes, w: World) {
    var cmd := RunCommand(StripNewlines(data));
    && Exec(w, ConnectPlan(EnvValue(st.env, SshUrl), EnvValue(st.env, SshKey))).err.None?
    && w.session(cmd).None?
    && w.run(cmd).err.None?
  }

  /**
   * A failed connection is a 502 before any session is opened: the calls are
   * the executor's, the key parse and, if the key parsed, the dial.
   */
  lemma ConnectFailsFirst(st: ProxyState, data: Bytes, w: World, canFlush: bool, write: Bytes -> WriteReply)
    requires Exec(w, ConnectPlan(EnvValue(st.env, SshUrl), EnvValue(st.env, SshKey))).err.Some?
    ensures var r, address, key := Run(st, Body(data), w, canFlush, write), EnvValue(st.env, SshUrl), EnvValue(st.env, SshKey);
      && r.events == ErrorEvents(502, RunConnectMessage)
      && r.state == st
      && (w.parseKey(key).Some? ==> r.calls == [Interact(StripNewlines(data)), ParsePrivateKey(key)])
      && (w.parseKey(key).None? ==> r.calls == [Interact(StripNewlines(data)), ParsePrivateKey(key), Dial(address, "root")])
  {
    var address, key := EnvValue(st.env, SshUrl), EnvValue(st.env, SshKey);
    ConnectFailure(st, data, w, canFlush, write);
    ConnectTrace(w, address, key, StripNewlines(data));
  }

  lemma ConnectFailure(st: ProxyState, data: Bytes, w: World, canFlush: bool, write: Bytes -> WriteReply)
    requires Exec(w, ConnectPlan(EnvValue(st.env, SshUrl), EnvValue(st.env, SshKey))).err.Some?
    ensures Run(st, Body(data), w, canFlush, write) == RunResult(ErrorEvents(502, RunConnectMessage), st,
      [Interact(StripNewlines(data))] + Exec(w, ConnectPlan(EnvValue(st.env, SshUrl), EnvValue(st.env, SshKey))).calls)
  {
  }

  lemma ConnectTrace(w: World, address: string, key: string, body: Bytes)
    ensures var calls := [Interact(body)] + Exec(w, ConnectPlan(address, key)).calls;
      && (w.parseKey(key).Some? ==> calls == [Interact(body), ParsePrivateKey(key)])
      && (w.parseKey(key).None? ==> calls == [Interact(body), ParsePrivateKey(key), Dial(address, "root")])
  {
    ConnectOrder(w, address, key);
  }

  /**
   * The executor is dropped exactly when the remote run fails, and that
   * failure is the 400 "command exited"; nothing else in the proxy changes.
   */
  lemma ExecutorDroppedOnlyOnExit(st: ProxyState, input: RunInput, w: World, canFlush: bool, write: Bytes -> WriteReply)
    requires st.hasExecutor
    ensures var r := Run(st, input, w, canFlush, write);
      && (r.state == st || r.state == st.(hasExecutor := false))
      && (!r.state.hasExecutor <==> r.events == ErrorEvents(400, ExitedMessage))
  {
    match input
    case BodyFailed(e) =>
      assert (ReadPrefix + e)[0] != ExitedMessage[0];
      ErrorEventsInjective(400, ReadPrefix + e, 400, ExitedMessage, "", false);
    case Body(data) =>
      var body := StripNewlines(data);
      var l := Launch(st, body, w);
      RunOfBody(st, data, w, canFlush, write);
      LaunchDropsOnlyOnExit(st, body, w);
      if l.refusal.Some? {
        ErrorEventsInjective(l.refusal.value.code, l.refusal.value.cause, 400, ExitedMessage, "", false);
      } else {
        AnswerIsNotExit(w.interact(body), w.parse(w.interact(body)), canFlush, write);
      }
  }

  /** Launching drops the executor exactly when it stops with the 400 of a failed run. */
  lemma LaunchDropsOnlyOnExit(st: ProxyState, body: Bytes, w: World)
    requires st.hasExecutor
    ensures var l := Launch(st, body, w);
      && (l.state == st || l.state == st.(hasExecutor := false))
      && (!l.state.hasExecutor <==> l.refusal == Some(Refusal(400, ExitedMessage)))
  {
  }

  /** The answer is never the 400 of a failed run. */
  lemma AnswerIsNotExit(response: Bytes, parsed: Option<Json>, canFlush: bool, write: Bytes -> WriteReply)
    ensures Answer(response, parsed, canFlush, write) != ErrorEvents(400, ExitedMessage)
  {
    if !Acceptable(parsed) {
      ErrorEventsInjective(502, NotJsonMessage, 400, ExitedMessage, "", false);
    } else {
      var sent := JsonEvents(response, canFlush) + WriteDiagnostics(write(response), |response|);
      assert sent[1] == HeaderSet(ContentLength, Decimal(|response|));
      assert ErrorEvents(400, ExitedMessage)[1] == StatusWritten(400);
    }
  }

  /**
   * Only the exit status of the remote run matters: whatever it writes to its
   * stdout and stderr, the handler behaves the same, and the answer it checks
   * and sends is the local executor's.
   */
  lemma RemoteOutputIgnored(st: ProxyState, input: RunInput, w: World, canFlush: bool, write: Bytes -> WriteReply,
                            out: string -> Bytes, err: string -> Bytes)
    ensures var quiet := w.(run := (c: string) => RunReply(out(c), err(c), w.run(c).err));
      Run(st, input, quiet, canFlush, write) == Run(st, input, w, canFlush, write)
  {
    var quiet := w.(run := (c: string) => RunReply(out(c), err(c), w.run(c).err));
    if input.Body? {
      var address, key := EnvValue(st.env, SshUrl), EnvValue(st.env, SshKey);
      ConnectOrder(w, address, key);
      ConnectOrder(quiet, address, key);
    }
  }

  /**
   * When the remote run succeeds, the client receives the executor's answer
   * with status 200 and its length as `Content-Length` if it is an object or
   * an array, and nothing after it: a diagnostic that follows goes past the
   * declared length. Any other answer gets the 502.
   */
  lemma RunSeen(st: ProxyState, data: Bytes, w: World, canFlush: bool, write: Bytes -> WriteReply)
    requires Reaches(st, data, w)
    ensures var r, response := Run(st, Body(data), w, canFlush, write), w.interact(StripNewlines(data));
      var seen := Received(r.events);
      && r.state == st
      && (Acceptable(w.parse(response)) ==>
            && seen.status == 200
            && seen.body == response
            && ContentLength in seen.headers && ParseDecimal(seen.headers[ContentLength]) == Some(|response|))
      && (!Acceptable(w.parse(response)) ==> seen.status == 502 && seen.body == ErrorBody(NotJsonMessage) + "\n")
  {
    var r, response := Run(st, Body(data), w, canFlush, write), w.interact(StripNewlines(data));
    RunOfBody(st, data, w, canFlush, write);
    assert Launch(st, StripNewlines(data), w) == Launched(None, st, r.calls);
    if Acceptable(w.parse(response)) {
      var payload := JsonEvents(response, canFlush);
      var tail := WriteDiagnostics(write(response), |response|);
      assert r.events == payload + tail;
      JsonSeen(response, canFlush);
      ReplayAppend(Fresh, payload, tail);
      var o := Received(payload);
      if tail != [] {
        var code, cause := 500, if write(response).err.Some? then WritePrefix + write(response).err.value
          else ShortWriteMessage(write(response).count, |response|);
        assert tail == ErrorEvents(code, cause);
        ErrorAfterCommit(o, code, cause);
      } else {
        assert Replay(o, tail) == o;
      }
    } else {
      ErrorSeen(502, NotJsonMessage);
    }
  }

  /**
   * A failed write is reported with a 500 after the payload has gone out:
   * the writer is asked for the error, but the client still sees status 200
   * and the payload alone, since the error body goes past the declared length.
   */
  lemma WriteErrorAfterCommit(st: ProxyState, data: Bytes, w: World, canFlush: bool, write: Bytes -> WriteReply)
    requires Reaches(st, data, w) && Acceptable(w.parse(w.interact(StripNewlines(data))))
    requires write(w.interact(StripNewlines(data))).err.Some?
    ensures var r, response := Run(st, Body(data), w, canFlush, write), w.interact(StripNewlines(data));
      var seen := Received(r.events);
      && r.events == JsonEvents(response, canFlush) + ErrorEvents(500, WritePrefix + write(response).err.value)
      && seen.status == 200
      && seen.body == response
  {
    var r, response := Run(st, Body(data), w, canFlush, write), w.interact(StripNewlines(data));
    var payload := JsonEvents(response, canFlush);
    var cause := WritePrefix + write(response).err.value;
    assert r.events == payload + ErrorEvents(500, cause);
    JsonSeen(response, canFlush);
    ReplayAppend(Fresh, payload, ErrorEvents(500, cause));
    ErrorAfterCommit(Received(payload), 500, cause);
  }
}
