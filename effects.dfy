/**
 * The collaborators the handlers call (archive extraction, the compiler, the
 * provider's HTTP API, SSH, SCP, zip, the file system, the local executor and
 * Go's JSON decoder), as a `World` of oracle functions, and the record of
 * calls an operation makes on them.
 *
 * The functions of vastai_client.go are straight-line sequences of calls,
 * each followed by an early return on error and some by a deferred close.
 * `Exec` runs such a `Plan` the way Go does: it stops at the first fatal
 * error, skips ignored ones, and runs the deferred closes last-in first-out.
 */
module Effects {
  import opened Wrappers
  import opened Text
  import opened Json
  import opened Paths
  import opened VastaiApi

  /** A collaborator call, with the arguments the handlers pass to it. */
  datatype Call =
    | ExtractAction(buf: Bytes, dir: string)
    | IsCompiled(file: string)
    | Rename(from: string, to: string)
    | Mkdir(path: string)
    | CompileAction(main: string, srcDir: string, binDir: string)
    | Stat(path: string)
    | HttpGet(url: string)
    | ParsePrivateKey(key: string)
    | Dial(address: string, user: string)
    | NewSession(purpose: string)
    | RunRemote(command: string)
    | CloseSession(purpose: string)
    | MakeZip(root: string)
    | WriteFile(path: string, data: Bytes)
    | NewScpClient
    | CloseScpClient
    | OpenFile(path: string)
    | CloseFile(path: string)
    | CopyFromFile(local: string, remote: string, mode: string)
    | Interact(body: Bytes)

  /** What `ExtractAction` returns. */
  datatype Extracted = Extracted(file: string, err: Option<string>)

  /** A successful extraction names a clean path (or nothing). */
  type ExtractReply = r: Extracted | r.err.Some? || r.file == "" || IsClean(r.file)
    witness Extracted("", Some(""))

  /** The provider's answer: a transport error, or the decoded top-level object. */
  datatype HttpReply = HttpFailed(err: string) | HttpBody(doc: map<string, Json>)

  /** The answers on which the lookup of the SSH port does not panic. */
  type ProviderReply = r: HttpReply | r.HttpFailed? || PortsDefined(r.doc)
    witness HttpFailed("")

  /** What `session.Run` leaves: its buffers and its error. */
  datatype RunReply = RunReply(stdout: Bytes, stderr: Bytes, err: Option<string>)

  datatype ZipReply = ZipReply(data: Bytes, err: Option<string>)

  /**
   * The outcome of every collaborator for every argument. A session is
   * identified by the command it is opened to run. `compiled` is what
   * `isCompiled` answers, and `binExists` holds when `os.Stat` of the path
   * does not report that it is missing: a Stat that fails for any other
   * reason counts as existing, as `os.IsNotExist` decides it.
   */
  datatype World = World(
    extract: (Bytes, string) -> ExtractReply,
    compiled: string -> bool,
    compile: (string, string, string) -> Option<string>,
    binExists: string -> bool,
    fetch: string -> ProviderReply,
    parseKey: string -> Option<string>,
    dial: (string, string) -> Option<string>,
    session: string -> Option<string>,
    run: string -> RunReply,
    zip: string -> ZipReply,
    writeFile: (string, Bytes) -> Option<string>,
    scpClient: Option<string>,
    open: string -> Option<string>,
    copy: (string, string, string) -> Option<string>,
    interact: Bytes -> Bytes,
    parse: Bytes -> Option<Json>)

  /** The error a call returns in world `w`, if any. Closes, renames, `Mkdir` and the two file probes are never checked. */
  function Fault(w: World, c: Call): Option<string> {
    match c
    case ExtractAction(buf, dir) => w.extract(buf, dir).err
    case CompileAction(main, src, bin) => w.compile(main, src, bin)
    case HttpGet(url) => if w.fetch(url).HttpFailed? then Some(w.fetch(url).err) else None
    case ParsePrivateKey(key) => w.parseKey(key)
    case Dial(address, user) => w.dial(address, user)
    case NewSession(purpose) => w.session(purpose)
    case RunRemote(command) => w.run(command).err
    case MakeZip(root) => w.zip(root).err
    case WriteFile(path, data) => w.writeFile(path, data)
    case NewScpClient => w.scpClient
    case OpenFile(path) => w.open(path)
    case CopyFromFile(local, remote, mode) => w.copy(local, remote, mode)
    case _ => None
  }

  /** What a step does with an error: return it, return it behind a prefix, or drop it. */
  datatype OnError = Return | Wrap(prefix: string) | Ignore

  /** A call, its error handling, and the close it defers when it succeeds. */
  datatype Step = Step(call: Call, onError: OnError, release: Option<Call>)

  /** The steps of a function, in program order. */
  datatype Plan = Done | Then(step: Step, next: Plan)

  datatype Outcome = Outcome(err: Option<string>, calls: seq<Call>)

  function Reported(h: OnError, e: string): string {
    match h
    case Wrap(prefix) => prefix + e
    case _ => e
  }

  /** The plan from here on, with the closes deferred so far (most recent first). */
  function ExecFrom(w: World, plan: Plan, deferred: seq<Call>): Outcome {
    match plan
    case Done => Outcome(None, deferred)
    case Then(s, next) =>
      var fault := Fault(w, s.call);
      if fault.Some? && !s.onError.Ignore? then
        Outcome(Some(Reported(s.onError, fault.value)), [s.call] + deferred)
      else
        var rest := ExecFrom(w, next, Pending(w, s, deferred));
        Outcome(rest.err, [s.call] + rest.calls)
  }

  /** The closes to run at return, after step `s` got past its error check. */
  function Pending(w: World, s: Step, deferred: seq<Call>): seq<Call> {
    if Fault(w, s.call).None? && s.release.Some? then [s.release.value] + deferred else deferred
  }

  /** A step that fails fatally ends the plan with its error and the closes deferred so far. */
  lemma Stops(w: World, plan: Plan, deferred: seq<Call>)
    requires plan.Then? && !Tolerated(w, plan.step)
    ensures ExecFrom(w, plan, deferred) ==
      Outcome(Some(Reported(plan.step.onError, Fault(w, plan.step.call).value)), [plan.step.call] + deferred)
  {
  }

  /** A tolerated step is recorded and the plan goes on. */
  lemma GoesOn(w: World, plan: Plan, deferred: seq<Call>)
    requires plan.Then? && Tolerated(w, plan.step)
    ensures var rest := ExecFrom(w, plan.next, Pending(w, plan.step, deferred));
      ExecFrom(w, plan, deferred) == Outcome(rest.err, [plan.step.call] + rest.calls)
  {
  }

  function Exec(w: World, plan: Plan): Outcome {
    ExecFrom(w, plan, [])
  }

  /** A step whose outcome does not stop the plan. */
  predicate Tolerated(w: World, s: Step) {
    s.onError.Ignore? || Fault(w, s.call).None?
  }

  function Steps(plan: Plan): seq<Step> {
    match plan
    case Done => []
    case Then(s, next) => [s] + Steps(next)
  }

  /** The steps that run: up to and including the first one that fails fatally. */
  function Executed(w: World, plan: Plan): (r: seq<Step>)
    ensures |r| <= |Steps(plan)|
    ensures r == Steps(plan)[..|r|]
    ensures forall i :: 0 <= i < |r| - 1 ==> Tolerated(w, r[i])
  {
    match plan
    case Done => []
    case Then(s, next) => if !Tolerated(w, s) then [s] else [s] + Executed(w, next)
  }

  function CallsOf(steps: seq<Step>): seq<Call> {
    if steps == [] then [] else [steps[0].call] + CallsOf(steps[1..])
  }

  /** The closes deferred by the steps that succeeded, in the order Go runs them. */
  function Releases(w: World, steps: seq<Step>): seq<Call> {
    if steps == [] then []
    else
      var s := steps[0];
      Releases(w, steps[1..]) + (if Fault(w, s.call).None? && s.release.Some? then [s.release.value] else [])
  }

  /**
   * The calls made are the calls of the steps that ran, in order, followed by
   * the closes of exactly those of them that acquired something, in reverse
   * order: nothing is closed that was not opened, and nothing opened stays open.
   */
  lemma {:induction false} ExecFromShape(w: World, plan: Plan, deferred: seq<Call>)
    ensures var ran := Executed(w, plan);
      ExecFrom(w, plan, deferred).calls == CallsOf(ran) + Releases(w, ran) + deferred
  {
    match plan
    case Done =>
    case Then(s, next) =>
      if Tolerated(w, s) {
        var released := if Fault(w, s.call).None? && s.release.Some? then [s.release.value] else [];
        var pending := released + deferred;
        assert pending == Pending(w, s, deferred);
        ExecFromShape(w, next, pending);
        var later := Executed(w, next);
        ShapeStep(w, s, later, released, deferred);
      } else {
        Stops(w, plan, deferred);
        assert [s][1..] == [];
        assert CallsOf([s]) == [s.call];
        assert Releases(w, [s]) == [];
      }
  }

  lemma ShapeStep(w: World, s: Step, later: seq<Step>, released: seq<Call>, deferred: seq<Call>)
    requires released == if Fault(w, s.call).None? && s.release.Some? then [s.release.value] else []
    ensures [s.call] + (CallsOf(later) + Releases(w, later) + (released + deferred))
         == CallsOf([s] + later) + Releases(w, [s] + later) + deferred
  {
    var ran := [s] + later;
    assert ran[0] == s && ran[1..] == later;
    assert CallsOf(ran) == [s.call] + CallsOf(later);
    assert Releases(w, ran) == Releases(w, later) + released;
  }

  lemma ExecShape(w: World, plan: Plan)
    ensures var ran := Executed(w, plan);
      Exec(w, plan).calls == CallsOf(ran) + Releases(w, ran)
  {
    ExecFromShape(w, plan, []);
  }

  /** Every step of the plan is tolerated. */
  predicate Survives(w: World, plan: Plan) {
    match plan
    case Done => true
    case Then(s, next) => Tolerated(w, s) && Survives(w, next)
  }

  lemma {:induction false} SurvivesAll(w: World, plan: Plan)
    ensures Survives(w, plan) <==> forall i :: 0 <= i < |Steps(plan)| ==> Tolerated(w, Steps(plan)[i])
  {
    match plan
    case Done =>
    case Then(s, next) =>
      SurvivesAll(w, next);
      assert Steps(plan) == [s] + Steps(next);
      assert Steps(plan)[0] == s;
      assert forall i :: 0 <= i < |Steps(next)| ==> Steps(plan)[i + 1] == Steps(next)[i];
      if forall i :: 0 <= i < |Steps(plan)| ==> Tolerated(w, Steps(plan)[i]) {
        assert Tolerated(w, s);
        forall i | 0 <= i < |Steps(next)| ensures Tolerated(w, Steps(next)[i]) {
          assert Tolerated(w, Steps(plan)[i + 1]);
        }
      }
  }

  /**
   * The plan succeeds exactly when every step is tolerated; otherwise the
   * error is that of the last step that ran, with its prefix.
   */
  lemma {:induction false} ExecFromError(w: World, plan: Plan, deferred: seq<Call>)
    ensures var r, ran := ExecFrom(w, plan, deferred), Executed(w, plan);
      && (r.err.None? <==> Survives(w, plan))
      && (r.err.None? ==> ran == Steps(plan))
      && (r.err.Some? ==>
            && 1 <= |ran|
            && !Tolerated(w, ran[|ran| - 1])
            && r.err == Some(Reported(ran[|ran| - 1].onError, Fault(w, ran[|ran| - 1].call).value)))
  {
    match plan
    case Done =>
    case Then(s, next) =>
      if Tolerated(w, s) {
        var pending := Pending(w, s, deferred);
        ExecFromError(w, next, pending);
        assert ExecFrom(w, plan, deferred).err == ExecFrom(w, next, pending).err;
      }
  }

  lemma ExecError(w: World, plan: Plan)
    ensures var r, ran := Exec(w, plan), Executed(w, plan);
      && (r.err.None? <==> Survives(w, plan))
      && (r.err.None? <==> forall i :: 0 <= i < |Steps(plan)| ==> Tolerated(w, Steps(plan)[i]))
      && (r.err.Some? ==>
            && 1 <= |ran|
            && !Tolerated(w, ran[|ran| - 1])
            && r.err == Some(Reported(ran[|ran| - 1].onError, Fault(w, ran[|ran| - 1].call).value)))
  {
    ExecFromError(w, plan, []);
    SurvivesAll(w, plan);
  }
}
