# Action proxy with Vast.ai offloading: a Dafny model

This project models the two HTTP handlers of the OpenWhisk Go action proxy
(`openwhisk/initHandler.go`, `openwhisk/runHandler.go`) in the variant that
deploys the action to a Vast.ai GPU instance and runs it there over SSH
(`openwhisk/vastai_client.go`).

- `/init` accepts an action once. It decodes the code (base64 when `binary`
  is set), extracts it, and compiles it or moves it into place. It then checks
  the Vast.ai API key and instance id in the proxy's environment and asks the
  provider for the instance's SSH address, which it stores in the environment
  as `VASTAI_SSH_URL`. Only then does it check the SSH key, and it connects
  with that key. Finally it creates the remote
  folders, zips and copies the action, and unzips it there. Only after all of
  that does it mark the proxy initialized and answer `{"ok":true}`.
- `/run` strips the newlines from the request body and asks the local executor
  for the answer. It connects to the instance and runs
  `cd /action && python3 main__.py '<body>'` there. If that run fails, it
  drops the executor and answers 400. Otherwise it passes the executor's
  answer on, provided the answer is a JSON object, a JSON array or `null`, and appends the
  write diagnostics.

Modules, in dependency order:

- `Wrappers`: `Option` and `Result`.
- `Text`: bytes as strings, `strings.Split`, `fmt.Sprintf("%d")`.
- `Paths`: `filepath.Dir` and `filepath.Join` on clean paths.
- `Json`: decoded JSON trees and the string escaping of `json.Marshal`.
- `Base64`: `encoding/base64.StdEncoding` decoding, plus an encoder used to prove the round trip.
- `VastaiApi`: the pure derivations of `vastai_client.go`, meaning URLs, the address lookup, commands and archive paths.
- `Effects`: the collaborators as a `World` of oracle functions, the record of calls made, and `Exec`. `Exec` runs a list of steps the way Go's early returns and `defer` do.
- `VastaiClient`: the five functions of `vastai_client.go` as methods, each proved equal to a function of the world.
- `Responses`: `http.ResponseWriter` as a class recording its calls, plus `sendError` and `sendOK`. It also replays what a client receives: net/http commits the status at the first write, and once a `Content-Length` has been declared it refuses writes past that length.
- `Init` and `Run`: what each handler does as a function of the proxy's state, the input and the world, together with the properties proved about it. `Init.Init` takes a `Guard`: the SSH-key check as it is written (`AsWritten`, which `Proxy` runs) or as the two checks before it suggest (`Corrected`, see "## Findings"). Every lemma about the handler holds for both, with the key condition made explicit.
- `Proxy`: the class `ActionProxy`, with the fields `initialized`, `env`, `compiler` and `hasExecutor`. Its methods `InitHandler`, `ExtractAndCompile` and `RunHandler` update these fields in place and write to a `ResponseWriter`. Each method is proved to produce exactly the reply, new state and calls that `Init` and `Run` give.

## Model

| member | source | states |
|---|---|---|
| Text.SplitJoin | openwhisk/vastai_client.go:100 | The pieces `strings.Split` cuts on `/` join back to the path, and joined pieces without `/` split back into the same pieces. |
| Text.DecimalRoundTrip | openwhisk/runHandler.go:129 | The `%d` rendering of a length reads back as that length. |
| Paths.JoinIsClean | openwhisk/initHandler.go:219-221 | Joining one segment to a clean directory gives a clean path whose `Dir` is that directory. |
| Paths.DirDirJoin | openwhisk/initHandler.go:217-221 | `Dir(Dir(parent/bin/exec))` is `parent`, and the executable path is clean. |
| Json.QuoteRoundTrip | openwhisk/runHandler.go:34-35 | The string `json.Marshal` writes for a cause reads back as that cause, and the text after it is left alone. |
| Json.ListVerb | openwhisk/vastai_client.go:66 | A non-empty list prints under `%s` as `[` + `strings.Join` of its elements' texts with a space + `]`, stated against `Text.JoinWith`. Each element's text is `Json.Element`: a nested `null` prints as `<nil>`, anything else as `%s` prints it at the top. |
| Json.SortedKeys | openwhisk/vastai_client.go:66 | The keys `%s` prints a map with are listed each once, in ascending byte order, as `fmt` sorts them. |
| Base64.RoundTrip | openwhisk/initHandler.go:107 | `DecodeString` of the RFC 4648 encoding of any byte string gives that byte string back. |
| Base64.DecodedLength | openwhisk/initHandler.go:107 | Only input of whole 4-character quanta decodes. Each quantum gives three bytes, except the last, which gives one to three. |
| VastaiApi.ProviderUrlRoundTrip | openwhisk/vastai_client.go:22 | The request URL carries the instance id and the API key in their places, and both can be read back from it. |
| VastaiApi.SshAddressCases | openwhisk/vastai_client.go:47-63 | A missing `instances` map gives "error parsing vastai reponse". A missing `ports` map gives "error retrieving instance ports from vastai". Success happens exactly when `HostPort` is present as well. |
| VastaiApi.SshAddressOfInstanceReply | openwhisk/vastai_client.go:59-66 | For any reply, whatever other fields it holds: a string `public_ipaddr` and a string `HostPort` in the first `22/tcp` binding yield exactly `public_ipaddr:HostPort`. |
| VastaiApi.InstanceReplyAddress | openwhisk/vastai_client.go:47-66 | The smallest reply holding the two fields meets the lookup's assumptions and yields `ip:port`. |
| VastaiApi.ListedAddress | openwhisk/vastai_client.go:66 | An address given as a one-element list is printed by `%s` with its brackets, giving `[ip]:port`. |
| VastaiApi.NullListedAddress | openwhisk/vastai_client.go:65-66 | An address list holding a `null` gives `[<nil>]:port`: the nested nil prints as `<nil>`, not as the wrong-verb text of a top-level nil. |
| VastaiApi.ArtifactLayout | openwhisk/vastai_client.go:127-189 | For `parent/bin/exec`: the zip root is `parent`, and the archive is written to `parent/bin/action.zip`. It is copied to `parent/action.zip` and unpacked with `cd parent && unzip action.zip`. The path has the two segments the folder command indexes. |
| VastaiApi.FoldersMatchActionDir | openwhisk/vastai_client.go:100-116 | For an action directory `a/b` of two names, the folder command is `mkdir -p ~/a/b`, and `a/b` is clean. |
| Effects.ExecShape | openwhisk/vastai_client.go:146-162 | A step list makes the calls of the steps that ran, in order. These are followed by the closes of exactly those steps that acquired something, last-in first-out. |
| Effects.ExecError | openwhisk/vastai_client.go:104-137 | A step list succeeds exactly when every step is tolerated. Otherwise its error is that of the last step that ran, behind that step's prefix. |
| VastaiClient.ExtractSSHAddress | openwhisk/vastai_client.go:19-67 | One GET to the provider URL. The result is the address exactly when `ResolveAddress` succeeds, otherwise "" and its error. |
| VastaiClient.ConnectSSH | openwhisk/vastai_client.go:69-96 | The method's error and calls are those of the connect step list: key parse, then dial. |
| VastaiClient.ConnectOrder | openwhisk/vastai_client.go:72-92 | A key that does not parse fails before any dial. Otherwise the dial's error is returned. The dial is to the given address, as `root`. |
| VastaiClient.ConnectCalls | openwhisk/vastai_client.go:72-89 | Connecting parses only the key it was given and dials only the given address, as `root`. |
| VastaiClient.CreateActionFoldersSSH | openwhisk/vastai_client.go:98-140 | The method's error and calls are those of its step list: session, `mkdir`, zip, write, with the session closed on return. |
| VastaiClient.FoldersOutcomes | openwhisk/vastai_client.go:104-137 | There are four ways the function can end. A failed `mkdir` returns before zipping, a failed zip returns before writing, and every path after the session closes it. |
| VastaiClient.FoldersCalls | openwhisk/vastai_client.go:98-140 | Folder creation parses no key and dials nothing. |
| VastaiClient.ScpTransfer | openwhisk/vastai_client.go:142-171 | The method's error and calls are those of its step list: client, open, copy, closing the file before the client. |
| VastaiClient.TransferOutcomes | openwhisk/vastai_client.go:146-166 | The local `Dir(bin)/action.zip` is copied to the remote `Dir(Dir(bin))/action.zip` with mode `0655`. Open and copy failures carry their own prefixes. |
| VastaiClient.TransferErrorsDistinct | openwhisk/vastai_client.go:158-165 | No open error reads like a copy error. |
| VastaiClient.TransferCalls | openwhisk/vastai_client.go:142-171 | The transfer parses no key and dials nothing. |
| VastaiClient.UnzipRemote | openwhisk/vastai_client.go:173-206 | The method's error and calls are those of its step list: session, unzip, `rm` with its error dropped. |
| VastaiClient.UnzipOutcomes | openwhisk/vastai_client.go:176-201 | There are three ways the function can end. `rm` runs only after a successful unzip, and the session is closed last. |
| VastaiClient.UnzipIgnoresRemove | openwhisk/vastai_client.go:189-205 | The error is nil exactly when the session and the unzip succeed, whatever `rm` returns. `rm` runs exactly then. |
| VastaiClient.UnzipCalls | openwhisk/vastai_client.go:173-206 | The unzip parses no key and dials nothing. |
| Responses.SendError | openwhisk/runHandler.go:33-44 | The calls made are: content type `application/json`, the status, `{"error":<cause>}`, then `"\n"`. |
| Responses.ErrorBodyRoundTrip | openwhisk/runHandler.go:34-35 | The error body determines its cause. |
| Responses.ErrorEventsInjective | openwhisk/runHandler.go:40-43 | Two `sendError` calls that write the same thing have the same status and cause. None of them writes what a whole JSON payload writes. |
| Responses.ErrorSeen | openwhisk/runHandler.go:40-43 | On a fresh response the client gets the status, the JSON content type, and the error body followed by a newline. |
| Responses.ErrorAfterCommit | openwhisk/runHandler.go:138-145 | Once the response is committed, the status of `sendError` never reaches the client. Without a declared length its body is appended. Once the declared length has been written, the body and the newline are refused and the client sees nothing more. |
| Responses.SendOK | openwhisk/initHandler.go:42-51 | The calls made are: content type, `Content-Length`, body `{"ok":true}\n`, and a flush when the writer can flush. |
| Responses.OkSeen | openwhisk/initHandler.go:44-47 | The client gets status 200 and `{"ok":true}\n`, with a `Content-Length` equal to the body's length. |
| Responses.JsonSeen | openwhisk/runHandler.go:128-135 | The client gets a payload sent whole with status 200, the JSON content type, and a `Content-Length` equal to its size. The declared length is then used up. |
| Init.MainOf | openwhisk/initHandler.go:98-101 | The entry point is never empty: it is the request's `main` when that is non-empty, and exactly `"main"` when it is empty. |
| Init.Payload | openwhisk/initHandler.go:104-115 | Without `binary` the bytes are the code. With `binary` they are its base64 decoding, and the payload fails exactly when decoding fails. |
| Init.ExtractAndCompile | openwhisk/initHandler.go:205-242 | A returned path is clean and has two segments. The stage makes only local calls: extract, the `isCompiled` probe, rename, mkdir, compile and the `os.Stat` of `bin/exec`. |
| Init.ExtractFailureStops | openwhisk/initHandler.go:208-214 | Extraction comes first. Its error and an empty file name end the stage after that one call. |
| Init.ExtractedPath | openwhisk/initHandler.go:217-221 | A returned path is `Dir(Dir(file))/bin/exec`, and it zips `Dir(Dir(file))`. |
| Init.ExtractAndCompileCases | openwhisk/initHandler.go:224-241 | Without a compiler, or for a compiled file, `src` is renamed to `bin` and nothing is compiled or looked up. Otherwise the compiler runs on `src` into `bin`. The file is probed with `isCompiled` exactly when a compiler is set, and `bin/exec` is looked up exactly when the compile succeeded. After a clean compile, a missing `bin/exec` is "cannot compile". |
| Init.RenameBranch | openwhisk/initHandler.go:224-227 | The rename branch of `Init.ExtractAndCompileCases`: the path is `bin/exec`, the rename is made, the probe is made exactly when a compiler is set, and there is no compile and no lookup. |
| Init.CompileBranch | openwhisk/initHandler.go:229-241 | The compile branch of `Init.ExtractAndCompileCases`: probe, compile, and the lookup of `bin/exec` exactly after a clean compile, whose absence is "cannot compile". |
| Init.PlaceCases | openwhisk/initHandler.go:224-241 | The exact calls and result of each branch. With no compiler there is only the rename. For a compiled file, the `isCompiled` probe comes first, then the rename. Otherwise the probe, `mkdir` and the compile call; a compiler error is returned as it is, and only after a clean compile comes the `os.Stat` of `bin/exec`, whose absence is "cannot compile", the result otherwise being `bin/exec`. |
| Init.InitOnlyOnce | openwhisk/initHandler.go:56-61 | Initialized and not debugging: 403 "Cannot initialize the action more than once.", with no call made and no field changed. |
| Init.UnreadableRequestRefused | openwhisk/initHandler.go:68-86 | A body that cannot be read, or does not decode as JSON, gives a 400 with the error, before any change or call. |
| Init.EmptyCodeRefused | openwhisk/initHandler.go:89-92 | Empty code gives 403 "Missing main/no code to execute." before the environment is merged, anything is decoded, or anything is called. |
| Init.InitDecodesThenBuilds | openwhisk/initHandler.go:103-129 | Code that does not decode gives a 400 before extraction. Otherwise extraction on the payload, with the defaulted entry point, is the first call, and its failure is a 502 with the build message. |
| Init.InitCompilesEntryPoint | openwhisk/initHandler.go:98-101 | When the handler compiles the extracted action, the compile call names the request's `main`, or `"main"` when the request leaves it empty. |
| Init.EnvPersists | openwhisk/initHandler.go:95-182 | Once merged, the request's environment stays whatever fails later. The only other change is the address the provider resolved, stored under `VASTAI_SSH_URL` exactly when the action was built and the lookup succeeded, including when the SSH key or a deployment step fails afterwards. |
| Init.ProvisionCalls | openwhisk/initHandler.go:132-160 | The provider is queried only when both credentials are present and non-empty, with the URL built from them; a missing or empty credential is a 400 that adds no call. Every later call is gated as `Init.Gated` states, and calls are only appended. The only key parsed is the environment's SSH key, and with the corrected guard never an empty one. |
| Init.ProvisionRefusals | openwhisk/initHandler.go:132-156 | Each refusal before deployment, exactly: a missing or empty API key is a 400 with the API-key message, state and calls unchanged; likewise for the instance id with its message; a failed lookup is a 502 with the lookup message after exactly the one provider GET; an SSH key the guard refuses is a 400 with the SSH-key message after that GET, with `VASTAI_SSH_URL` already set to the address. |
| Init.CredentialRefusals | openwhisk/initHandler.go:103-156 | The same refusals on the whole `/init` handler once the action is built: the credentials are read from the environment merged with the request's, and the calls before the GET are exactly the extraction stage's. |
| Init.RecordCalls | openwhisk/initHandler.go:144-182 | After the lookup, only deployment calls follow. The only key parsed is the SSH key in the environment, empty included with the guard as written. The only address dialled is the one stored under `VASTAI_SSH_URL`, as `root`. |
| Init.InitCalls | openwhisk/initHandler.go:53-202 | Every call `initHandler` makes is either an extraction-stage call or gated against the merged environment. With the guard as written, the key parsed is the environment's, possibly empty. With the corrected guard, no empty SSH key is ever parsed. |
| Init.DeployOutcome | openwhisk/initHandler.go:160-201 | The deployment answers 502 on any failure. It accepts exactly when connect, folders, transfer and unzip all succeed, and marks the proxy initialized only then. |
| Init.DeploySteps | openwhisk/initHandler.go:160-201 | The steps run in order until one fails. A failed connect, folders, transfer or unzip step answers 502 with that step's own message, and the trace ends with that step's calls, so no later step makes a call. When all succeed, the trace is the four steps' calls in order. |
| Init.DeployAppends | openwhisk/initHandler.go:160-182 | The deployment only appends calls. Those calls parse only the given key and dial only the given address, as `root`. |
| Init.InitState | openwhisk/initHandler.go:53-202 | `initialized` becomes true exactly on an accepted init. The compiler and the executor are never touched. |
| Init.ProvisionState | openwhisk/initHandler.go:132-201 | From the credential checks on, `initialized` turns true only on acceptance. The environment gains exactly the resolved address under `VASTAI_SSH_URL` when both credentials are set and the lookup succeeds, and is otherwise unchanged. |
| Init.RecordState | openwhisk/initHandler.go:144-201 | After the lookup, a found address is stored under `VASTAI_SSH_URL` and stays whatever fails next. A failed lookup leaves the environment unchanged. `initialized` turns true only on acceptance. |
| Init.InitAcceptsIffReady | openwhisk/initHandler.go:53-202 | `initHandler` answers `{"ok":true}` exactly when every guard and every step passes, as `Init.Ready` lists them. With the guard as written, the SSH key only has to be present; with the corrected guard, it must also be non-empty. |
| Init.ProvisionAccepts | openwhisk/initHandler.go:132-201 | Past extraction, the only path to acceptance: the API key and the instance id non-empty, the SSH key passing the guard (`Init.KeyPasses`), the address resolved, and all four deployment steps succeeding. |
| Init.RecordAccepts | openwhisk/initHandler.go:144-201 | After the lookup, the init is accepted exactly when the address was found, the SSH key passes the guard (merely present as written, non-empty when corrected), and the deployment succeeds. |
| Init.SshKeyGuardAsWrittenPassesEmptyKey | openwhisk/initHandler.go:152-156 | As written, the SSH-key guard lets a present but empty key through. |
| Init.SshKeyGuardsCompared | openwhisk/initHandler.go:152-156 | Past the instance-id check, the guard as written refuses only a missing key. The refusals it gives up are exactly the present, empty keys. |
| Init.EmptyKeyReachesConnect | openwhisk/initHandler.go:152-161 | With a present but empty SSH key and a resolved address, the handler as written parses the key `""`, and answers the connect 502 when it does not parse. The corrected guard answers the SSH-key 400 right after the lookup, with no key parsed. |
| Init.DeployParsesKey | openwhisk/initHandler.go:160-164 | The deployment parses the key it is given, and a key that does not parse gives the connect 502. |
| Run.StripNewlines | openwhisk/runHandler.go:69 | The stripped body has no `'\n'`, and its length is the original length minus the number of newlines. |
| Run.StripIsConcatOfPieces | openwhisk/runHandler.go:69 | The stripped body is the bytes between the newlines, end to end, in their order. |
| Run.StripIdempotent | openwhisk/runHandler.go:69 | Stripping twice is stripping once. |
| Run.CommandRoundTrip | openwhisk/runHandler.go:99 | The remote command carries the body unchanged between the prefix and the closing quote. |
| Run.AcceptableShapes | openwhisk/runHandler.go:117-126 | Exactly objects, arrays and `null` are passed on. Strings, numbers, booleans and invalid JSON get the 502. |
| Run.DiagnosticsDistinct | openwhisk/runHandler.go:138-145 | A write error and a short write are reported with distinct causes. |
| Run.RunOfBody | openwhisk/runHandler.go:46-145 | A readable body is answered either with the error `Launch` stopped with or with the checked answer of the executor. |
| Run.ConnectFailsFirst | openwhisk/runHandler.go:74-80 | A failed connection gives a 502 before any session is opened. The only calls are: `Interact`, the key parse, and the dial if the key parsed. |
| Run.ExecutorDroppedOnlyOnExit | openwhisk/runHandler.go:99-110 | The executor is dropped exactly when the answer is 400 "command exited". Nothing else in the proxy changes. |
| Run.LaunchDropsOnlyOnExit | openwhisk/runHandler.go:103-110 | Launching drops the executor exactly when it stops with the 400 of a failed run. |
| Run.AnswerIsNotExit | openwhisk/runHandler.go:116-145 | The checked answer is never the 400 of a failed run. |
| Run.RemoteOutputIgnored | openwhisk/runHandler.go:90-112 | The remote run's stdout and stderr do not influence the handler. The answer checked and sent is the local executor's. |
| Run.RunSeen | openwhisk/runHandler.go:116-145 | After a successful remote run, the client gets this: for an object or array, status 200, exactly the answer, and its length as `Content-Length`, since a diagnostic that follows goes past the declared length; otherwise a 502 "The action did not return a dictionary or array.". |
| Run.WriteErrorAfterCommit | openwhisk/runHandler.go:130-141 | A failed write makes the handler send the 500 after the payload. The client still sees status 200 and the payload alone. |
| Proxy.ActionProxy.InitHandler | openwhisk/initHandler.go:53-202 | The new fields, the calls on the writer, and the collaborator calls are exactly those `Init.Init` gives with the SSH-key guard as written. |
| Proxy.ActionProxy.Initialize | openwhisk/initHandler.go:53-129 | The once guard, request checks, environment merge, payload and extraction update the fields as `Init.Init` does with the guard as written, and decide the same reply. |
| Proxy.ActionProxy.ExtractAndCompile | openwhisk/initHandler.go:205-242 | The path, the error ("" and an error on failure), and the calls are those of `Init.ExtractAndCompile`. |
| Proxy.ActionProxy.Place | openwhisk/initHandler.go:216-241 | The path surgery and the rename-or-compile part of the method, with the path, the error and the calls of `Init.Place`. |
| Proxy.ActionProxy.Provision | openwhisk/initHandler.go:131-156 | The credential checks, the lookup, the store under `VASTAI_SSH_URL`, and the SSH-key check (which re-tests the instance id, as written) match `Init.Provision` with the guard as written. |
| Proxy.ActionProxy.Deploy | openwhisk/initHandler.go:160-201 | Connect, folders, transfer and unzip, then `initialized := true`, match `Init.Deploy`. |
| Proxy.SendReply | openwhisk/initHandler.go:42-51 | The reply is written as `sendError` or `sendOK` writes it. |
| Proxy.ActionProxy.RunHandler | openwhisk/runHandler.go:46-145 | The new fields, the calls on the writer, and the collaborator calls are exactly those `Run.Run` gives. |
| Proxy.ActionProxy.LaunchAction | openwhisk/runHandler.go:68-110 | The `Interact` answer, the refusal, the calls, and the dropped executor match `Run.Launch`. |
| Proxy.SendAnswer | openwhisk/runHandler.go:116-145 | The object/array check, the payload and the diagnostics are written as `Run.Answer` lists them. |
| Proxy.SendPayload | openwhisk/runHandler.go:128-135 | The headers, the payload and the flush are written, and the method returns what `Write` returned. |

## Left out

- Real I/O is not modelled: HTTP, SSH, SCP, zip, the file system, the compiler and the local executor. Each is an oracle function of `Effects.World`, and the model records which calls are made, with which arguments, in which order; the `isCompiled` probe and the `os.Stat` of `bin/exec` are recorded too. `World.binExists` stands for "`os.Stat` does not report that the file is missing": a Stat that fails for another reason counts as the file existing, as `os.IsNotExist` decides.
- `ap.SetEnv` is defined in `actionProxy.go`, which is not part of this model. The merge is modelled as overriding the proxy's environment with the request's, with the values already as strings.
- Decoding the init request is not modelled. The JSON decoding of `initRequest` (including `omitempty` and the types of `env` values) is an input: a read error, a decoding error with its message, or the decoded fields.
- `Init.Payload`: the decode error is "illegal base64 data at input byte " without the offset digits; the model does not compute at which byte Go's decoder stops.
- Logging is not modelled: `Debug`, `DebugLimit`, `log.Println`, and the `OW_LOG_INIT_ERROR` writes to the error and output files. Only the choice of the 502 message is modelled.
- `sendError`'s fallback body for a failed `json.Marshal` is not modelled. Marshalling a struct with one string field cannot fail.
- `Run.RunCommand` does no shell quoting. A body containing `'` ends the quoted argument early on the remote side, but the model only states the string that is sent.
- The SSH client from `ConnectSSH` is never closed in the source. The model records no such close either.
- `UnzipRemote` calls `session.Run` twice on one SSH session, and `x/crypto/ssh` refuses the second call. The model takes the outcome of the `rm` from the world; since it is dropped, this changes nothing the model states.
- A dropped executor is not modelled beyond the flag. `Interact` is defined outside the modelled files (executor code that is not part of this model), so a later run still asks the world for the executor's answer. Likewise, the `Interact` error, which the source overwrites, is not modelled.
- `filepath.Clean` is not modelled. The extracted file name is assumed clean (the subset type `Effects.ExtractReply`). On clean paths `Dir` and `Join` have nothing to clean.
- The panics at `vastai_client.go:59` (missing `22/tcp`, an empty list, a non-object element) and `:116` (fewer than two path segments) are preconditions: the subset type `Effects.ProviderReply` and `requires VastaiApi.HasTopFolders`.
- Unicode is not modelled: bytes are characters, with no UTF-8 validation and no `json.Marshal` replacement of invalid UTF-8.
- `Json.Verb`: a JSON number is printed with its source text inside `%!s(float64=…)`, not reformatted as Go's `%v` of a `float64` does (for example `1e+21`).
- `Responses.Seen` models what the server hands to the connection: net/http's count of bytes against the declared `Content-Length`, the status committed at the first write, and headers frozen after it. What a broken connection actually delivers is not modelled; a `Write` that returned an error still counts as sent.
- Concurrency between requests and timeouts are not modelled. The source has neither locks nor deadlines.
- Interleaving is not modelled. The handlers compute the reply and write it once at the end, so the writer's calls and the collaborator calls are recorded separately, not interleaved. No collaborator touches the writer.

## Findings

| source | as written | input that shows it | evidently intended | confidence | as-written member | corrected member |
|---|---|---|---|---|---|---|
| openwhisk/initHandler.go:153 | `if !ok \|\| vastai_instance_id == ""`: after fetching the SSH key, the guard tests the instance id again | environment `OPS_VASTAI_API_KEY = "k"`, `OPS_VASTAI_INSTANCE_ID = "i"`, `OPS_VASTAI_SSH_KEY = ""`: the empty key passes the guard and goes to `ssh.ParsePrivateKey("")`, giving the connect 502 instead of the SSH-key 400 | `if !ok \|\| vastai_ssh_key == ""`, like the two guards before it, answering 400 "Vast.ai SSH key not found …" | not executed | Init.SshKeyRejectedAsWritten, run by `Init.Init(AsWritten, …)` and by Proxy.ActionProxy.Provision; shown by Init.SshKeyGuardAsWrittenPassesEmptyKey and Init.EmptyKeyReachesConnect | Init.SshKeyRejected, run by `Init.Init(Corrected, …)`: no empty key is parsed (Init.InitCalls), acceptance needs a non-empty key (Init.InitAcceptsIffReady), and the empty key gets the 400 (Init.EmptyKeyReachesConnect) |
