/**
 * The effectful functions of vastai_client.go. Each is a method whose
 * early returns and deferred closes are proved to be the run of a `Plan`
 * by `Effects.Exec`; the lemmas below state what those plans guarantee.
 */
module VastaiClient {
  import opened Wrappers
  import opened Text
  import opened Paths
  import opened VastaiApi
  import opened Effects

  datatype Resolved = Resolved(address: Result<string, string>, calls: seq<Call>)

  /** ExtractSSHAddress: one GET to the provider, then the lookup in its reply. */
  function ResolveAddress(w: World, apiKey: string, instanceId: string): Resolved {
    var url := ProviderUrl(instanceId, apiKey);
    var reply := w.fetch(url);
    Resolved(if reply.HttpFailed? then Failure(reply.err) else SshAddress(reply.doc), [HttpGet(url)])
  }

  method ExtractSSHAddress(w: World, apiKey: string, instanceId: string) returns (address: string, err: Option<string>, calls: seq<Call>)
    ensures var r := ResolveAddress(w, apiKey, instanceId);
      && calls == r.calls
      && (err.None? <==> r.address.Success?)
      && (err.None? ==> address == r.address.value)
      && (err.Some? ==> address == "" && err.value == r.address.error)
  {
    var url := ProviderUrl(instanceId, apiKey);
    calls := [HttpGet(url)];
    var reply := w.fetch(url);
    if reply.HttpFailed? {
      return "", Some(reply.err), calls;
    }
    var found := SshAddress(reply.doc);
    if found.Failure? {
      return "", Some(found.error), calls;
    }
    return found.value, None, calls;
  }

  /** ConnectSSH: the key is parsed before the dial, and the user is root. */
  function ConnectPlan(address: string, key: string): Plan {
    Then(Step(ParsePrivateKey(key), Return, None),
    Then(Step(Dial(address, "root"), Return, None), Done))
  }

  /** CreateActionFoldersSSH: `mkdir` on a session closed on return, zip the action, write the archive. */
  function FoldersPlan(w: World, actionBin: string): Plan
    requires HasTopFolders(actionBin)
  {
    var mk := MkdirCommand(actionBin);
    var root := ZipRoot(actionBin);
    Then(Step(NewSession(mk), Return, Some(CloseSession(mk))),
    Then(Step(RunRemote(mk), Return, None),
    Then(Step(MakeZip(root), Return, None),
    Then(Step(WriteFile(ArchivePath(actionBin), w.zip(root).data), Return, None), Done))))
  }

  const OpenErrorPrefix := "failed to open file "
  const CopyErrorPrefix := "failed to copy file "

  /** ScpTransfer: an SCP client and the local archive, both closed on return, then the copy. */
  function TransferPlan(actionBin: string): Plan
  {
    var local := ArchivePath(actionBin);
    Then(Step(NewScpClient, Return, Some(CloseScpClient)),
    Then(Step(OpenFile(local), Wrap(OpenErrorPrefix + local + ": "), Some(CloseFile(local))),
    Then(Step(CopyFromFile(local, RemoteArchivePath(actionBin), "0655"), Wrap(CopyErrorPrefix), None), Done)))
  }

  /** UnzipRemote: unzip on a session closed on return, then `rm` whose error is dropped. */
  function UnzipPlan(actionBin: string): Plan
  {
    var unzip := UnzipCommand(actionBin);
    Then(Step(NewSession(unzip), Return, Some(CloseSession(unzip))),
    Then(Step(RunRemote(unzip), Return, None),
    Then(Step(RunRemote(RemoveCommand(actionBin)), Ignore, None), Done)))
  }

  method ConnectSSH(w: World, address: string, key: string) returns (err: Option<string>, calls: seq<Call>)
    ensures Outcome(err, calls) == Exec(w, ConnectPlan(address, key))
  {
    ghost var p := ConnectPlan(address, key);
    calls := [ParsePrivateKey(key)];
    err := w.parseKey(key);
    if err.Some? {
      Stops(w, p, []);
      return;
    }
    GoesOn(w, p, []);
    calls := calls + [Dial(address, "root")];
    err := w.dial(address, "root");
    if err.Some? {
      Stops(w, p.next, []);
    } else {
      GoesOn(w, p.next, []);
    }
  }

  /** The four ways CreateActionFoldersSSH can end, with the calls each makes. */
  lemma FoldersOutcomes(w: World, actionBin: string)
    requires HasTopFolders(actionBin)
    ensures var mk, root := MkdirCommand(actionBin), ZipRoot(actionBin);
      var write := WriteFile(ArchivePath(actionBin), w.zip(root).data);
      Exec(w, FoldersPlan(w, actionBin)) ==
        if w.session(mk).Some? then Outcome(w.session(mk), [NewSession(mk)])
        else if w.run(mk).err.Some? then Outcome(w.run(mk).err, [NewSession(mk), RunRemote(mk), CloseSession(mk)])
        else if w.zip(root).err.Some? then
          Outcome(w.zip(root).err, [NewSession(mk), RunRemote(mk), MakeZip(root), CloseSession(mk)])
        else Outcome(Fault(w, write), [NewSession(mk), RunRemote(mk), MakeZip(root), write, CloseSession(mk)])
  {
    var p, mk := FoldersPlan(w, actionBin), MkdirCommand(actionBin);
    var deferred := [CloseSession(mk)];
    if w.session(mk).Some? {
      Stops(w, p, []);
    } else {
      GoesOn(w, p, []);
      assert Pending(w, p.step, []) == deferred;
      if w.run(mk).err.Some? {
        Stops(w, p.next, deferred);
      } else {
        GoesOn(w, p.next, deferred);
        if w.zip(ZipRoot(actionBin)).err.Some? {
          Stops(w, p.next.next, deferred);
        } else {
          GoesOn(w, p.next.next, deferred);
          if Fault(w, p.next.next.next.step.call).Some? {
            Stops(w, p.next.next.next, deferred);
          } else {
            GoesOn(w, p.next.next.next, deferred);
          }
        }
      }
    }
  }

  method CreateActionFoldersSSH(w: World, actionBin: string) returns (err: Option<string>, calls: seq<Call>)
    requires HasTopFolders(actionBin)
    ensures Outcome(err, calls) == Exec(w, FoldersPlan(w, actionBin))
  {
    FoldersOutcomes(w, actionBin);
    var mk := MkdirCommand(actionBin);
    calls := [NewSession(mk)];
    err := w.session(mk);
    if err.Some? {
      return;
    }
    var deferred := [CloseSession(mk)];
    calls := calls + [RunRemote(mk)];
    err := w.run(mk).err;
    if err.Some? {
      calls := calls + deferred;
      return;
    }
    var root := ZipRoot(actionBin);
    calls := calls + [MakeZip(root)];
    var zipped := w.zip(root);
    err := zipped.err;
    if err.Some? {
      calls := calls + deferred;
      return;
    }
    var archive := ArchivePath(actionBin);
    calls := calls + [WriteFile(archive, zipped.data)];
    err := w.writeFile(archive, zipped.data);
    calls := calls + deferred;
  }

  method ScpTransfer(w: World, actionBin: string) returns (err: Option<string>, calls: seq<Call>)
    ensures Outcome(err, calls) == Exec(w, TransferPlan(actionBin))
  {
    ghost var p := TransferPlan(actionBin);
    calls := [NewScpClient];
    err := w.scpClient;
    if err.Some? {
      Stops(w, p, []);
      return;
    }
    GoesOn(w, p, []);
    var deferred := [CloseScpClient];
    assert Pending(w, p.step, []) == deferred;
    var local := ArchivePath(actionBin);
    calls := calls + [OpenFile(local)];
    var openErr := w.open(local);
    if openErr.Some? {
      Stops(w, p.next, deferred);
      err := Some(OpenErrorPrefix + local + ": " + openErr.value);
      calls := calls + deferred;
      return;
    }
    GoesOn(w, p.next, deferred);
    deferred := [CloseFile(local)] + deferred;
    var remote := RemoteArchivePath(actionBin);
    calls := calls + [CopyFromFile(local, remote, "0655")];
    var copied := w.copy(local, remote, "0655");
    if copied.Some? {
      Stops(w, p.next.next, deferred);
      err := Some(CopyErrorPrefix + copied.value);
    } else {
      GoesOn(w, p.next.next, deferred);
      err := None;
    }
    calls := calls + deferred;
  }

  method UnzipRemote(w: World, actionBin: string) returns (err: Option<string>, calls: seq<Call>)
    ensures Outcome(err, calls) == Exec(w, UnzipPlan(actionBin))
  {
    ghost var p := UnzipPlan(actionBin);
    var unzip := UnzipCommand(actionBin);
    calls := [NewSession(unzip)];
    err := w.session(unzip);
    if err.Some? {
      Stops(w, p, []);
      return;
    }
    GoesOn(w, p, []);
    var deferred := [CloseSession(unzip)];
    assert Pending(w, p.step, []) == deferred;
    calls := calls + [RunRemote(unzip)];
    err := w.run(unzip).err;
    if err.Some? {
      Stops(w, p.next, deferred);
      calls := calls + deferred;
      return;
    }
    GoesOn(w, p.next, deferred);
    GoesOn(w, p.next.next, deferred);
    var remove := RemoveCommand(actionBin);
    calls := calls + [RunRemote(remove)];
    var _ := w.run(remove);
    calls := calls + deferred;
  }

  /** A key that does not parse is reported before any dial; every dial is as root. */
  lemma ConnectOrder(w: World, address: string, key: string)
    ensures var r := Exec(w, ConnectPlan(address, key));
      && (w.parseKey(key).Some? ==> r == Outcome(w.parseKey(key), [ParsePrivateKey(key)]))
      && (w.parseKey(key).None? ==> r == Outcome(w.dial(address, "root"), [ParsePrivateKey(key), Dial(address, "root")]))
  {
    var p := ConnectPlan(address, key);
    if w.parseKey(key).Some? {
      Stops(w, p, []);
    } else {
      GoesOn(w, p, []);
      if w.dial(address, "root").Some? {
        Stops(w, p.next, []);
      } else {
        GoesOn(w, p.next, []);
      }
    }
  }

  /**
   * The three ways ScpTransfer can end: open and copy failures are reported
   * with their own prefixes, and each return closes what was opened, the file
   * before the client.
   */
  lemma TransferOutcomes(w: World, actionBin: string)
    ensures var local, remote := ArchivePath(actionBin), RemoteArchivePath(actionBin);
      var copied := w.copy(local, remote, "0655");
      Exec(w, TransferPlan(actionBin)) ==
        if w.scpClient.Some? then Outcome(w.scpClient, [NewScpClient])
        else if w.open(local).Some? then
          Outcome(Some(OpenErrorPrefix + local + ": " + w.open(local).value), [NewScpClient, OpenFile(local), CloseScpClient])
        else
          Outcome(if copied.Some? then Some(CopyErrorPrefix + copied.value) else None,
                  [NewScpClient, OpenFile(local), CopyFromFile(local, remote, "0655"), CloseFile(local), CloseScpClient])
  {
    var p, local := TransferPlan(actionBin), ArchivePath(actionBin);
    if w.scpClient.Some? {
      Stops(w, p, []);
    } else {
      GoesOn(w, p, []);
      var deferred := [CloseScpClient];
      assert Pending(w, p.step, []) == deferred;
      if w.open(local).Some? {
        Stops(w, p.next, deferred);
      } else {
        GoesOn(w, p.next, deferred);
        if w.copy(local, RemoteArchivePath(actionBin), "0655").Some? {
          Stops(w, p.next.next, [CloseFile(local)] + deferred);
        } else {
          GoesOn(w, p.next.next, [CloseFile(local)] + deferred);
        }
      }
    }
  }

  /** No open-file error reads like a copy error. */
  lemma TransferErrorsDistinct(path: string, e1: string, e2: string)
    ensures OpenErrorPrefix + path + ": " + e1 != CopyErrorPrefix + e2
  {
    var a, b := OpenErrorPrefix + path + ": " + e1, CopyErrorPrefix + e2;
    assert a[10] == 'o' && b[10] == 'c';
  }

  /** The three ways UnzipRemote can end: the `rm` runs only after a successful unzip, and its error is dropped. */
  lemma UnzipOutcomes(w: World, actionBin: string)
    ensures var uz, rm := UnzipCommand(actionBin), RemoveCommand(actionBin);
      Exec(w, UnzipPlan(actionBin)) ==
        if w.session(uz).Some? then Outcome(w.session(uz), [NewSession(uz)])
        else if w.run(uz).err.Some? then Outcome(w.run(uz).err, [NewSession(uz), RunRemote(uz), CloseSession(uz)])
        else Outcome(None, [NewSession(uz), RunRemote(uz), RunRemote(rm), CloseSession(uz)])
  {
    var p, uz := UnzipPlan(actionBin), UnzipCommand(actionBin);
    var deferred := [CloseSession(uz)];
    if w.session(uz).Some? {
      Stops(w, p, []);
    } else {
      GoesOn(w, p, []);
      assert Pending(w, p.step, []) == deferred;
      if w.run(uz).err.Some? {
        Stops(w, p.next, deferred);
      } else {
        GoesOn(w, p.next, deferred);
        GoesOn(w, p.next.next, deferred);
      }
    }
  }

  /** Whatever `rm` returns, UnzipRemote reports exactly the session and unzip errors, and `rm` runs exactly when those succeed. */
  lemma UnzipIgnoresRemove(w: World, actionBin: string)
    ensures var uz, rm, r := UnzipCommand(actionBin), RemoveCommand(actionBin), Exec(w, UnzipPlan(actionBin));
      && (r.err.None? <==> w.session(uz).None? && w.run(uz).err.None?)
      && (w.session(uz).None? && w.run(uz).err.Some? ==> r.err == w.run(uz).err)
      && (RunRemote(rm) in r.calls <==> w.session(uz).None? && w.run(uz).err.None?)
  {
    var uz, rm := UnzipCommand(actionBin), RemoveCommand(actionBin);
    assert uz != rm by {
      assert uz[0] == 'c' && rm[0] == 'r';
    }
    UnzipOutcomes(w, actionBin);
  }

  /** The calls the deployment steps can make: none of them extracts, compiles or queries the provider. */
  predicate DeployCall(c: Call) {
    !(c.ExtractAction? || c.IsCompiled? || c.Rename? || c.Mkdir? || c.CompileAction? || c.Stat? || c.HttpGet? || c.Interact?)
  }

  /** Calls a deployment step may make that parse no key. */
  predicate KeyFree(calls: seq<Call>) {
    forall c :: c in calls ==> DeployCall(c) && !c.ParsePrivateKey? && !c.Dial?
  }

  /**
   * The connection, folder, transfer and unzip steps only talk to the remote
   * node and the local archive, and only the connection parses a key: the one
   * it was given.
   */
  lemma ConnectCalls(w: World, address: string, key: string)
    ensures forall c :: c in Exec(w, ConnectPlan(address, key)).calls ==>
      && DeployCall(c)
      && (c.ParsePrivateKey? ==> c.key == key)
      && (c.Dial? ==> c.address == address && c.user == "root")
  {
    ConnectOrder(w, address, key);
  }

  lemma FoldersCalls(w: World, actionBin: string)
    requires HasTopFolders(actionBin)
    ensures KeyFree(Exec(w, FoldersPlan(w, actionBin)).calls)
  {
    FoldersOutcomes(w, actionBin);
  }

  lemma TransferCalls(w: World, actionBin: string)
    ensures KeyFree(Exec(w, TransferPlan(actionBin)).calls)
  {
    TransferOutcomes(w, actionBin);
  }

  lemma UnzipCalls(w: World, actionBin: string)
    ensures KeyFree(Exec(w, UnzipPlan(actionBin)).calls)
  {
    UnzipOutcomes(w, actionBin);
  }
}
