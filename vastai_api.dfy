/**
 * The pure derivations of vastai_client.go: the provider's instance-status URL,
 * the lookup of `ip:port` in its decoded reply, and the remote commands and
 * archive paths derived from the local executable path `actionBin`
 * (`<parent>/bin/exec`).
 */
module VastaiApi {
  import opened Wrappers
  import opened Text
  import opened Json
  import opened Paths

  const UrlPrefix := "https://console.vast.ai/api/v0/instances/"
  const UrlQuery := "?owner=me&api_key="

  /** The GET request's URL for an instance id and an API key. */
  function ProviderUrl(instanceId: string, apiKey: string): string {
    UrlPrefix + instanceId + UrlQuery + apiKey
  }

  /** Index of the first `c` in `s`, or |s|. */
  function IndexOf(s: string, c: char): (i: nat)
    ensures i <= |s|
    ensures i < |s| ==> s[i] == c
    ensures forall j :: 0 <= j < i ==> s[j] != c
  {
    if s == [] then 0 else if s[0] == c then 0 else 1 + IndexOf(s[1..], c)
  }

  /** Reads the instance id and the API key back from a provider URL. */
  function ParseProviderUrl(u: string): Option<(string, string)> {
    if |u| < |UrlPrefix| || u[..|UrlPrefix|] != UrlPrefix then None
    else
      var tail := u[|UrlPrefix|..];
      var q := IndexOf(tail, '?');
      var query := tail[q..];
      if |query| < |UrlQuery| || query[..|UrlQuery|] != UrlQuery then None
      else Some((tail[..q], query[|UrlQuery|..]))
  }

  /** The URL determines the instance id and the API key, as long as the id has no `?`. */
  lemma ProviderUrlRoundTrip(instanceId: string, apiKey: string)
    requires '?' !in instanceId
    ensures ParseProviderUrl(ProviderUrl(instanceId, apiKey)) == Some((instanceId, apiKey))
  {
    var u := ProviderUrl(instanceId, apiKey);
    assert u[..|UrlPrefix|] == UrlPrefix;
    var tail := u[|UrlPrefix|..];
    assert tail == instanceId + UrlQuery + apiKey;
    assert tail[|instanceId|] == '?';
    var q := IndexOf(tail, '?');
    assert q == |instanceId| by {
      assert forall j :: 0 <= j < |instanceId| ==> tail[j] == instanceId[j];
    }
    assert tail[..q] == instanceId;
    assert tail[q..] == UrlQuery + apiKey;
    assert (UrlQuery + apiKey)[..|UrlQuery|] == UrlQuery;
    assert (UrlQuery + apiKey)[|UrlQuery|..] == apiKey;
  }

  /** `jsonRes["instances"].(map[string]interface{})` and its `ok`. */
  function Instances(doc: map<string, Json>): Option<map<string, Json>> {
    if "instances" in doc && doc["instances"].JObject? then Some(doc["instances"].fields) else None
  }

  /** `instanceJson["ports"].(map[string]interface{})` and its `ok`. */
  function Ports(instance: map<string, Json>): Option<map<string, Json>> {
    if "ports" in instance && instance["ports"].JObject? then Some(instance["ports"].fields) else None
  }

  /**
   * The reply shapes on which `ports["22/tcp"].([]interface{})[0].(map[string]interface{})`
   * does not panic: once the instance record and its port map are found, the
   * `22/tcp` entry is a non-empty list whose first element is an object.
   */
  predicate PortsDefined(doc: map<string, Json>) {
    Instances(doc).Some? && Ports(Instances(doc).value).Some? ==>
      var ports := Ports(Instances(doc).value).value;
      && "22/tcp" in ports
      && ports["22/tcp"].JArray?
      && |ports["22/tcp"].items| > 0
      && ports["22/tcp"].items[0].JObject?
  }

  const InstancesError := "error parsing vastai reponse"
  const PortsError := "error retrieving instance ports from vastai"
  const PortError := "error retrieving instance port from vastai"

  /** The `ip:port` lookup of ExtractSSHAddress on the decoded reply. */
  function SshAddress(doc: map<string, Json>): Result<string, string>
    requires PortsDefined(doc)
  {
    match Instances(doc)
    case None => Failure(InstancesError)
    case Some(instance) =>
      match Ports(instance)
      case None => Failure(PortsError)
      case Some(ports) =>
        var binding := ports["22/tcp"].items[0].fields;
        if "HostPort" !in binding then Failure(PortError)
        else Success(Verb(Get(instance, "public_ipaddr")) + ":" + Verb(Some(binding["HostPort"])))
  }

  /** A well-formed reply: the instance's public address and its forwarded SSH port. */
  function InstanceReply(ip: string, port: string): map<string, Json> {
    map["instances" := JObject(map[
      "public_ipaddr" := JString(ip),
      "ports" := JObject(map["22/tcp" := JArray([JObject(map["HostPort" := JString(port)])])])])]
  }

  /**
   * Whatever else the provider's reply holds, an instance whose
   * `public_ipaddr` is a string and whose first `22/tcp` binding has a string
   * `HostPort` yields exactly `ip:port`.
   */
  lemma SshAddressOfInstanceReply(doc: map<string, Json>, ip: string, port: string)
    requires PortsDefined(doc)
    requires Instances(doc).Some? && Get(Instances(doc).value, "public_ipaddr") == Some(JString(ip))
    requires Ports(Instances(doc).value).Some?
    requires Get(Ports(Instances(doc).value).value["22/tcp"].items[0].fields, "HostPort") == Some(JString(port))
    ensures SshAddress(doc) == Success(ip + ":" + port)
  {
  }

  /** The smallest such reply satisfies the lookup's assumptions and yields `ip:port`. */
  lemma InstanceReplyAddress(ip: string, port: string)
    ensures PortsDefined(InstanceReply(ip, port))
    ensures SshAddress(InstanceReply(ip, port)) == Success(ip + ":" + port)
  {
    var doc := InstanceReply(ip, port);
    var instance := doc["instances"].fields;
    assert Instances(doc) == Some(instance);
    assert Ports(instance).Some?;
    SshAddressOfInstanceReply(doc, ip, port);
  }

  /** An address given as a one-element list is printed by `%s` with its brackets: `[ip]:port`. */
  lemma ListedAddress(ip: string, port: string)
    ensures var doc := map["instances" := JObject(map[
          "public_ipaddr" := JArray([JString(ip)]),
          "ports" := JObject(map["22/tcp" := JArray([JObject(map["HostPort" := JString(port)])])])])];
      PortsDefined(doc) && SshAddress(doc) == Success("[" + ip + "]:" + port)
  {
    var ports := map["22/tcp" := JArray([JObject(map["HostPort" := JString(port)])])];
    var listed := JArray([JString(ip)]);
    var instance := map["public_ipaddr" := listed, "ports" := JObject(ports)];
    var doc := map["instances" := JObject(instance)];
    assert Instances(doc) == Some(instance);
    assert Ports(instance) == Some(ports);
    assert Element(JString(ip)) == ip;
    assert Items(listed, [JString(ip)]) == ip;
    assert VerbOf(listed) == "[" + ip + "]";
    var binding := map["HostPort" := JString(port)];
    assert ports["22/tcp"].items[0].fields == binding;
    assert Verb(Some(binding["HostPort"])) == port;
    assert ("[" + ip + "]") + ":" + port == "[" + ip + "]:" + port;
  }

  /**
   * A null inside the address list prints as `<nil>`, so the lookup yields
   * `[<nil>]:port`, not the wrong-verb text of a top-level nil.
   */
  lemma NullListedAddress(port: string)
    ensures var doc := map["instances" := JObject(map[
          "public_ipaddr" := JArray([JNull]),
          "ports" := JObject(map["22/tcp" := JArray([JObject(map["HostPort" := JString(port)])])])])];
      PortsDefined(doc) && SshAddress(doc) == Success("[<nil>]:" + port)
  {
    var ports := map["22/tcp" := JArray([JObject(map["HostPort" := JString(port)])])];
    var listed := JArray([JNull]);
    var instance := map["public_ipaddr" := listed, "ports" := JObject(ports)];
    var doc := map["instances" := JObject(instance)];
    assert Instances(doc) == Some(instance);
    assert Ports(instance) == Some(ports);
    assert Items(listed, [JNull]) == "<nil>";
    assert VerbOf(listed) == "[<nil>]";
    var binding := map["HostPort" := JString(port)];
    assert ports["22/tcp"].items[0].fields == binding;
    assert Verb(Some(binding["HostPort"])) == port;
    assert "[<nil>]" + ":" + port == "[<nil>]:" + port;
  }

  /** The lookup fails with the message of the first level that is missing, and succeeds only when all are there. */
  lemma SshAddressCases(doc: map<string, Json>)
    requires PortsDefined(doc)
    ensures Instances(doc).None? ==> SshAddress(doc) == Failure(InstancesError)
    ensures Instances(doc).Some? && Ports(Instances(doc).value).None? ==> SshAddress(doc) == Failure(PortsError)
    ensures SshAddress(doc).Success? <==>
      && Instances(doc).Some?
      && Ports(Instances(doc).value).Some?
      && "HostPort" in Ports(Instances(doc).value).value["22/tcp"].items[0].fields
  {
  }

  /** The local executable path the extraction stage produces: `<parent>/bin/exec`. */
  function BinFile(parent: string): string {
    Join(Join(parent, "bin"), "exec")
  }

  /** `strings.Split(actionBin, "/")` has the two segments CreateActionFoldersSSH indexes. */
  predicate HasTopFolders(actionBin: string) {
    |Split(actionBin, '/')| >= 2
  }

  /** `mkdir -p ~/<s0>/<s1>` for the first two segments of the path. */
  function MkdirCommand(actionBin: string): string
    requires HasTopFolders(actionBin)
  {
    var top := Split(actionBin, '/');
    "mkdir -p ~/" + top[0] + "/" + top[1]
  }

  /** The directory zipped: two levels above the executable. */
  function ZipRoot(actionBin: string): string {
    Dir(Dir(actionBin))
  }

  /** Where the archive is written locally and read back for the transfer. */
  function ArchivePath(actionBin: string): string {
    Join(Dir(actionBin), "action.zip")
  }

  /** Where the archive is copied on the remote node. */
  function RemoteArchivePath(actionBin: string): string {
    Join(Dir(Dir(actionBin)), "action.zip")
  }

  function UnzipCommand(actionBin: string): string {
    "cd " + Dir(Dir(actionBin)) + " && unzip action.zip"
  }

  function RemoveCommand(actionBin: string): string {
    "rm ~/" + Dir(Dir(actionBin)) + "/action.zip"
  }

  /**
   * For the executable path the extraction stage produces, the archive root is
   * the action's directory, the archive is written into `bin`, it is copied
   * into the action's directory remotely, unpacked there, and the path always
   * has the two segments the folder command needs.
   */
  lemma ArtifactLayout(parent: string)
    requires IsClean(parent)
    ensures var bin := BinFile(parent);
      && IsClean(bin)
      && ZipRoot(bin) == parent
      && ArchivePath(bin) == Join(Join(parent, "bin"), "action.zip")
      && RemoteArchivePath(bin) == Join(parent, "action.zip")
      && UnzipCommand(bin) == "cd " + parent + " && unzip action.zip"
      && HasTopFolders(bin)
  {
    DirDirJoin(parent, "bin", "exec");
    JoinHasSlash(Join(parent, "bin"), "exec");
  }

  /** A path joined below a directory other than `.` has a separator. */
  lemma JoinHasSlash(dir: string, name: string)
    requires dir != "."
    ensures HasTopFolders(Join(dir, name))
  {
    var r := Join(dir, name);
    var pre := if dir == "/" then "" else dir;
    assert r == pre + "/" + name;
    CountAppend(pre, "/" + name, '/');
    assert ("/" + name)[0] == '/';
  }

  /**
   * When the action's directory is a relative path of two segments (the
   * runtime's `<base>/<n>`), the folder created remotely is exactly the one
   * the archive is copied into and unpacked in.
   */
  lemma FoldersMatchActionDir(base: string, n: string)
    requires IsName(base) && IsName(n)
    ensures var parent := base + "/" + n;
      IsClean(parent) && MkdirCommand(BinFile(parent)) == "mkdir -p ~/" + parent
  {
    var parent := base + "/" + n;
    TwoSegmentsClean(base, n);
    var tail := "bin" + ['/'] + "exec";
    assert BinFile(parent) == base + ['/'] + (n + ['/'] + tail);
    TwoLeadingSegments(base, n, tail);
  }

  lemma TwoSegmentsClean(base: string, n: string)
    requires IsName(base) && IsName(n)
    ensures IsClean(base + "/" + n)
  {
    SplitNoSeparator(base, '/');
    SplitNoSeparator(n, '/');
    assert base + "/" + n == base + ['/'] + n;
    SplitAppend(base, '/', n);
    assert Split(base + "/" + n, '/') == [base, n];
  }

  lemma TwoLeadingSegments(a: string, b: string, rest: string)
    requires '/' !in a && '/' !in b
    ensures var top := Split(a + ['/'] + (b + ['/'] + rest), '/');
      |top| >= 2 && top[0] == a && top[1] == b
  {
    SplitNoSeparator(a, '/');
    SplitNoSeparator(b, '/');
    SplitAppend(a, '/', b + ['/'] + rest);
    SplitAppend(b, '/', rest);
  }
}
