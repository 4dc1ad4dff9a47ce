/**
 * Provider-level helpers: the application load balancer virtual host id
 * wrapper, the defaulting in provider configuration, and the service
 * account key validator.
 */
module Provider {
  import opened Wrappers
  import opened ResourceModel

  // ---------------------------------------------------------------------
  // Splitting an id on '/'
  // ---------------------------------------------------------------------

  /** Index of the first '/' in `s`, or |s| when there is none. */
  function SlashAt(s: string): (n: nat)
    ensures n <= |s|
    ensures n < |s| ==> s[n] == '/'
  {
    if s == [] || s[0] == '/' then 0 else 1 + SlashAt(s[1..])
  }

  /** No '/' comes before the first one. */
  lemma {:induction false} SlashAtFirst(s: string)
    ensures '/' !in s[..SlashAt(s)]
  {
    if s != [] && s[0] != '/' {
      SlashAtFirst(s[1..]);
      assert s[..SlashAt(s)] == [s[0]] + s[1..][..SlashAt(s[1..])];
    }
  }

  /**
   * Go's `strings.Split(s, "/")`: the pieces between separators, so the
   * empty string splits into one empty piece.
   */
  function Split(s: string): (parts: seq<string>)
    ensures |parts| >= 1
    decreases |s|
  {
    var n := SlashAt(s);
    if n == |s| then [s] else [s[..n]] + Split(s[n + 1..])
  }

  /** No piece holds a '/'. */
  lemma {:induction false} SplitPiecesSlashFree(s: string)
    ensures forall i :: 0 <= i < |Split(s)| ==> '/' !in Split(s)[i]
    decreases |s|
  {
    var n := SlashAt(s);
    SlashAtFirst(s);
    if n < |s| {
      SplitPiecesSlashFree(s[n + 1..]);
    } else {
      assert s[..n] == s;
    }
  }

  /** Go's `strings.Join(parts, "/")`. */
  function Join(parts: seq<string>): string
    requires |parts| >= 1
  {
    if |parts| == 1 then parts[0] else parts[0] + "/" + Join(parts[1..])
  }

  /** Joining the pieces gives back the id. */
  lemma {:induction false} JoinSplit(s: string)
    ensures Join(Split(s)) == s
    decreases |s|
  {
    var n := SlashAt(s);
    if n < |s| {
      JoinSplit(s[n + 1..]);
      assert s == s[..n] + "/" + s[n + 1..];
    }
  }

  /** Splitting a join of slash-free pieces gives back the pieces. */
  lemma {:induction false} SplitJoin(parts: seq<string>)
    requires |parts| >= 1
    requires forall i :: 0 <= i < |parts| ==> '/' !in parts[i]
    ensures Split(Join(parts)) == parts
  {
    if |parts| == 1 {
      SlashFree(parts[0]);
    } else {
      var s := Join(parts);
      var rest := Join(parts[1..]);
      var n := |parts[0]|;
      assert s == parts[0] + ("/" + rest);
      SlashAtConcat(parts[0], "/" + rest);
      assert SlashAt(s) == n;
      assert s[..n] == parts[0];
      assert s[n + 1..] == rest;
      SplitJoin(parts[1..]);
      calc {
        Split(s);
        [s[..n]] + Split(s[n + 1..]);
        [parts[0]] + parts[1..];
        parts;
      }
    }
  }

  lemma {:induction false} SlashFree(s: string)
    requires '/' !in s
    ensures SlashAt(s) == |s|
  {
    if s != [] {
      assert s[0] in s;
      SlashFree(s[1..]);
    }
  }

  lemma {:induction false} SlashAtConcat(a: string, b: string)
    requires '/' !in a
    ensures SlashAt(a + b) == |a| + SlashAt(b)
  {
    if a != [] {
      assert a[0] in a;
      assert (a + b)[1..] == a[1..] + b;
      SlashAtConcat(a[1..], b);
    } else {
      assert a + b == b;
    }
  }

  /** An id splits into at least two pieces exactly when it holds a '/'. */
  lemma SplitsInTwo(s: string)
    ensures |Split(s)| >= 2 <==> '/' in s
  {
    var n := SlashAt(s);
    if '/' in s {
      var i :| 0 <= i < |s| && s[i] == '/';
      SlashAtFirst(s);
      assert n <= i;
    }
  }

  // ---------------------------------------------------------------------
  // wrapParseVirtualHostID and withALBVirtualHostID
  // ---------------------------------------------------------------------

  /**
   * The router id and the host name encoded in a virtual host id
   * `<router>/<name>[/...]`; an id without '/' is rejected.
   */
  function ParseVirtualHostId(id: string): (r: Result<(string, string), Error>)
    ensures r.Failure? <==> '/' !in id
    ensures r.Failure? ==> r.error == WrongVirtualHostId(id)
    ensures r.Success? ==>
      var (router, name) := r.value;
      '/' !in router && '/' !in name &&
      router + "/" + name <= id &&
      (|router + "/" + name| == |id| || id[|router + "/" + name|] == '/')
  {
    SplitsInTwo(id);
    SplitPiecesSlashFree(id);
    var attrs := Split(id);
    if |attrs| < 2 then Failure(WrongVirtualHostId(id))
    else
      ParsedPrefix(id);
      Success((attrs[0], attrs[1]))
  }

  /** The first two pieces, rejoined with '/', are the id up to its second '/' or its end. */
  lemma ParsedPrefix(id: string)
    requires |Split(id)| >= 2
    ensures var p := Split(id);
      p[0] + "/" + p[1] <= id &&
      (|p[0] + "/" + p[1]| == |id| || id[|p[0] + "/" + p[1]|] == '/')
  {
    var n := SlashAt(id);
    var rest := id[n + 1..];
    var m := SlashAt(rest);
    assert Split(id) == [id[..n]] + Split(rest);
    assert Split(rest)[0] == rest[..m];
    TwoPieces(id, n, m);
  }

  /** Cutting an id at two consecutive separators. */
  lemma TwoPieces(id: string, n: nat, m: nat)
    requires n < |id| && id[n] == '/' && n + 1 + m <= |id|
    requires n + 1 + m < |id| ==> id[n + 1 + m] == '/'
    ensures var head := id[..n] + "/" + id[n + 1..][..m];
      head <= id && (|head| == |id| || id[|head|] == '/')
  {
    var head := id[..n] + "/" + id[n + 1..][..m];
    assert id[n + 1..][..m] == id[n + 1..n + 1 + m];
    assert id[..n + 1 + m] == id[..n] + [id[n]] + id[n + 1..n + 1 + m];
    assert head == id[..n + 1 + m];
  }

  /** A CRUD callback over the resource state: the new state and the error it returns. */
  type Crud = Snapshot -> (Snapshot, Option<Error>)

  /**
   * The wrapped callback: the id is parsed, `http_router_id` and `name` are
   * stored, and only when all of that succeeds is the callback run, on the
   * updated state.
   */
  function RunWrapped(f: Crud, s: Snapshot): (r: (Snapshot, Option<Error>))
  {
    match ParseVirtualHostId(s.id)
    case Failure(e) => (s, Some(e))
    case Success((router, name)) =>
      var (s1, e1) := SetField(s, "http_router_id", Str(router));
      if e1.Some? then (s1, e1)
      else
        var (s2, e2) := SetField(s1, "name", Str(name));
        if e2.Some? then (s2, e2) else f(s2)
  }

  /** What the wrapped callback does, case by case. */
  lemma RunWrappedCases(f: Crud, s: Snapshot)
    ensures '/' !in s.id ==> RunWrapped(f, s) == (s, Some(WrongVirtualHostId(s.id)))
    ensures '/' in s.id ==>
      var (router, name) := ParseVirtualHostId(s.id).value;
      var s1 := s.(values := s.values["http_router_id" := Str(router)]);
      var s2 := s1.(values := s1.values["name" := Str(name)]);
      if "http_router_id" in s.rejects then RunWrapped(f, s) == (s, Some(SetRejected("http_router_id")))
      else if "name" in s.rejects then RunWrapped(f, s) == (s1, Some(SetRejected("name")))
      else RunWrapped(f, s) == f(s2)
  {
  }

  /** The callback is never run on an id without a '/', and the state is then untouched. */
  lemma WrongIdSkipsCallback(f: Crud, g: Crud, s: Snapshot)
    requires '/' !in s.id
    ensures RunWrapped(f, s) == RunWrapped(g, s) == (s, Some(WrongVirtualHostId(s.id)))
  {
  }

  /** `wrapParseVirtualHostID`. */
  function WrapParseVirtualHostId(f: Crud): (g: Crud)
  {
    s => RunWrapped(f, s)
  }

  /** The create, read, update and delete callbacks of a resource. */
  datatype Resource = Resource(create: Crud, read: Crud, update: Crud, delete: Crud)

  /** `withALBVirtualHostID`: read, update and delete are wrapped, create is kept. */
  function WithAlbVirtualHostId(r: Resource): (w: Resource)
  {
    r.(read := WrapParseVirtualHostId(r.read),
       update := WrapParseVirtualHostId(r.update),
       delete := WrapParseVirtualHostId(r.delete))
  }

  /** Create runs unchanged; the other three run only behind the id parse. */
  lemma WithAlbVirtualHostIdRuns(r: Resource, s: Snapshot)
    ensures WithAlbVirtualHostId(r).create(s) == r.create(s)
    ensures WithAlbVirtualHostId(r).read(s) == RunWrapped(r.read, s)
    ensures WithAlbVirtualHostId(r).update(s) == RunWrapped(r.update, s)
    ensures WithAlbVirtualHostId(r).delete(s) == RunWrapped(r.delete, s)
  {
  }

  // ---------------------------------------------------------------------
  // providerConfigure
  // ---------------------------------------------------------------------

  /** The provider settings, one field per schema attribute copied into the config. */
  datatype Config = Config(
    token: string,
    serviceAccountKeyFileOrContent: string,
    zone: string,
    folderId: string,
    cloudId: string,
    endpoint: string,
    plaintext: bool,
    insecure: bool,
    maxRetries: int,
    storageEndpoint: string,
    storageAccessKey: string,
    storageSecretKey: string,
    ymqEndpoint: string,
    ymqAccessKey: string,
    ymqSecretKey: string)

  /** The version assumed when the host does not report one. */
  const LegacyTerraformVersion := "0.11+compatible"

  /** The config and the Terraform version handed to validation. */
  function Prepare(settings: Config, emptyFolder: bool, terraformVersion: string): (r: (Config, string))
    ensures r.0.folderId == (if emptyFolder then "" else settings.folderId)
    ensures r.0.(folderId := settings.folderId) == settings
    ensures r.1 != ""
    ensures terraformVersion != "" ==> r.1 == terraformVersion
    ensures terraformVersion == "" ==> r.1 == LegacyTerraformVersion
  {
    var config := if emptyFolder then settings.(folderId := "") else settings;
    var version := if terraformVersion == "" then LegacyTerraformVersion else terraformVersion;
    (config, version)
  }

  /**
   * `providerConfigure`; `initAndValidate` stands for the config's own
   * validation, whose error ends configuration.
   */
  function ProviderConfigure(settings: Config, emptyFolder: bool, terraformVersion: string,
                             initAndValidate: (Config, string) -> Option<Error>)
    : (r: Result<Config, Error>)
    ensures var config := settings.(folderId := if emptyFolder then "" else settings.folderId);
      var version := if terraformVersion != "" then terraformVersion else LegacyTerraformVersion;
      version != "" &&
      (r.Failure? <==> initAndValidate(config, version).Some?) &&
      (r.Failure? ==> r.error == initAndValidate(config, version).value) &&
      (r.Success? ==> r.value == config)
    ensures r.Success? ==>
      r.value.folderId == (if emptyFolder then "" else settings.folderId) &&
      r.value.(folderId := settings.folderId) == settings
  {
    var (config, version) := Prepare(settings, emptyFolder, terraformVersion);
    match initAndValidate(config, version)
    case Some(e) => Failure(e)
    case None => Success(config)
  }

  // ---------------------------------------------------------------------
  // validateSAKey
  // ---------------------------------------------------------------------

  /**
   * `validateSAKey`. `fileExists` stands for a successful `os.Stat` of the
   * value and `jsonValid` for JSON that decodes into an object.
   */
  function ValidateSaKey(v: Option<string>, fileExists: string -> bool, jsonValid: string -> bool)
    : (r: (seq<string>, seq<Error>))
    ensures r.0 == []
    ensures |r.1| <= 1
    ensures r.1 != [] <==> v.Some? && v.value != "" && !fileExists(v.value) && !jsonValid(v.value)
    ensures r.1 != [] ==> r.1[0] == InvalidSaKeyJson(v.value)
  {
    if v.None? || v.value == "" then ([], [])
    else if fileExists(v.value) then ([], [])
    else if !jsonValid(v.value) then ([], [InvalidSaKeyJson(v.value)])
    else ([], [])
  }

  /** An absent or empty key is always accepted, whatever the file system holds. */
  lemma EmptySaKeyAccepted(fileExists: string -> bool, jsonValid: string -> bool)
    ensures ValidateSaKey(None, fileExists, jsonValid) == ([], [])
    ensures ValidateSaKey(Some(""), fileExists, jsonValid) == ([], [])
  {
  }
}
