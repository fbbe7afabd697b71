/**
 `validate_manifest`: the closed schema and the path fences a manifest must pass before
 anything is done with it.  The reader of the manifest is untrusted, so the input is any
 nested dictionary of strings, integers, booleans and tables.
 */
module Validation {
  import opened Wrappers
  import opened Text
  import opened TomlDocument
  import opened Manifest
  import opened Paths
  import FS = FileSystem

  const MANIFEST_NAME := "instance-manifest.toml"
  const OWNER_LOCK_NAME := "owner.lock"
  const PRODUCTION_PORT := 9889

  const FIXTURE_VARIANTS: set<string> := {
    "healthy", "empty-shell", "post-send-death", "process-less", "procfs-unavailable", "spawn-then-fault"
  }

  /** What `urllib.parse.urlsplit` reports. */
  datatype Url = Url(scheme: string, host: string, port: Option<nat>, path: string, plain: bool)

  /** The process environment and the library calls whose code is not modelled. */
  datatype Env = Env(
    cwd: AbsPath,
    home: AbsPath,
    isAlnum: char -> bool,
    urlsplit: string -> Option<Url>,
    sha256: FS.Content -> string,
    parseInt: string -> Option<int>,
    reprOf: Dict -> string)

  function Forbidden(env: Env): seq<AbsPath> {
    [env.home + [".aws", "cli-agent-orchestrator"],
     env.home + [".codex"], env.home + [".claude"], env.home + [".grok"], env.home + [".kimi"],
     env.home + [".gemini"], env.home + [".kiro"], env.home + [".copilot"],
     env.home + [".aws", "opencode"]]
  }

  /** A provider whose credentials are shared read-only. */
  datatype AuthPin = AuthPin(
    home: seq<string>, nativeHome: Option<seq<string>>, source: seq<string>, name: string, homeEnv: string)

  function PinOf(provider: string): Option<AuthPin> {
    if provider == "codex" then
      Some(AuthPin(["provider-homes", "codex"], None, [".codex", "auth.json"], "auth.json", "CODEX_HOME"))
    else if provider == "claude_code" then
      Some(AuthPin(["provider-homes", "claude"], Some(["provider-homes", "claude", "native-home"]),
        [".claude", ".credentials.json"], ".credentials.json", "CLAUDE_CONFIG_DIR"))
    else if provider == "grok_cli" then
      Some(AuthPin(["provider-homes", "grok"], None, [".grok", "auth.json"], "auth.json", "GROK_HOME"))
    else None
  }

  /** The parts of each mutable path below the root. */
  const MUTABLE_PARTS: seq<seq<string>> := [
    ["db", "cli-agent-orchestrator.db"], ["settings.json"], ["providers.toml"], [".env"], ["logs"],
    ["logs", "terminal"], ["fifos"], ["memory"], ["workflows"], ["scratch"], ["graph-exports"],
    ["sandbox.pid"]
  ]

  datatype Rejection =
    | MissingFields | UnknownFields | BadInstanceId | PathMismatch | UncleanRoot | RootAbsent
    | RootChanged | RootAliasesProduction | OutsideSchema | UncleanField | FieldAliasesProduction
    | BadEndpoint | BadSocket | BadSource | BadIdentity | BadInterpreter | InterpreterMismatch
    | BadProviderSet | BadProviderRow | UncleanProvider | BadFixture | BadFixtureBinary | BadFixtureState

  // ----- str() and int() of a dictionary value -----

  function StrOf(env: Env, v: Value): string {
    match v
    case Str(text) => text
    case Int(n) => IntText(n)
    case Bool(b) => if b then "True" else "False"
    case Table(entries) => env.reprOf(entries)
  }

  function IntOf(env: Env, v: Value): Option<int> {
    match v
    case Int(n) => Some(n)
    case Bool(b) => Some(if b then 1 else 0)
    case Str(text) => env.parseInt(text)
    case Table(_) => None
  }

  function PathOf(env: Env, v: Value): PurePath {
    ParsePath(StrOf(env, v))
  }

  /** `_canonical(Path(str(value)))`. */
  function Canonical(env: Env, fs: FS.Fs, v: Value): AbsPath {
    FS.Realpath(FS.LinksOf(fs), Abspath(env.cwd, PathOf(env, v)))
  }

  predicate AliasesProduction(env: Env, fs: FS.Fs, p: AbsPath) {
    exists f <- Forbidden(env) :: FS.Related(FS.LinksOf(fs), p, f)
  }

  // ----- the stages -----

  /** The values of a manifest whose keys are the closed set. */
  datatype Opened = Opened(
    id: string, root: Value, fields: seq<Value>, endpoint: Value, socket: Value, nonce: Value,
    device: Value, inode: Value, source: Value, providers: Value, fixture: Option<Value>)

  predicate HasRequired(d: Dict, scalars: seq<string>) {
    (forall key <- scalars :: key in d) && "source" in d && "providers" in d
  }

  predicate HasUnknown(d: Dict, scalars: seq<string>) {
    exists key <- d.Keys ::
      key !in scalars && key != "source" && key != "providers" && key != "fixture_providers"
  }

  lemma FieldIsTopKey(i: nat)
    requires i < |MUTABLE_PATHS|
    ensures MUTABLE_PATHS[i].0 in TOP_KEYS
  {
    assert TOP_KEYS[i + 3] == MUTABLE_PATHS[i].0;
  }

  predicate HasFields(d: Dict) {
    forall j :: 0 <= j < |MUTABLE_PATHS| ==> MUTABLE_PATHS[j].0 in d
  }

  lemma RequiredHasFields(d: Dict)
    requires forall key <- TOP_KEYS :: key in d
    ensures HasFields(d)
  {
    forall j | 0 <= j < |MUTABLE_PATHS|
      ensures MUTABLE_PATHS[j].0 in d
    {
      FieldIsTopKey(j);
    }
  }

  function FieldValues(d: Dict, i: nat): (values: seq<Value>)
    requires i <= |MUTABLE_PATHS| && HasFields(d)
    ensures |values| == |MUTABLE_PATHS| - i
    ensures forall j :: 0 <= j < |values| ==>
         MUTABLE_PATHS[i + j].0 in d && values[j] == d[MUTABLE_PATHS[i + j].0]
    decreases |MUTABLE_PATHS| - i
  {
    if i == |MUTABLE_PATHS| then []
    else
      [d[MUTABLE_PATHS[i].0]] + FieldValues(d, i + 1)
  }

  lemma ScalarFieldsAreRequired()
    ensures "instance_id" in TOP_KEYS && "root" in TOP_KEYS && "endpoint" in TOP_KEYS
    ensures "tmux_socket" in TOP_KEYS && "owner_nonce" in TOP_KEYS && "root_device" in TOP_KEYS
    ensures "root_inode" in TOP_KEYS
  {
    assert TOP_KEYS[0] == "instance_id" && TOP_KEYS[2] == "root" && TOP_KEYS[15] == "endpoint";
    assert TOP_KEYS[16] == "tmux_socket" && TOP_KEYS[17] == "owner_nonce";
    assert TOP_KEYS[18] == "root_device" && TOP_KEYS[19] == "root_inode";
  }

  function OpenManifest(env: Env, d: Dict): (o: Result<Opened, Rejection>)
    ensures o.Success? ==> |o.value.fields| == |MUTABLE_PATHS|
  {
    if !HasRequired(d, TOP_KEYS) then Failure(MissingFields)
    else if HasUnknown(d, TOP_KEYS) then Failure(UnknownFields)
    else
      ScalarFieldsAreRequired();
      RequiredHasFields(d);
      var id := d["instance_id"];
      if !id.Str? || |id.text| != 8 || exists c <- id.text :: !env.isAlnum(c) then Failure(BadInstanceId)
      else
        Success(Opened(id.text, d["root"], FieldValues(d, 0), d["endpoint"], d["tmux_socket"],
          d["owner_nonce"], d["root_device"], d["root_inode"], d["source"], d["providers"],
          if "fixture_providers" in d then Some(d["fixture_providers"]) else None))
  }

  function CheckRoot(env: Env, fs: FS.Fs, o: Opened, root: AbsPath, path: PurePath): Check<Rejection> {
    if path != Absolute(root + [MANIFEST_NAME]) then Fail(PathMismatch)
    else if !FS.Clean(fs, root + [MANIFEST_NAME], false) || !FS.Clean(fs, root, false) then Fail(UncleanRoot)
    else if !FS.IsDir(fs, root) then Fail(RootAbsent)
    else
      var node := FS.Stat(fs, root).node;
      if IntOf(env, o.device) != Some(node.device as int) || IntOf(env, o.inode) != Some(node.inode as int)
      then Fail(RootChanged)
      else Need(!AliasesProduction(env, fs, root), RootAliasesProduction)
  }

  function CheckField(env: Env, fs: FS.Fs, value: Value, root: AbsPath, i: nat): Check<Rejection>
    requires i < |MUTABLE_PARTS|
  {
    var field := root + MUTABLE_PARTS[i];
    if PathOf(env, value) != Absolute(field) then Fail(OutsideSchema)
    else if !FS.Clean(fs, field, false) then Fail(UncleanField)
    else Need(!AliasesProduction(env, fs, field), FieldAliasesProduction)
  }

  function CheckFields(env: Env, fs: FS.Fs, values: seq<Value>, root: AbsPath, i: nat): (c: Check<Rejection>)
    requires |values| == |MUTABLE_PARTS| && i <= |values|
    ensures c.Pass? <==> forall j :: i <= j < |values| ==> CheckField(env, fs, values[j], root, j).Pass?
    decreases |values| - i
  {
    if i == |values| then Pass
    else
      match CheckField(env, fs, values[i], root, i)
      case Fail(e) => Fail(e)
      case Pass => CheckFields(env, fs, values, root, i + 1)
  }

  /** `_validate_endpoint`: the origin and its port. */
  function Endpoint(env: Env, v: Value): Option<(string, nat)> {
    if !v.Str? then None
    else
      match env.urlsplit(v.text)
      case None => None
      case Some(url) =>
        if url.scheme == "http" && url.host == "127.0.0.1" && url.port.Some?
           && (url.path == "" || url.path == "/") && url.plain && url.port.value != PRODUCTION_PORT
        then Some((StripSlashes(v.text), url.port.value))
        else None
  }

  function StripSlashes(s: string): string {
    if |s| > 0 && s[|s| - 1] == '/' then StripSlashes(s[..|s| - 1]) else s
  }

  function CheckEndpoint(env: Env, o: Opened): Check<Rejection> {
    if Endpoint(env, o.endpoint).None? then Fail(BadEndpoint)
    else Need(o.socket == Str("cao-sbx-" + o.id), BadSocket)
  }

  const SOURCE_FIELDS: set<string> :=
    {"fork_root", "interpreter_identity", "commit_sha", "source_merkle", "dirty"}
  const IDENTITY_FIELDS: set<string> :=
    {"interpreter_path", "venv_prefix", "base_interpreter_realpath"}

  predicate SourceShape(v: Value) {
    && v.Table? && v.entries.Keys == SOURCE_FIELDS
    && v.entries["interpreter_identity"].Table?
    && v.entries["interpreter_identity"].entries.Keys == IDENTITY_FIELDS
  }

  function VenvPython(fork: AbsPath): AbsPath {
    fork + [".venv", "bin", "python"]
  }

  function CheckSource(env: Env, fs: FS.Fs, v: Value): Check<Rejection> {
    if !v.Table? || v.entries.Keys != SOURCE_FIELDS then Fail(BadSource)
    else if !SourceShape(v) then Fail(BadIdentity)
    else
      var identity := v.entries["interpreter_identity"].entries;
      var fork := Canonical(env, fs, v.entries["fork_root"]);
      var python := VenvPython(fork);
      var base := Canonical(env, fs, identity["base_interpreter_realpath"]);
      if PathOf(env, identity["interpreter_path"]) != Absolute(python)
         || Canonical(env, fs, identity["venv_prefix"]) != fork + [".venv"]
         || !FS.Clean(fs, python, true)
         || FS.Lstat(fs, python).Missing? || FS.Lstat(fs, python).Error?
         || !FS.Lstat(fs, python).node.Link?
      then Fail(BadInterpreter)
      else if FS.Realpath(FS.LinksOf(fs), python) != base then Fail(InterpreterMismatch)
      else
        match (FS.Stat(fs, python), FS.Stat(fs, base))
        case (Entry(a), Entry(b)) => Need(FS.Inode(a) == FS.Inode(b), InterpreterMismatch)
        case _ => Fail(InterpreterMismatch)
  }

  /** The row a shared-auth provider must have below `root`. */
  function SharedRow(env: Env, root: AbsPath, pin: AuthPin): Dict {
    var home := root + pin.home;
    var row: Dict := map[
      "classification" := Str("shared-auth-read-only"),
      "home" := Str(PathText(home)),
      "home_env" := Str(pin.homeEnv),
      "credential_source" := Str(PathText(env.home + pin.source)),
      "credential_path" := Str(PathText(home + [pin.name]))];
    match pin.nativeHome
    case None => row
    case Some(native) => row["native_home" := Str(PathText(root + native))]
  }

  const UNSAFE_ROW: Dict := map["classification" := Str("unsafe")]

  /** The provider paths the manifest pins below its root. */
  function ProviderHomes(root: AbsPath, pin: AuthPin): seq<AbsPath> {
    [root + pin.home, root + pin.home + [pin.name]]
    + (match pin.nativeHome case None => [] case Some(native) => [root + native])
  }

  function CheckProvider(env: Env, fs: FS.Fs, root: AbsPath, provider: string, row: Value): Check<Rejection> {
    match PinOf(provider)
    case None => Need(row == Table(UNSAFE_ROW), BadProviderRow)
    case Some(pin) =>
      if row != Table(SharedRow(env, root, pin)) then Fail(BadProviderRow)
      else Need(forall home <- ProviderHomes(root, pin) :: FS.Clean(fs, home, false), UncleanProvider)
  }

  function CheckProviders(env: Env, fs: FS.Fs, root: AbsPath, v: Value): Check<Rejection> {
    if !v.Table? || v.entries.Keys != (set p | p in PROVIDERS) then Fail(BadProviderSet)
    else if forall p <- PROVIDERS :: CheckProvider(env, fs, root, p, v.entries[p]).Pass? then Pass
    else Fail(BadProviderRow)
  }

  const FIXTURE_FIELDS: set<string> :=
    {"classification", "binary_realpath", "binary_sha256", "variant", "state_dir"}

  predicate FixtureShape(v: Value) {
    && v.Table? && v.entries.Keys == {"mock_cli"} && v.entries["mock_cli"].Table?
    && v.entries["mock_cli"].entries.Keys == FIXTURE_FIELDS
    && v.entries["mock_cli"].entries["classification"] == Str("fixture-test")
    && v.entries["mock_cli"].entries["variant"].Str?
    && v.entries["mock_cli"].entries["variant"].text in FIXTURE_VARIANTS
  }

  predicate FixtureBinary(env: Env, fs: FS.Fs, fork: AbsPath, path: Value, hash: Value) {
    var p := Abspath(env.cwd, PathOf(env, path));
    var binary := FS.Realpath(FS.LinksOf(fs), p);
    && FS.Clean(fs, p, false)
    && FS.IsFile(fs, binary) && FS.Stat(fs, binary).node.executable
    && Within(binary, fork)
    && hash == Str(env.sha256(FS.Stat(fs, binary).node.content))
  }

  predicate FixtureState(env: Env, fs: FS.Fs, root: AbsPath, dir: Value) {
    && Within(Canonical(env, fs, dir), root)
    && FS.Clean(fs, Abspath(env.cwd, PathOf(env, dir)), false)
  }

  function CheckFixture(env: Env, fs: FS.Fs, root: AbsPath, fork: AbsPath, v: Value): Check<Rejection> {
    if !FixtureShape(v) then Fail(BadFixture)
    else
      var row := v.entries["mock_cli"].entries;
      if !FixtureBinary(env, fs, fork, row["binary_realpath"], row["binary_sha256"]) then Fail(BadFixtureBinary)
      else Need(FixtureState(env, fs, root, row["state_dir"]), BadFixtureState)
  }

  /** Everything `validate_manifest` checks once the keys are known to be the closed set. */
  function CheckOpened(env: Env, fs: FS.Fs, o: Opened, root: AbsPath, path: PurePath): Check<Rejection>
    requires |o.fields| == |MUTABLE_PARTS|
  {
    var placeCheck := CheckPlaces(env, fs, o, root, path);
    if placeCheck.Fail? then placeCheck else CheckContents(env, fs, o, root)
  }

  /** The root, the twelve path fields and the endpoint. */
  function CheckPlaces(env: Env, fs: FS.Fs, o: Opened, root: AbsPath, path: PurePath): Check<Rejection>
    requires |o.fields| == |MUTABLE_PARTS|
  {
    var rootCheck := CheckRoot(env, fs, o, root, path);
    if rootCheck.Fail? then rootCheck
    else
      var fieldCheck := CheckFields(env, fs, o.fields, root, 0);
      if fieldCheck.Fail? then fieldCheck else CheckEndpoint(env, o)
  }

  /** The source identity, the providers and the fixture. */
  function CheckContents(env: Env, fs: FS.Fs, o: Opened, root: AbsPath): Check<Rejection> {
    var sourceCheck := CheckSource(env, fs, o.source);
    if sourceCheck.Fail? then sourceCheck
    else
      var providerCheck := CheckProviders(env, fs, root, o.providers);
      if providerCheck.Fail? then providerCheck
      else if o.fixture.None? then Pass
      else
        CheckFixture(env, fs, root, Canonical(env, fs, o.source.entries["fork_root"]), o.fixture.value)
  }

  /** `validate_manifest(manifest, manifest_path)`: the accepted dictionary or a refusal. */
  function ValidateManifest(env: Env, fs: FS.Fs, d: Dict, path: PurePath): Result<Dict, Rejection> {
    match OpenManifest(env, d)
    case Failure(e) => Failure(e)
    case Success(o) =>
      var root := Canonical(env, fs, o.root);
      match CheckOpened(env, fs, o, root, path)
      case Fail(e) => Failure(e)
      case Pass =>
        Success(d["root" := Str(PathText(root))]["endpoint" := Str(Endpoint(env, o.endpoint).value.0)])
  }

  // ----- what acceptance guarantees -----

  /** Every path below the root that an accepted manifest lets the sandbox write to. */
  function SandboxPaths(root: AbsPath): seq<AbsPath> {
    FieldPaths(root, 0) + HomesOf(root, "codex") + HomesOf(root, "claude_code") + HomesOf(root, "grok_cli")
  }

  function FieldPaths(root: AbsPath, i: nat): (paths: seq<AbsPath>)
    requires i <= |MUTABLE_PARTS|
    ensures forall p <- paths :: exists j :: i <= j < |MUTABLE_PARTS| && p == root + MUTABLE_PARTS[j]
    decreases |MUTABLE_PARTS| - i
  {
    if i == |MUTABLE_PARTS| then [] else [root + MUTABLE_PARTS[i]] + FieldPaths(root, i + 1)
  }

  function HomesOf(root: AbsPath, provider: string): seq<AbsPath> {
    match PinOf(provider)
    case None => []
    case Some(pin) => ProviderHomes(root, pin)
  }

  predicate PlainEnv(env: Env) {
    PlainPath(env.cwd) && PlainPath(env.home)
  }

  lemma FieldPartsArePlain(i: nat)
    requires i < |MUTABLE_PARTS|
    ensures |MUTABLE_PARTS| == |MUTABLE_PATHS| && PlainPath(MUTABLE_PARTS[i]) && |MUTABLE_PARTS[i]| > 0
  {
  }

  lemma PinNamesArePlain()
    ensures Plain("provider-homes") && Plain("codex") && Plain("claude") && Plain("grok")
    ensures Plain("native-home") && Plain("auth.json") && Plain(".credentials.json")
  {
  }

  lemma PinPartsArePlain(provider: string, pin: AuthPin)
    requires PinOf(provider) == Some(pin)
    ensures PlainPath(pin.home) && Plain(pin.name)
    ensures pin.nativeHome.Some? ==> PlainPath(pin.nativeHome.value)
  {
    PinNamesArePlain();
    assert |pin.home| == 2 && Plain(pin.home[0]) && Plain(pin.home[1]);
  }

  /** A relative path spelt with its parts joined parses to those parts. */
  lemma ParseRelative(text: string, parts: seq<string>)
    requires PlainPath(parts) && |parts| > 0 && text == Join(parts, '/')
    ensures ParsePath(text) == PurePath("", parts)
  {
    assert forall j :: 0 <= j < |parts| ==> Plain(parts[j]);
    SplitJoin(parts, '/');
    FilterPlain(parts);
    assert Plain(parts[0]) && parts[0][0] in parts[0];
    assert text[0] == parts[0][0];
  }

  lemma FieldTextIsJoined(i: nat)
    requires i < |MUTABLE_PATHS|
    ensures MUTABLE_PATHS[i].1 == Join(MUTABLE_PARTS[i], '/')
  {
    if i == 0 {
      JoinTwo("db", "cli-agent-orchestrator.db");
    } else if i == 5 {
      JoinTwo("logs", "terminal");
    } else {
      assert |MUTABLE_PARTS[i]| == 1;
    }
  }

  lemma JoinTwo(a: string, b: string)
    ensures Join([a, b], '/') == a + "/" + b
  {
    assert [a, b][1..] == [b];
  }

  /** `MUTABLE_PARTS` are the parts of the relative paths in the manifest's field table. */
  lemma FieldPartsMatch(i: nat)
    requires i < |MUTABLE_PATHS|
    ensures ParsePath(MUTABLE_PATHS[i].1) == PurePath("", MUTABLE_PARTS[i])
  {
    FieldPartsArePlain(i);
    FieldTextIsJoined(i);
    ParseRelative(MUTABLE_PATHS[i].1, MUTABLE_PARTS[i]);
  }

  lemma RootIsPlain(env: Env, fs: FS.Fs, v: Value)
    requires PlainEnv(env) && FS.WellFormed(fs)
    ensures PlainPath(Canonical(env, fs, v))
  {
    AbspathIsPlain(env.cwd, StrOf(env, v));
    FS.RealpathIsPlain(FS.LinksOf(fs), Abspath(env.cwd, PathOf(env, v)));
  }

  predicate RootFenced(env: Env, fs: FS.Fs, root: AbsPath) {
    PlainPath(root) && FS.Clean(fs, root, false) && !AliasesProduction(env, fs, root)
  }

  /**
   The alias check `validate_manifest` repeats for each field can never fire: once the
   root has passed its own checks, no clean path below it aliases production.
   */
  lemma FieldAliasCheckNeverFires(env: Env, fs: FS.Fs, root: AbsPath, p: AbsPath)
    requires RootFenced(env, fs, root)
    requires PlainPath(p) && Within(p, root) && FS.Clean(fs, p, false)
    ensures !AliasesProduction(env, fs, p)
  {
    if AliasesProduction(env, fs, p) {
      var f :| f in Forbidden(env) && FS.Related(FS.LinksOf(fs), p, f);
      FS.FieldAliasIsRootAlias(fs, root, p, f);
    }
  }

  lemma FieldPathWasChecked(env: Env, fs: FS.Fs, values: seq<Value>, root: AbsPath, p: AbsPath)
    requires |values| == |MUTABLE_PARTS| && CheckFields(env, fs, values, root, 0).Pass?
    requires PlainPath(root) && p in FieldPaths(root, 0)
    ensures PlainPath(p) && Within(p, root) && FS.Clean(fs, p, false)
  {
    var i :| 0 <= i < |MUTABLE_PARTS| && p == root + MUTABLE_PARTS[i];
    FieldPartsArePlain(i);
    assert CheckField(env, fs, values[i], root, i).Pass?;
  }

  lemma HomeWasChecked(env: Env, fs: FS.Fs, providers: Value, root: AbsPath, name: string, p: AbsPath)
    requires CheckProviders(env, fs, root, providers).Pass?
    requires PlainPath(root) && name in PROVIDERS && p in HomesOf(root, name)
    ensures PlainPath(p) && Within(p, root) && FS.Clean(fs, p, false)
  {
    PinPartsArePlain(name, PinOf(name).value);
    assert CheckProvider(env, fs, root, name, providers.entries[name]).Pass?;
  }

  lemma SharedAuthProvidersAreProviders()
    ensures "codex" in PROVIDERS && "claude_code" in PROVIDERS && "grok_cli" in PROVIDERS
  {
    assert PROVIDERS[3] == "codex" && PROVIDERS[2] == "claude_code" && PROVIDERS[1] == "grok_cli";
  }

  lemma HomePathWasChecked(env: Env, fs: FS.Fs, providers: Value, root: AbsPath, p: AbsPath)
    requires CheckProviders(env, fs, root, providers).Pass? && PlainPath(root)
    requires p in HomesOf(root, "codex") + HomesOf(root, "claude_code") + HomesOf(root, "grok_cli")
    ensures PlainPath(p) && Within(p, root) && FS.Clean(fs, p, false)
  {
    SharedAuthProvidersAreProviders();
    if p in HomesOf(root, "codex") {
      HomeWasChecked(env, fs, providers, root, "codex", p);
    } else if p in HomesOf(root, "claude_code") {
      HomeWasChecked(env, fs, providers, root, "claude_code", p);
    } else {
      HomeWasChecked(env, fs, providers, root, "grok_cli", p);
    }
  }

  /** The root an accepted manifest was checked against. */
  function RootOf(env: Env, fs: FS.Fs, d: Dict): AbsPath
    requires OpenManifest(env, d).Success?
  {
    Canonical(env, fs, OpenManifest(env, d).value.root)
  }

  /** Every sandbox path of an accepted manifest is plain, below the root, and was checked. */
  lemma SandboxPathWasChecked(env: Env, fs: FS.Fs, o: Opened, root: AbsPath, path: PurePath, p: AbsPath)
    requires |o.fields| == |MUTABLE_PARTS| && CheckOpened(env, fs, o, root, path).Pass?
    requires PlainPath(root) && p in SandboxPaths(root)
    ensures PlainPath(p) && Within(p, root) && FS.Clean(fs, p, false)
  {
    if p in FieldPaths(root, 0) {
      FieldPathWasChecked(env, fs, o.fields, root, p);
    } else {
      HomePathWasChecked(env, fs, o.providers, root, p);
    }
  }

  /**
   For every file system and every accepted manifest: each path the sandbox may write is
   its own realpath, lies inside the canonical root, and is incomparable with the real
   location of every forbidden path.
   */
  lemma AcceptedPathsAreContained(env: Env, fs: FS.Fs, d: Dict, path: PurePath, p: AbsPath, f: AbsPath)
    requires PlainEnv(env) && FS.WellFormed(fs)
    requires ValidateManifest(env, fs, d, path).Success?
    requires p in SandboxPaths(RootOf(env, fs, d)) && f in Forbidden(env)
    ensures var root := RootOf(env, fs, d);
         && FS.Realpath(FS.LinksOf(fs), root) == root
         && FS.Realpath(FS.LinksOf(fs), p) == p
         && Within(p, root)
         && !Comparable(p, FS.Realpath(FS.LinksOf(fs), f))
         && !Comparable(root, FS.Realpath(FS.LinksOf(fs), f))
  {
    var o := OpenManifest(env, d).value;
    var root := RootOf(env, fs, d);
    RootIsPlain(env, fs, o.root);
    SandboxPathWasChecked(env, fs, o, root, path, p);
    assert CheckRoot(env, fs, o, root, path).Pass?;
    FS.CleanIsReal(fs, root);
    FS.CleanIsReal(fs, p);
    FieldAliasCheckNeverFires(env, fs, root, p);
    assert !FS.Related(FS.LinksOf(fs), p, f);
    assert !FS.Related(FS.LinksOf(fs), root, f);
  }
}
