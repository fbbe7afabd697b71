/**
 `_build_manifest`: reserving a fresh root and writing down everything the sandbox is
 pinned to.  Every manifest it returns passes `validate_manifest` at its own path.
 */
module Reservation {
  import opened Wrappers
  import opened Text
  import opened TomlDocument
  import opened Manifest
  import opened ManifestRoundTrip
  import opened Paths
  import FS = FileSystem
  import opened Validation

  /** What the operating system, git, the clock and the random source supply. */
  datatype Request = Request(
    root: PurePath, port: int, variant: Option<string>,
    moduleRoot: AbsPath, sysPrefix: AbsPath, sysExecutable: AbsPath,
    instanceId: string, createdAt: string, nonce: string,
    device: nat, inode: nat, stateInode: nat,
    source: Option<(string, string, bool)>)

  datatype BuildError =
    | RootExists | RootOverlapsProduction | UncleanParent | BadPort | WrongInterpreter
    | CannotCreateRoot | NoSourceIdentity | BadBinary | CannotCreateState

  datatype Reserved = Reserved(manifest: InstanceManifest, fs: FS.Fs, root: AbsPath)

  function WithDir(fs: FS.Fs, p: AbsPath, device: nat, inode: nat): FS.Fs {
    fs.(nodes := fs.nodes[p := FS.Dir(device, inode)])
  }

  /** `mkdir` of a path whose parent is a directory and which is not there yet. */
  predicate CanCreate(fs: FS.Fs, p: AbsPath) {
    p != [] && p !in fs.nodes && Parent(p) in fs.nodes && fs.nodes[Parent(p)].Dir?
  }

  function ForkRoot(fs: FS.Fs, r: Request): AbsPath {
    FS.Realpath(FS.LinksOf(fs), r.moduleRoot)
  }

  /** The row written for a shared-auth provider. */
  function SharedPairs(env: Env, root: AbsPath, pin: AuthPin): ProviderRow {
    var home := root + pin.home;
    [("classification", "shared-auth-read-only"),
     ("home", PathText(home)),
     ("home_env", pin.homeEnv),
     ("credential_source", PathText(env.home + pin.source)),
     ("credential_path", PathText(home + [pin.name]))]
    + NativePairs(root, pin)
  }

  function NativePairs(root: AbsPath, pin: AuthPin): ProviderRow {
    match pin.nativeHome
    case None => []
    case Some(native) => [("native_home", PathText(root + native))]
  }

  function RowFor(env: Env, root: AbsPath, provider: string): ProviderRow {
    match PinOf(provider)
    case None => [("classification", "unsafe")]
    case Some(pin) => SharedPairs(env, root, pin)
  }

  function RowsFor(env: Env, root: AbsPath): seq<ProviderRow> {
    seq(|PROVIDERS|, i requires 0 <= i < |PROVIDERS| => RowFor(env, root, PROVIDERS[i]))
  }

  function FieldTexts(root: AbsPath): seq<string> {
    seq(|MUTABLE_PARTS|, i requires 0 <= i < |MUTABLE_PARTS| => PathText(root + MUTABLE_PARTS[i]))
  }

  function SourceFor(fs: FS.Fs, r: Request): Source
    requires r.source.Some?
  {
    var fork := ForkRoot(fs, r);
    var links := FS.LinksOf(fs);
    Source(PathText(fork), r.source.value.0, r.source.value.1, r.source.value.2,
      Interpreter(
        PathText(VenvPython(fork)),
        PathText(FS.Realpath(links, r.sysPrefix)),
        PathText(FS.Realpath(links, VenvPython(fork)))))
  }

  const FIXTURE_BINARY: seq<string> := ["test", "providers", "fixtures", "bin", "mock_cli"]

  function BinaryPath(fs: FS.Fs, r: Request): AbsPath {
    FS.Realpath(FS.LinksOf(fs), ForkRoot(fs, r) + FIXTURE_BINARY)
  }

  function StateDir(root: AbsPath): AbsPath {
    root + ["fixture-provider-state"]
  }

  function FixtureFor(env: Env, fs: FS.Fs, r: Request, root: AbsPath): Option<FixtureRow>
    requires r.variant.Some? ==> FS.IsFile(fs, BinaryPath(fs, r))
  {
    match r.variant
    case None => None
    case Some(variant) =>
      var binary := BinaryPath(fs, r);
      Some(FixtureRow("fixture-test", PathText(binary), env.sha256(FS.Stat(fs, binary).node.content),
        variant, PathText(StateDir(root))))
  }

  predicate BinaryUsable(fs: FS.Fs, r: Request) {
    var binary := BinaryPath(fs, r);
    FS.IsFile(fs, binary) && FS.Stat(fs, binary).node.executable && Within(binary, ForkRoot(fs, r))
  }

  function ManifestFor(env: Env, fs: FS.Fs, r: Request, root: AbsPath): InstanceManifest
    requires r.source.Some?
    requires r.variant.Some? ==> FS.IsFile(fs, BinaryPath(fs, r))
  {
    InstanceManifest(
      r.instanceId, r.createdAt, PathText(root), FieldTexts(root),
      "http://127.0.0.1:" + (if r.port < 0 then "" else Decimal(r.port)),
      "cao-sbx-" + r.instanceId, r.nonce, r.device, r.inode,
      SourceFor(fs, r), RowsFor(env, root), FixtureFor(env, fs, r, root))
  }

  function RootFor(env: Env, fs: FS.Fs, r: Request): AbsPath {
    FS.Realpath(FS.LinksOf(fs), Abspath(env.cwd, r.root))
  }

  /** The checks made before anything is created. */
  function Preflight(env: Env, fs: FS.Fs, r: Request): Check<BuildError> {
    var links := FS.LinksOf(fs);
    var root := RootFor(env, fs, r);
    var fork := ForkRoot(fs, r);
    if FS.Exists(fs, root) then Fail(RootExists)
    else if AliasesProduction(env, fs, root) then Fail(RootOverlapsProduction)
    else if !FS.Clean(fs, Parent(root), false) then Fail(UncleanParent)
    else if r.port == PRODUCTION_PORT || !(1 <= r.port <= 65535) then Fail(BadPort)
    else if FS.Realpath(links, r.sysPrefix) != fork + [".venv"]
         || FS.Realpath(links, r.sysExecutable) != FS.Realpath(links, VenvPython(fork))
    then Fail(WrongInterpreter)
    else Pass
  }

  /**
   `_build_manifest`.  On a failure after the root was made, the caller's exception handler
   removes it again; `created` says whether that point was reached.
   */
  function BuildManifest(env: Env, fs: FS.Fs, r: Request): Result<Reserved, (BuildError, bool)> {
    match Preflight(env, fs, r)
    case Fail(e) => Failure((e, false))
    case Pass =>
      var root := RootFor(env, fs, r);
      if !CanCreate(fs, root) then Failure((CannotCreateRoot, false))
      else
        var made := WithDir(fs, root, r.device, r.inode);
        if r.source.None? then Failure((NoSourceIdentity, true))
        else if r.variant.Some? && !BinaryUsable(made, r) then Failure((BadBinary, true))
        else if r.variant.Some? && !CanCreate(made, StateDir(root)) then Failure((CannotCreateState, true))
        else Success(Reserved(ManifestFor(env, made, r, root), ReservedFs(fs, root, r), root))
  }

  /** The file system with the new root and, for a fixture, its state directory. */
  function ReservedFs(fs: FS.Fs, root: AbsPath, r: Request): FS.Fs {
    var made := WithDir(fs, root, r.device, r.inode);
    if r.variant.None? then made else WithDir(made, StateDir(root), r.device, r.stateInode)
  }

  // ----- the assumptions under which the manifest is accepted -----

  /** The venv interpreter is a link, reached through clean components, and it resolves. */
  predicate VenvIsLinked(fs: FS.Fs, r: Request) {
    var python := VenvPython(ForkRoot(fs, r));
    && FS.Clean(fs, python, true)
    && FS.Lstat(fs, python).Entry? && FS.Lstat(fs, python).node.Link?
    && FS.Exists(fs, python)
  }

  /** A pinned fixture binary has clean components; in particular it is not hard-linked. */
  predicate BinaryIsClean(fs: FS.Fs, r: Request) {
    r.variant.Some? ==> FS.Clean(fs, BinaryPath(fs, r), false)
  }

  /** The library calls and identifiers behave as documented for this request. */
  predicate WellBehaved(env: Env, r: Request) {
    && PlainEnv(env)
    && PlainPath(r.moduleRoot) && PlainPath(r.sysPrefix)
    && (forall part <- r.root.parts :: '/' !in part)
    && |r.instanceId| == 8 && (forall c <- r.instanceId :: env.isAlnum(c))
    && (r.variant.Some? ==> r.variant.value in FIXTURE_VARIANTS)
    && (1 <= r.port ==>
          env.urlsplit("http://127.0.0.1:" + Decimal(r.port))
          == Some(Url("http", "127.0.0.1", Some(r.port), "", true)))
  }

  // ----- dictionary lookups -----

  lemma {:induction false} DictLookup(pairs: Pairs, i: nat)
    requires i < |pairs| && Distinct(Keys(pairs))
    ensures pairs[i].0 in DictOf(pairs) && DictOf(pairs)[pairs[i].0] == pairs[i].1
  {
    KeysTail(pairs);
    if i == 0 {
      assert pairs[0].0 !in DictOf(pairs[1..]);
    } else {
      DictLookup(pairs[1..], i - 1);
    }
  }

  lemma SubtablesKeep(top: Dict, source: Dict, providers: Dict, fixture: Option<FixtureRow>, key: string)
    requires key in top && key != "source" && key != "providers" && key != "fixture_providers"
    ensures key in WithSubtables(top, source, providers, fixture)
    ensures WithSubtables(top, source, providers, fixture)[key] == top[key]
  {
  }

  lemma SubtablesAt(top: Dict, source: Dict, providers: Dict, fixture: Option<FixtureRow>)
    ensures var d := WithSubtables(top, source, providers, fixture);
         && "source" in d && d["source"] == Table(source)
         && "providers" in d && d["providers"] == Table(providers)
         && (fixture.Some? ==>
              "fixture_providers" in d && d["fixture_providers"] == FixtureTable(fixture.value))
         && (fixture.None? && "fixture_providers" !in top ==> "fixture_providers" !in d)
         && d.Keys == top.Keys + {"source", "providers"}
              + (if fixture.Some? then {"fixture_providers"} else {})
  {
    assert "source" != "providers" && "source" != "fixture_providers" && "providers" != "fixture_providers";
  }

  lemma TopPairAt(m: InstanceManifest, i: nat, key: string)
    requires Closed(m) && i < |TOP_KEYS| && key == TOP_KEYS[i]
    ensures key in ToDict(m) && ToDict(m)[key] == TopPairs(m)[i].1
  {
    var pairs := TopPairs(m);
    TopKeys(m);
    assert Keys(pairs)[i] == key;
    DictLookup(pairs, i);
    SubtablesAreNotTopKeys();
    SubtablesKeep(DictOf(pairs), SourceDict(m.source), ProviderTable(m, |PROVIDERS|), m.fixture, key);
  }

  // ----- opening the dictionary of a typed manifest -----

  lemma TopValues(m: InstanceManifest)
    requires Closed(m)
    ensures var v := TopPairs(m);
         && |v| == |TOP_KEYS|
         && v[0].1 == Str(m.instanceId) && v[2].1 == Str(m.root)
         && v[15].1 == Str(m.endpoint) && v[16].1 == Str(m.tmuxSocket) && v[17].1 == Str(m.ownerNonce)
         && v[18].1 == Int(m.rootDevice) && v[19].1 == Int(m.rootInode)
  {
  }

  lemma TopField(m: InstanceManifest, j: nat)
    requires Closed(m) && j < |MUTABLE_PATHS|
    ensures j + 3 < |TopPairs(m)| == |TOP_KEYS| && TopPairs(m)[j + 3].1 == Str(m.mutable[j])
  {
  }

  lemma FieldKey(j: nat)
    requires j < |MUTABLE_PATHS|
    ensures j + 3 < |TOP_KEYS| && TOP_KEYS[j + 3] == MUTABLE_PATHS[j].0
  {
  }

  lemma SchemaOf(top: Dict, source: Dict, providers: Dict, fixture: Option<FixtureRow>, scalars: seq<string>)
    requires forall key :: key in top <==> key in scalars
    requires "source" !in scalars && "providers" !in scalars && "fixture_providers" !in scalars
    ensures var d := WithSubtables(top, source, providers, fixture);
         && HasRequired(d, scalars) && !HasUnknown(d, scalars)
         && ("fixture_providers" in d) == fixture.Some?
  {
    SubtablesAt(top, source, providers, fixture);
  }

  lemma DictSchema(m: InstanceManifest)
    requires Closed(m)
    ensures HasRequired(ToDict(m), TOP_KEYS) && !HasUnknown(ToDict(m), TOP_KEYS)
    ensures ("fixture_providers" in ToDict(m)) == m.fixture.Some?
  {
    TopKeys(m);
    SubtablesAreNotTopKeys();
    SchemaOf(DictOf(TopPairs(m)), SourceDict(m.source), ProviderTable(m, |PROVIDERS|), m.fixture, TOP_KEYS);
  }

  lemma DictFields(m: InstanceManifest, i: nat)
    requires Closed(m) && i < |MUTABLE_PATHS|
    ensures MUTABLE_PATHS[i].0 in ToDict(m) && ToDict(m)[MUTABLE_PATHS[i].0] == Str(m.mutable[i])
  {
    TopField(m, i);
    FieldKey(i);
    TopPairAt(m, i + 3, MUTABLE_PATHS[i].0);
  }

  predicate Holds(d: Dict, key: string, value: Value) {
    key in d && d[key] == value
  }

  lemma DictNames(m: InstanceManifest)
    requires Closed(m)
    ensures var d := ToDict(m);
         Holds(d, "instance_id", Str(m.instanceId)) && Holds(d, "root", Str(m.root))
  {
    TopValues(m);
    TopKeyNames();
    TopPairAt(m, 0, "instance_id");
    TopPairAt(m, 2, "root");
  }

  lemma DictEndpoint(m: InstanceManifest)
    requires Closed(m)
    ensures Holds(ToDict(m), "endpoint", Str(m.endpoint))
  {
    TopValues(m);
    TopKeyNames();
    TopPairAt(m, 15, "endpoint");
  }

  lemma DictOwner(m: InstanceManifest)
    requires Closed(m)
    ensures var d := ToDict(m);
         Holds(d, "tmux_socket", Str(m.tmuxSocket)) && Holds(d, "owner_nonce", Str(m.ownerNonce))
  {
    TopValues(m);
    TopKeyNames();
    TopPairAt(m, 16, "tmux_socket");
    TopPairAt(m, 17, "owner_nonce");
  }

  lemma DictRootIdentity(m: InstanceManifest)
    requires Closed(m)
    ensures var d := ToDict(m);
         Holds(d, "root_device", Int(m.rootDevice)) && Holds(d, "root_inode", Int(m.rootInode))
  {
    TopValues(m);
    TopKeyNames();
    TopPairAt(m, 18, "root_device");
    TopPairAt(m, 19, "root_inode");
  }

  /** What `OpenManifest` finds in the dictionary of `m`. */
  function OpenedFrom(m: InstanceManifest): Opened
    requires Closed(m)
  {
    Opened(m.instanceId, Str(m.root), seq(|m.mutable|, i requires 0 <= i < |m.mutable| => Str(m.mutable[i])),
      Str(m.endpoint), Str(m.tmuxSocket), Str(m.ownerNonce), Int(m.rootDevice), Int(m.rootInode),
      Table(SourceDict(m.source)), Table(ProviderTable(m, |PROVIDERS|)),
      if m.fixture.Some? then Some(FixtureTable(m.fixture.value)) else None)
  }

  predicate GoodId(env: Env, id: string) {
    |id| == 8 && forall c <- id :: env.isAlnum(c)
  }

  lemma OpenSubtables(m: InstanceManifest)
    requires Closed(m)
    ensures var d := ToDict(m);
         && Holds(d, "source", Table(SourceDict(m.source)))
         && Holds(d, "providers", Table(ProviderTable(m, |PROVIDERS|)))
         && (m.fixture.Some? ==> Holds(d, "fixture_providers", FixtureTable(m.fixture.value)))
  {
    SubtablesAt(DictOf(TopPairs(m)), SourceDict(m.source), ProviderTable(m, |PROVIDERS|), m.fixture);
  }

  lemma OpenFields(m: InstanceManifest)
    requires Closed(m)
    ensures HasFields(ToDict(m)) && FieldValues(ToDict(m), 0) == OpenedFrom(m).fields
  {
    forall i | 0 <= i < |MUTABLE_PATHS|
      ensures Holds(ToDict(m), MUTABLE_PATHS[i].0, Str(m.mutable[i]))
    {
      DictFields(m, i);
    }
    FieldValuesAre(ToDict(m), m.mutable);
  }

  lemma FieldValuesAre(d: Dict, texts: seq<string>)
    requires |texts| == |MUTABLE_PATHS|
    requires forall i :: 0 <= i < |texts| ==> Holds(d, MUTABLE_PATHS[i].0, Str(texts[i]))
    ensures HasFields(d)
    ensures FieldValues(d, 0) == seq(|texts|, i requires 0 <= i < |texts| => Str(texts[i]))
  {
  }

  lemma OpenDict(env: Env, m: InstanceManifest)
    requires Closed(m) && GoodId(env, m.instanceId)
    ensures OpenManifest(env, ToDict(m)) == Success(OpenedFrom(m))
  {
    DictSchema(m);
    DictNames(m);
    DictEndpoint(m);
    DictOwner(m);
    DictRootIdentity(m);
    OpenSubtables(m);
    OpenFields(m);
  }
}
