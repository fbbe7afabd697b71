/**
 Why `validate_manifest` accepts what `_build_manifest` wrote: the manifest's fixed shape,
 the state of the file system it needs, and how much that file system may change before
 a later validation would refuse it.
 */
module Acceptance {
  import opened Wrappers
  import opened TomlDocument
  import opened Manifest
  import opened ManifestRoundTrip
  import opened Paths
  import FS = FileSystem
  import opened Validation
  import opened Reservation

  /** The locations a manifest pins. */
  datatype Pins = Pins(root: AbsPath, fork: AbsPath, base: AbsPath, binary: AbsPath)

  /** The manifest names exactly the pinned locations, in the closed schema's shape. */
  predicate Pinned(env: Env, m: InstanceManifest, k: Pins) {
    && m.root == PathText(k.root) && m.mutable == FieldTexts(k.root)
    && m.providers == RowsFor(env, k.root)
    && GoodId(env, m.instanceId) && m.tmuxSocket == "cao-sbx-" + m.instanceId
    && Endpoint(env, Str(m.endpoint)).Some?
    && m.source.forkRoot == PathText(k.fork)
    && m.source.interpreter == Interpreter(
         PathText(VenvPython(k.fork)), PathText(k.fork + [".venv"]), PathText(k.base))
    && match m.fixture
       case None => true
       case Some(row) =>
         && row.classification == "fixture-test" && row.variant in FIXTURE_VARIANTS
         && row.binaryRealpath == PathText(k.binary) && row.stateDir == PathText(StateDir(k.root))
  }

  predicate PlainPins(k: Pins) {
    PlainPath(k.root) && PlainPath(k.fork) && PlainPath(k.base) && PlainPath(k.binary)
  }

  /** The paths below the root that a validation inspects. */
  function FencedPaths(root: AbsPath): seq<AbsPath> {
    SandboxPaths(root) + [root + [MANIFEST_NAME], StateDir(root)]
  }

  predicate RootInPlace(env: Env, fs: FS.Fs, m: InstanceManifest, k: Pins) {
    && k.root in fs.nodes && fs.nodes[k.root].Dir?
    && m.rootDevice == fs.nodes[k.root].device && m.rootInode == fs.nodes[k.root].inode
    && FS.Clean(fs, k.root, false) && !AliasesProduction(env, fs, k.root)
    && forall p <- FencedPaths(k.root) :: FS.Clean(fs, p, false)
  }

  predicate InterpreterInPlace(fs: FS.Fs, k: Pins) {
    var python := VenvPython(k.fork);
    && FS.Clean(fs, python, true)
    && FS.Lstat(fs, python).Entry? && FS.Lstat(fs, python).node.Link?
    && FS.WalkOf(FS.LinksOf(fs), python).ok
    && FS.WalkOf(FS.LinksOf(fs), python).path == k.base
    && k.base in fs.nodes
  }

  predicate FixtureInPlace(env: Env, fs: FS.Fs, m: InstanceManifest, k: Pins) {
    match m.fixture
    case None => true
    case Some(row) =>
      && FS.Clean(fs, k.binary, false) && Within(k.binary, k.fork)
      && k.binary in fs.nodes && fs.nodes[k.binary].File? && fs.nodes[k.binary].executable
      && row.binarySha256 == env.sha256(fs.nodes[k.binary].content)
  }

  predicate Ready(env: Env, fs: FS.Fs, m: InstanceManifest, k: Pins) {
    && FS.WellFormed(fs) && PlainEnv(env) && PlainPins(k)
    && RootInPlace(env, fs, m, k) && InterpreterInPlace(fs, k) && FixtureInPlace(env, fs, m, k)
  }

  // ----- each stage passes -----

  lemma CanonicalOfText(env: Env, fs: FS.Fs, p: AbsPath)
    requires PlainPath(p)
    ensures PathOf(env, Str(PathText(p))) == Absolute(p)
    ensures Abspath(env.cwd, PathOf(env, Str(PathText(p)))) == p
    ensures Canonical(env, fs, Str(PathText(p))) == FS.Realpath(FS.LinksOf(fs), p)
  {
    ParsePathText(p);
    AbspathOfAbsolute(env.cwd, p);
  }

  lemma RootPasses(env: Env, fs: FS.Fs, m: InstanceManifest, k: Pins, o: Opened)
    requires Ready(env, fs, m, k)
    requires o.device == Int(m.rootDevice) && o.inode == Int(m.rootInode)
    ensures CheckRoot(env, fs, o, k.root, Absolute(k.root + [MANIFEST_NAME])).Pass?
    ensures FS.Realpath(FS.LinksOf(fs), k.root) == k.root
  {
    FS.CleanIsReal(fs, k.root);
    assert k.root + [MANIFEST_NAME] in FencedPaths(k.root);
  }

  lemma {:induction false} FieldPathsAt(root: AbsPath, i: nat, j: nat)
    requires i <= j < |MUTABLE_PARTS|
    ensures root + MUTABLE_PARTS[j] in FieldPaths(root, i)
    decreases j - i
  {
    if i < j {
      FieldPathsAt(root, i + 1, j);
    }
  }

  lemma FieldPasses(env: Env, fs: FS.Fs, m: InstanceManifest, k: Pins, i: nat)
    requires Ready(env, fs, m, k) && i < |MUTABLE_PARTS|
    ensures CheckField(env, fs, Str(PathText(k.root + MUTABLE_PARTS[i])), k.root, i).Pass?
  {
    var p := k.root + MUTABLE_PARTS[i];
    FieldPartsArePlain(i);
    assert PlainPath(p);
    CanonicalOfText(env, fs, p);
    FieldPathsAt(k.root, 0, i);
    assert p in SandboxPaths(k.root);
    assert p in FencedPaths(k.root);
    FieldAliasCheckNeverFires(env, fs, k.root, p);
  }

  lemma FieldsPass(env: Env, fs: FS.Fs, m: InstanceManifest, k: Pins)
    requires Closed(m) && Pinned(env, m, k) && Ready(env, fs, m, k)
    ensures CheckFields(env, fs, OpenedFrom(m).fields, k.root, 0).Pass?
  {
    forall i | 0 <= i < |MUTABLE_PARTS|
      ensures CheckField(env, fs, OpenedFrom(m).fields[i], k.root, i).Pass?
    {
      FieldPasses(env, fs, m, k, i);
    }
  }

  lemma IdentityKeyList(i: Interpreter)
    ensures Keys(StrPairs(InterpreterStrings(i)))
         == ["interpreter_path", "venv_prefix", "base_interpreter_realpath"]
  {
  }

  lemma IdentityKeySet(i: Interpreter)
    ensures DictOf(StrPairs(InterpreterStrings(i))).Keys == IDENTITY_FIELDS
  {
    IdentityKeyList(i);
  }

  lemma IdentityLookups(i: Interpreter)
    ensures var d := DictOf(StrPairs(InterpreterStrings(i)));
         && Holds(d, "interpreter_path", Str(i.path))
         && Holds(d, "venv_prefix", Str(i.venvPrefix))
         && Holds(d, "base_interpreter_realpath", Str(i.baseRealpath))
  {
    var pairs := StrPairs(InterpreterStrings(i));
    InterpreterKeys(i);
    DictLookup(pairs, 0);
    DictLookup(pairs, 1);
    DictLookup(pairs, 2);
  }

  lemma SourceTopLookups(s: Source)
    ensures var d := DictOf(SourcePairs(s));
         && d.Keys == {"fork_root", "commit_sha", "source_merkle", "dirty"}
         && d["fork_root"] == Str(s.forkRoot)
  {
    var pairs := SourcePairs(s);
    SourceKeys(s);
    assert Keys(pairs) == ["fork_root", "commit_sha", "source_merkle", "dirty"];
    DictLookup(pairs, 0);
  }

  lemma SourceLookups(s: Source)
    ensures var d := SourceDict(s);
         && SourceShape(Table(d))
         && d["fork_root"] == Str(s.forkRoot)
         && d["interpreter_identity"] == Table(DictOf(StrPairs(InterpreterStrings(s.interpreter))))
  {
    SourceTopLookups(s);
    IdentityKeySet(s.interpreter);
    assert "fork_root" != "interpreter_identity";
    assert SourceDict(s).Keys == {"fork_root", "commit_sha", "source_merkle", "dirty"} + {"interpreter_identity"};
  }

  /** The proper prefixes of a clean path, and the path itself when it is not a link. */
  lemma CleanParentIsReal(fs: FS.Fs, p: AbsPath, i: nat)
    requires PlainPath(p) && FS.Clean(fs, p, true) && i < |p|
    ensures FS.Realpath(FS.LinksOf(fs), p[..i]) == p[..i]
  {
    FS.CleanPrefixIsLinkFree(fs, p, i, true);
    FS.RealpathOfLinkFree(FS.LinksOf(fs), p[..i]);
  }

  lemma VenvNamesArePlain()
    ensures Plain(".venv") && Plain("bin") && Plain("python")
  {
  }

  /** The interpreter's real location is link free, so it is its own realpath. */
  lemma BaseIsReal(fs: FS.Fs, k: Pins)
    requires FS.WellFormed(fs) && PlainPath(k.fork) && InterpreterInPlace(fs, k)
    ensures PlainPath(k.base) && FS.Realpath(FS.LinksOf(fs), VenvPython(k.fork)) == k.base
    ensures FS.Realpath(FS.LinksOf(fs), k.base) == k.base
    ensures FS.Stat(fs, k.base) == FS.Stat(fs, VenvPython(k.fork)) == FS.Entry(fs.nodes[k.base])
  {
    VenvNamesArePlain();
    FS.RealpathIdempotent(FS.LinksOf(fs), VenvPython(k.fork));
    FS.StatOfLinkFree(fs, k.base);
  }

  lemma ForkIsReal(fs: FS.Fs, k: Pins)
    requires FS.WellFormed(fs) && PlainPath(k.fork) && InterpreterInPlace(fs, k)
    ensures FS.Realpath(FS.LinksOf(fs), k.fork) == k.fork
    ensures FS.Realpath(FS.LinksOf(fs), k.fork + [".venv"]) == k.fork + [".venv"]
    ensures PlainPath(k.fork + [".venv"]) && PlainPath(VenvPython(k.fork))
  {
    VenvNamesArePlain();
    var python := VenvPython(k.fork);
    CleanParentIsReal(fs, python, |k.fork|);
    CleanParentIsReal(fs, python, |k.fork| + 1);
    assert python[..|k.fork|] == k.fork && python[..|k.fork| + 1] == k.fork + [".venv"];
  }

  lemma SourcePasses(env: Env, fs: FS.Fs, m: InstanceManifest, k: Pins)
    requires Pinned(env, m, k) && Ready(env, fs, m, k)
    ensures CheckSource(env, fs, Table(SourceDict(m.source))).Pass?
    ensures SourceShape(Table(SourceDict(m.source)))
    ensures Canonical(env, fs, SourceDict(m.source)["fork_root"]) == k.fork
  {
    SourceLookups(m.source);
    IdentityLookups(m.source.interpreter);
    ForkIsReal(fs, k);
    BaseIsReal(fs, k);
    CanonicalOfText(env, fs, k.fork);
    CanonicalOfText(env, fs, VenvPython(k.fork));
    CanonicalOfText(env, fs, k.fork + [".venv"]);
    CanonicalOfText(env, fs, k.base);
  }

  // ----- the provider rows -----

  lemma {:induction false} TableOfAt(names: seq<string>, rows: seq<ProviderRow>, n: nat, i: nat)
    requires i < n <= |names| && n <= |rows|
    requires forall x, y :: 0 <= x < y < |names| ==> names[x] != names[y]
    ensures Holds(TableOf(names, rows, n), names[i], Table(DictOf(StrPairs(rows[i]))))
  {
    if i < n - 1 {
      TableOfAt(names, rows, n - 1, i);
    }
  }

  lemma ProviderTableAt(m: InstanceManifest, n: nat, i: nat)
    requires Closed(m) && i < n <= |PROVIDERS|
    ensures Holds(ProviderTable(m, n), PROVIDERS[i], Table(DictOf(StrPairs(m.providers[i]))))
  {
    forall x, y | 0 <= x < y < |PROVIDERS|
      ensures PROVIDERS[x] != PROVIDERS[y]
    {
      ProvidersDistinct(x, y);
    }
    TableOfAt(PROVIDERS, m.providers, n, i);
  }

  lemma ConsDict(entry: (string, string), rest: seq<(string, string)>)
    ensures DictOf(StrPairs([entry] + rest)) == map[entry.0 := Str(entry.1)] + DictOf(StrPairs(rest))
  {
    assert ([entry] + rest)[1..] == rest;
    assert StrPairs([entry] + rest)[1..] == StrPairs(rest);
  }

  lemma FiveEntries<K, V>(a: K, x: V, b: K, y: V, c: K, z: V, d: K, u: V, e: K, v: V, rest: map<K, V>)
    ensures map[a := x] + (map[b := y] + (map[c := z] + (map[d := u] + (map[e := v] + rest))))
         == map[a := x, b := y, c := z, d := u, e := v] + rest
  {
  }

  lemma FiveDict(a: (string, string), b: (string, string), c: (string, string), d: (string, string),
                 e: (string, string), rest: seq<(string, string)>)
    ensures DictOf(StrPairs([a, b, c, d, e] + rest))
         == map[a.0 := Str(a.1), b.0 := Str(b.1), c.0 := Str(c.1), d.0 := Str(d.1), e.0 := Str(e.1)]
            + DictOf(StrPairs(rest))
  {
    assert [a, b, c, d, e] + rest == [a] + ([b] + ([c] + ([d] + ([e] + rest))));
    ConsDict(e, rest);
    ConsDict(d, [e] + rest);
    ConsDict(c, [d] + ([e] + rest));
    ConsDict(b, [c] + ([d] + ([e] + rest)));
    ConsDict(a, [b] + ([c] + ([d] + ([e] + rest))));
    FiveEntries(a.0, Str(a.1), b.0, Str(b.1), c.0, Str(c.1), d.0, Str(d.1), e.0, Str(e.1), DictOf(StrPairs(rest)));
  }

  lemma OneDict(entry: (string, string))
    ensures DictOf(StrPairs([entry])) == map[entry.0 := Str(entry.1)]
  {
    ConsDict(entry, []);
    assert [entry] + [] == [entry];
  }

  lemma NativeDict(root: AbsPath, pin: AuthPin, row: Dict)
    ensures row + DictOf(StrPairs(NativePairs(root, pin)))
         == match pin.nativeHome
            case None => row
            case Some(native) => row["native_home" := Str(PathText(root + native))]
  {
    match pin.nativeHome
    case None => assert DictOf(StrPairs(NativePairs(root, pin))) == map[];
    case Some(native) => OneDict(("native_home", PathText(root + native)));
  }

  /** A shared-auth provider's row is the row the validator expects. */
  lemma SharedRowDict(env: Env, root: AbsPath, pin: AuthPin)
    ensures DictOf(StrPairs(SharedPairs(env, root, pin))) == SharedRow(env, root, pin)
  {
    var home := root + pin.home;
    var row: Dict := map[
      "classification" := Str("shared-auth-read-only"),
      "home" := Str(PathText(home)),
      "home_env" := Str(pin.homeEnv),
      "credential_source" := Str(PathText(env.home + pin.source)),
      "credential_path" := Str(PathText(home + [pin.name]))];
    FiveDict(("classification", "shared-auth-read-only"), ("home", PathText(home)), ("home_env", pin.homeEnv),
      ("credential_source", PathText(env.home + pin.source)), ("credential_path", PathText(home + [pin.name])),
      NativePairs(root, pin));
    NativeDict(root, pin, row);
  }

  lemma UnsafeRowDict()
    ensures DictOf(StrPairs([("classification", "unsafe")])) == UNSAFE_ROW
  {
    OneDict(("classification", "unsafe"));
  }

  lemma ProviderPasses(env: Env, fs: FS.Fs, m: InstanceManifest, k: Pins, i: nat)
    requires Closed(m) && Pinned(env, m, k) && Ready(env, fs, m, k) && i < |PROVIDERS|
    ensures CheckProvider(env, fs, k.root, PROVIDERS[i], Table(DictOf(StrPairs(m.providers[i])))).Pass?
  {
    var provider := PROVIDERS[i];
    assert m.providers[i] == RowFor(env, k.root, provider);
    match PinOf(provider)
    case None => UnsafeRowDict();
    case Some(pin) =>
      SharedRowDict(env, k.root, pin);
      forall home | home in ProviderHomes(k.root, pin)
        ensures FS.Clean(fs, home, false)
      {
        assert home in HomesOf(k.root, provider);
        HomesAreFenced(k.root, provider, home);
      }
  }

  lemma HomesAreFenced(root: AbsPath, provider: string, home: AbsPath)
    requires home in HomesOf(root, provider)
    ensures home in FencedPaths(root)
  {
    assert provider == "codex" || provider == "claude_code" || provider == "grok_cli";
  }

  lemma ProvidersPass(env: Env, fs: FS.Fs, m: InstanceManifest, k: Pins)
    requires Closed(m) && Pinned(env, m, k) && Ready(env, fs, m, k)
    ensures CheckProviders(env, fs, k.root, Table(ProviderTable(m, |PROVIDERS|))).Pass?
  {
    var table := ProviderTable(m, |PROVIDERS|);
    ProviderTableKeys(m, |PROVIDERS|);
    assert table.Keys == set p | p in PROVIDERS;
    forall p | p in PROVIDERS
      ensures CheckProvider(env, fs, k.root, p, table[p]).Pass?
    {
      var i :| 0 <= i < |PROVIDERS| && PROVIDERS[i] == p;
      ProviderTableAt(m, |PROVIDERS|, i);
      ProviderPasses(env, fs, m, k, i);
    }
  }

  // ----- the fixture table -----

  lemma FixtureLookups(row: FixtureRow)
    ensures var d := DictOf(StrPairs(FixtureStrings(row)));
         && Holds(d, "classification", Str(row.classification))
         && Holds(d, "binary_realpath", Str(row.binaryRealpath))
         && Holds(d, "binary_sha256", Str(row.binarySha256))
         && Holds(d, "variant", Str(row.variant))
         && Holds(d, "state_dir", Str(row.stateDir))
  {
    var pairs := StrPairs(FixtureStrings(row));
    FixtureKeys(row);
    DictLookup(pairs, 0);
    DictLookup(pairs, 1);
    DictLookup(pairs, 2);
    DictLookup(pairs, 3);
    DictLookup(pairs, 4);
  }

  lemma FixtureKeyList(row: FixtureRow)
    ensures Keys(StrPairs(FixtureStrings(row)))
         == ["classification", "binary_realpath", "binary_sha256", "variant", "state_dir"]
  {
  }

  lemma FixtureKeySet(row: FixtureRow)
    ensures DictOf(StrPairs(FixtureStrings(row))).Keys == FIXTURE_FIELDS
  {
    FixtureKeyList(row);
  }

  lemma FixtureShapePasses(env: Env, m: InstanceManifest, k: Pins)
    requires m.fixture.Some? && Pinned(env, m, k)
    ensures FixtureShape(FixtureTable(m.fixture.value))
  {
    var row := m.fixture.value;
    var d := DictOf(StrPairs(FixtureStrings(row)));
    FixtureKeySet(row);
    FixtureLookups(row);
    MockTable(d);
  }

  lemma MockTable(d: Dict)
    requires d.Keys == FIXTURE_FIELDS && Holds(d, "classification", Str("fixture-test"))
    requires "variant" in d && d["variant"].Str? && d["variant"].text in FIXTURE_VARIANTS
    ensures FixtureShape(Table(map["mock_cli" := Table(d)]))
  {
  }

  lemma BinaryPasses(env: Env, fs: FS.Fs, m: InstanceManifest, k: Pins)
    requires m.fixture.Some? && Pinned(env, m, k) && Ready(env, fs, m, k)
    ensures FixtureBinary(env, fs, k.fork, Str(m.fixture.value.binaryRealpath), Str(m.fixture.value.binarySha256))
  {
    CanonicalOfText(env, fs, k.binary);
    FS.CleanIsReal(fs, k.binary);
  }

  lemma StatePasses(env: Env, fs: FS.Fs, m: InstanceManifest, k: Pins)
    requires m.fixture.Some? && Pinned(env, m, k) && Ready(env, fs, m, k)
    ensures FixtureState(env, fs, k.root, Str(m.fixture.value.stateDir))
  {
    var state := StateDir(k.root);
    assert Plain("fixture-provider-state") && state in FencedPaths(k.root);
    CanonicalOfText(env, fs, state);
    FS.CleanIsReal(fs, state);
  }

  lemma FixturePasses(env: Env, fs: FS.Fs, m: InstanceManifest, k: Pins)
    requires m.fixture.Some? && Pinned(env, m, k) && Ready(env, fs, m, k)
    ensures CheckFixture(env, fs, k.root, k.fork, FixtureTable(m.fixture.value)).Pass?
  {
    FixtureShapePasses(env, m, k);
    FixtureLookups(m.fixture.value);
    BinaryPasses(env, fs, m, k);
    StatePasses(env, fs, m, k);
  }

  // ----- the whole validation -----

  /** The stages together are the whole check. */
  lemma StagesPass(env: Env, fs: FS.Fs, o: Opened, root: AbsPath, path: PurePath)
    requires |o.fields| == |MUTABLE_PARTS|
    requires CheckRoot(env, fs, o, root, path).Pass? && CheckFields(env, fs, o.fields, root, 0).Pass?
    requires CheckEndpoint(env, o).Pass? && CheckSource(env, fs, o.source).Pass?
    requires CheckProviders(env, fs, root, o.providers).Pass?
    requires o.fixture.Some? ==>
      CheckFixture(env, fs, root, Canonical(env, fs, o.source.entries["fork_root"]), o.fixture.value).Pass?
    ensures CheckOpened(env, fs, o, root, path).Pass?
  {
  }

  lemma RootStages(env: Env, fs: FS.Fs, m: InstanceManifest, k: Pins, o: Opened)
    requires Closed(m) && Pinned(env, m, k) && Ready(env, fs, m, k) && o == OpenedFrom(m)
    ensures |o.fields| == |MUTABLE_PARTS|
    ensures CheckRoot(env, fs, o, k.root, Absolute(k.root + [MANIFEST_NAME])).Pass?
    ensures CheckFields(env, fs, o.fields, k.root, 0).Pass? && CheckEndpoint(env, o).Pass?
  {
    RootPasses(env, fs, m, k, o);
    FieldsPass(env, fs, m, k);
  }

  lemma TableStages(env: Env, fs: FS.Fs, m: InstanceManifest, k: Pins, o: Opened)
    requires Closed(m) && Pinned(env, m, k) && Ready(env, fs, m, k) && o == OpenedFrom(m)
    ensures SourceShape(o.source) && CheckSource(env, fs, o.source).Pass?
    ensures CheckProviders(env, fs, k.root, o.providers).Pass?
    ensures Canonical(env, fs, o.source.entries["fork_root"]) == k.fork
  {
    SourcePasses(env, fs, m, k);
    ProvidersPass(env, fs, m, k);
  }

  lemma OpenedPasses(env: Env, fs: FS.Fs, m: InstanceManifest, k: Pins, o: Opened)
    requires Closed(m) && Pinned(env, m, k) && Ready(env, fs, m, k) && o == OpenedFrom(m)
    ensures |o.fields| == |MUTABLE_PARTS|
    ensures CheckOpened(env, fs, o, k.root, Absolute(k.root + [MANIFEST_NAME])).Pass?
  {
    if m.fixture.Some? {
      FixturePasses(env, fs, m, k);
    }
    TableStages(env, fs, m, k, o);
    RootStages(env, fs, m, k, o);
    StagesPass(env, fs, o, k.root, Absolute(k.root + [MANIFEST_NAME]));
  }

  /** A pinned manifest is accepted at its own path by any file system that is ready for it. */
  lemma ReadyIsAccepted(env: Env, fs: FS.Fs, m: InstanceManifest, k: Pins)
    requires Closed(m) && Pinned(env, m, k) && Ready(env, fs, m, k)
    ensures ValidateManifest(env, fs, ToDict(m), Absolute(k.root + [MANIFEST_NAME])).Success?
  {
    OpenDict(env, m);
    OpenedPasses(env, fs, m, k, OpenedFrom(m));
    CanonicalOfText(env, fs, k.root);
    FS.CleanIsReal(fs, k.root);
  }

  // ----- what a later file system may change -----

  /** Directories and links stay, and so do the entries in `keep`. */
  predicate Grows(fs: FS.Fs, later: FS.Fs, keep: set<AbsPath>) {
    && FS.WellFormed(fs) && FS.WellFormed(later)
    && FS.LinksOf(fs) == FS.LinksOf(later)
    && forall p <- fs.nodes ::
         fs.nodes[p].Dir? || fs.nodes[p].Link? || p in keep ==>
         p in later.nodes && later.nodes[p] == fs.nodes[p]
  }

  /** An entry whose proper prefixes are not links stays where it is. */
  lemma PythonIsEntry(fs: FS.Fs, k: Pins)
    requires FS.WellFormed(fs) && PlainPath(k.fork) && InterpreterInPlace(fs, k)
    ensures VenvPython(k.fork) in fs.nodes && fs.nodes[VenvPython(k.fork)].Link?
    ensures FS.LinkFree(FS.LinksOf(fs), Parent(VenvPython(k.fork)))
  {
    var python := VenvPython(k.fork);
    VenvNamesArePlain();
    FS.CleanPrefixIsLinkFree(fs, python, |python| - 1, true);
    assert python[..|python| - 1] == Parent(python);
    FS.LstatBelowLinkFree(fs, python);
  }

  lemma PrefixLookup(fs: FS.Fs, later: FS.Fs, p: AbsPath, i: nat)
    requires Grows(fs, later, {}) && 0 < i <= |p|
    requires p in fs.nodes && fs.nodes[p].Link? && FS.LinkFree(FS.LinksOf(fs), Parent(p))
    ensures p[..i] in fs.nodes
    ensures FS.Lstat(later, p[..i]) == FS.Lstat(fs, p[..i]) == FS.Entry(fs.nodes[p[..i]])
  {
    var q := p[..i];
    assert PlainPath(p);
    forall j | 0 < j <= |Parent(q)|
      ensures Parent(q)[..j] !in FS.LinksOf(fs)
    {
      assert Parent(q)[..j] == Parent(p)[..j];
    }
    FS.LstatBelowLinkFree(fs, q);
    FS.LstatBelowLinkFree(later, q);
    if i < |p| {
      FS.PrefixIsDir(fs, p, i);
    } else {
      assert q == p;
    }
  }

  lemma LinkStaysClean(fs: FS.Fs, later: FS.Fs, p: AbsPath)
    requires Grows(fs, later, {}) && FS.Clean(fs, p, true)
    requires p in fs.nodes && fs.nodes[p].Link? && FS.LinkFree(FS.LinksOf(fs), Parent(p))
    ensures FS.Clean(later, p, true) && FS.Lstat(later, p) == FS.Entry(fs.nodes[p])
  {
    forall i | 0 < i <= |p|
      ensures FS.CleanAt(later, p, i, true)
    {
      PrefixLookup(fs, later, p, i);
      assert FS.CleanAt(fs, p, i, true);
    }
    assert p != [];
    PrefixLookup(fs, later, p, |p|);
    assert p[..|p|] == p;
  }

  lemma InterpreterStays(fs: FS.Fs, later: FS.Fs, k: Pins)
    requires Grows(fs, later, {k.base}) && PlainPath(k.fork) && InterpreterInPlace(fs, k)
    ensures InterpreterInPlace(later, k)
  {
    PythonIsEntry(fs, k);
    LinkStaysClean(fs, later, VenvPython(k.fork));
  }

  lemma FixtureStays(env: Env, fs: FS.Fs, later: FS.Fs, m: InstanceManifest, k: Pins)
    requires Grows(fs, later, {k.binary}) && PlainPath(k.binary) && FixtureInPlace(env, fs, m, k)
    ensures FixtureInPlace(env, later, m, k)
  {
    if m.fixture.Some? {
      FS.CleanIsReal(fs, k.binary);
      FS.CleanEntry(fs, k.binary);
      FS.EntryIsClean(later, k.binary);
    }
  }

  /**
   A manifest that was ready stays ready while directories, links, the interpreter and the
   fixture binary are left alone and the fenced paths below the root stay clean.
   */
  lemma ReadyStays(env: Env, fs: FS.Fs, later: FS.Fs, m: InstanceManifest, k: Pins)
    requires Ready(env, fs, m, k) && Grows(fs, later, {k.base, k.binary})
    requires forall p <- FencedPaths(k.root) :: FS.Clean(later, p, false)
    ensures Ready(env, later, m, k)
  {
    FS.CleanIsReal(fs, k.root);
    FS.EntryIsClean(later, k.root);
    InterpreterStays(fs, later, k);
    FixtureStays(env, fs, later, m, k);
  }

  // ----- what _build_manifest leaves behind -----

  function PinsOf(env: Env, fs: FS.Fs, r: Request): Pins {
    var fork := ForkRoot(fs, r);
    Pins(RootFor(env, fs, r), fork, FS.Realpath(FS.LinksOf(fs), VenvPython(fork)), BinaryPath(fs, r))
  }

  lemma CreatedDir(fs: FS.Fs, p: AbsPath, device: nat, inode: nat)
    requires FS.WellFormed(fs) && CanCreate(fs, p) && PlainPath(p)
    ensures var made := WithDir(fs, p, device, inode);
         && FS.WellFormed(made) && FS.LinksOf(made) == FS.LinksOf(fs)
         && Grows(fs, made, fs.nodes.Keys)
         && forall q <- made.nodes :: p <= q ==> q == p
  {
    var made := WithDir(fs, p, device, inode);
    assert made.nodes.Keys == fs.nodes.Keys + {p};
    forall q | q in made.nodes && p <= q
      ensures q == p
    {
      assert q[..|p|] == p;
      if q != p {
        FS.PrefixIsDir(fs, q, |p|);
      }
    }
  }

  lemma ModulePathsArePlain(env: Env, fs: FS.Fs, r: Request)
    requires FS.WellFormed(fs) && WellBehaved(env, r)
    ensures PlainPath(RootFor(env, fs, r)) && PlainPath(ForkRoot(fs, r))
    ensures PlainPath(PinsOf(env, fs, r).base) && PlainPath(BinaryPath(fs, r))
  {
    var links := FS.LinksOf(fs);
    NormaliseIsPlain(if r.root.anchor == "" then env.cwd else [], r.root.parts);
    FS.RealpathIsPlain(links, Abspath(env.cwd, r.root));
    FS.RealpathIsPlain(links, r.moduleRoot);
    VenvNamesArePlain();
    FS.RealpathIsPlain(links, VenvPython(ForkRoot(fs, r)));
    assert Plain("test") && Plain("providers") && Plain("fixtures") && Plain("bin") && Plain("mock_cli");
    FS.RealpathIsPlain(links, ForkRoot(fs, r) + FIXTURE_BINARY);
  }

  /** Right after the reservation, nothing but directories lies below the root. */
  predicate OnlyDirsBelow(fs: FS.Fs, root: AbsPath) {
    forall q <- fs.nodes :: root <= q ==> fs.nodes[q].Dir?
  }

  lemma DirsBelowAreClean(fs: FS.Fs, root: AbsPath, p: AbsPath)
    requires FS.WellFormed(fs) && root in fs.nodes && OnlyDirsBelow(fs, root)
    requires FS.LinkFree(FS.LinksOf(fs), root) && Within(p, root) && PlainPath(p)
    ensures FS.Clean(fs, p, false)
  {
    forall i | |root| < i < |p| && p[..i] in fs.nodes
      ensures fs.nodes[p[..i]].Dir?
    {
      assert root <= p[..i];
    }
    FS.BelowDirIsClean(fs, root, p);
  }

  lemma FencedArePlain(root: AbsPath, p: AbsPath)
    requires PlainPath(root) && p in FencedPaths(root)
    ensures PlainPath(p) && Within(p, root) && p != root
  {
    if p in FieldPaths(root, 0) {
      FieldPathIsPlain(root, p);
    } else if p in SandboxPaths(root) {
      HomeIsPlain(root, p);
    } else {
      RecordsArePlain(root);
    }
  }

  lemma FieldPathIsPlain(root: AbsPath, p: AbsPath)
    requires PlainPath(root) && p in FieldPaths(root, 0)
    ensures PlainPath(p) && Within(p, root) && p != root
  {
    var j :| 0 <= j < |MUTABLE_PARTS| && p == root + MUTABLE_PARTS[j];
    FieldPartsArePlain(j);
    PartsBelowArePlain(root, MUTABLE_PARTS[j]);
  }

  lemma RecordsArePlain(root: AbsPath)
    requires PlainPath(root)
    ensures forall p <- [root + [MANIFEST_NAME], StateDir(root)] :: PlainPath(p) && Within(p, root) && p != root
  {
    assert Plain(MANIFEST_NAME) && Plain("fixture-provider-state");
    PartsBelowArePlain(root, [MANIFEST_NAME]);
    PartsBelowArePlain(root, ["fixture-provider-state"]);
  }

  lemma PartsBelowArePlain(root: AbsPath, parts: seq<string>)
    requires PlainPath(root) && PlainPath(parts) && |parts| > 0
    ensures PlainPath(root + parts) && Within(root + parts, root) && root + parts != root
  {
    assert |root + parts| != |root|;
  }

  lemma HomeIsPlain(root: AbsPath, p: AbsPath)
    requires PlainPath(root)
    requires p in HomesOf(root, "codex") + HomesOf(root, "claude_code") + HomesOf(root, "grok_cli")
    ensures PlainPath(p) && Within(p, root) && p != root
  {
    var provider := if p in HomesOf(root, "codex") then "codex"
                    else if p in HomesOf(root, "claude_code") then "claude_code" else "grok_cli";
    HomeOfPinIsPlain(root, provider, PinOf(provider).value, p);
  }

  lemma HomeOfPinIsPlain(root: AbsPath, provider: string, pin: AuthPin, p: AbsPath)
    requires PlainPath(root) && PinOf(provider) == Some(pin) && p in ProviderHomes(root, pin)
    ensures PlainPath(p) && Within(p, root) && p != root
  {
    PinPartsArePlain(provider, pin);
  }

  /** The root `_build_manifest` reserves is link free and was missing before. */
  lemma ReservedRoot(env: Env, fs: FS.Fs, r: Request)
    requires FS.WellFormed(fs) && WellBehaved(env, r)
    requires Preflight(env, fs, r).Pass? && CanCreate(fs, RootFor(env, fs, r))
    ensures var root := RootFor(env, fs, r);
         && FS.LinkFree(FS.LinksOf(fs), root) && FS.Realpath(FS.LinksOf(fs), root) == root
  {
    var root, links := RootFor(env, fs, r), FS.LinksOf(fs);
    ModulePathsArePlain(env, fs, r);
    assert PlainPath(Parent(root));
    FS.CleanIsReal(fs, Parent(root));
    forall i | 0 < i <= |root|
      ensures root[..i] !in links
    {
      if i < |root| {
        assert root[..i] == Parent(root)[..i];
      } else {
        assert root[..i] == root;
      }
    }
    FS.RealpathOfLinkFree(links, root);
  }

  lemma ReservationGrows(fs: FS.Fs, root: AbsPath, r: Request)
    requires FS.WellFormed(fs) && PlainPath(root) && CanCreate(fs, root)
    requires r.variant.Some? ==> CanCreate(WithDir(fs, root, r.device, r.inode), StateDir(root))
    ensures var later := ReservedFs(fs, root, r);
         && Grows(fs, later, fs.nodes.Keys)
         && root in later.nodes && later.nodes[root] == FS.Dir(r.device, r.inode)
         && OnlyDirsBelow(later, root)
  {
    var made := WithDir(fs, root, r.device, r.inode);
    CreatedDir(fs, root, r.device, r.inode);
    if r.variant.Some? {
      assert Plain("fixture-provider-state");
      CreatedDir(made, StateDir(root), r.device, r.stateInode);
      assert |StateDir(root)| != |root|;
    }
  }

  /** The pins do not depend on whether the root exists yet. */
  lemma PinsAreStable(env: Env, fs: FS.Fs, r: Request)
    requires FS.WellFormed(fs) && WellBehaved(env, r) && CanCreate(fs, RootFor(env, fs, r))
    ensures var made := WithDir(fs, RootFor(env, fs, r), r.device, r.inode);
         && ForkRoot(made, r) == ForkRoot(fs, r) && BinaryPath(made, r) == BinaryPath(fs, r)
         && FS.LinksOf(made) == FS.LinksOf(fs)
  {
    ModulePathsArePlain(env, fs, r);
    CreatedDir(fs, RootFor(env, fs, r), r.device, r.inode);
  }

  lemma ManifestIsPinned(env: Env, fs: FS.Fs, r: Request, root: AbsPath, k: Pins)
    requires r.source.Some? && (r.variant.Some? ==> BinaryUsable(fs, r)) && WellBehaved(env, r)
    requires 1 <= r.port <= 65535 && r.port != PRODUCTION_PORT
    requires k.root == root && k.fork == ForkRoot(fs, r) && k.binary == BinaryPath(fs, r)
    requires k.base == FS.Realpath(FS.LinksOf(fs), VenvPython(k.fork))
    requires FS.Realpath(FS.LinksOf(fs), r.sysPrefix) == k.fork + [".venv"]
    ensures Pinned(env, ManifestFor(env, fs, r, root), k) && Closed(ManifestFor(env, fs, r, root))
  {
    RowsAreClosed(env, root);
    assert |MUTABLE_PARTS| == |MUTABLE_PATHS|;
  }

  lemma BuildIsPinned(env: Env, fs: FS.Fs, r: Request)
    requires FS.WellFormed(fs) && WellBehaved(env, r) && BuildManifest(env, fs, r).Success?
    ensures var m := BuildManifest(env, fs, r).value.manifest;
         Closed(m) && Pinned(env, m, PinsOf(env, fs, r))
  {
    PinsAreStable(env, fs, r);
    ManifestIsPinned(env, WithDir(fs, RootFor(env, fs, r), r.device, r.inode), r, RootFor(env, fs, r),
      PinsOf(env, fs, r));
  }

  lemma RowsAreClosed(env: Env, root: AbsPath)
    ensures forall row <- RowsFor(env, root) :: ClosedRow(row)
  {
    forall i | 0 <= i < |PROVIDERS|
      ensures ClosedRow(RowFor(env, root, PROVIDERS[i]))
    {
      match PinOf(PROVIDERS[i])
      case None => UnsafeRowIsClosed();
      case Some(pin) => SharedRowIsClosed(env, root, pin);
    }
  }

  lemma UnsafeRowIsClosed()
    ensures ClosedRow([("classification", "unsafe")])
  {
    FixtureKeysAreBare();
    var row := [("classification", "unsafe")];
    assert Keys(StrPairs(row)) == ["classification"];
    DistinctByIndex(["classification"]);
  }

  lemma SharedRowIsClosed(env: Env, root: AbsPath, pin: AuthPin)
    ensures ClosedRow(SharedPairs(env, root, pin))
  {
    SharedKeyList(env, root, pin);
    SharedKeysAreBare();
    SharedKeysAreDistinct();
  }

  const SHARED_KEYS: seq<string> := ["classification", "home", "home_env", "credential_source", "credential_path"]

  lemma SharedKeyList(env: Env, root: AbsPath, pin: AuthPin)
    ensures Keys(StrPairs(SharedPairs(env, root, pin)))
         == if pin.nativeHome.None? then SHARED_KEYS else SHARED_KEYS + ["native_home"]
  {
    var home := root + pin.home;
    FiveKeys(PathText(home), pin.homeEnv, PathText(env.home + pin.source), PathText(home + [pin.name]),
      NativePairs(root, pin));
    if pin.nativeHome.Some? {
      OneKey("native_home", PathText(root + pin.nativeHome.value));
    }
  }

  lemma FiveKeys(home: string, homeEnv: string, source: string, path: string, tail: ProviderRow)
    ensures Keys(StrPairs(
              [("classification", "shared-auth-read-only"), ("home", home), ("home_env", homeEnv),
               ("credential_source", source), ("credential_path", path)] + tail))
         == SHARED_KEYS + Keys(StrPairs(tail))
  {
    var five := [("classification", "shared-auth-read-only"), ("home", home), ("home_env", homeEnv),
      ("credential_source", source), ("credential_path", path)];
    FirstNames(five, SHARED_KEYS);
    KeysOfAppend(five, tail);
  }

  lemma FirstNames(row: ProviderRow, names: seq<string>)
    requires |row| == |names| && forall i :: 0 <= i < |row| ==> row[i].0 == names[i]
    ensures Keys(StrPairs(row)) == names
  {
  }

  lemma KeysOfAppend(a: ProviderRow, b: ProviderRow)
    ensures Keys(StrPairs(a + b)) == Keys(StrPairs(a)) + Keys(StrPairs(b))
  {
  }

  lemma OneKey(key: string, value: string)
    ensures Keys(StrPairs([(key, value)])) == [key]
  {
  }

  lemma SharedKeysAreDistinct()
    ensures Distinct(SHARED_KEYS) && Distinct(SHARED_KEYS + ["native_home"])
  {
    var all := SHARED_KEYS + ["native_home"];
    forall i, j | 0 <= i < j < |all|
      ensures all[i] != all[j]
    {
      SharedKeysDiffer(i, j);
    }
    assert forall i :: 0 <= i < |SHARED_KEYS| ==> SHARED_KEYS[i] == all[i];
    DistinctByIndex(SHARED_KEYS);
    DistinctByIndex(all);
  }

  lemma SharedKeysDiffer(i: nat, j: nat)
    requires i < j < 6
    ensures (SHARED_KEYS + ["native_home"])[i] != (SHARED_KEYS + ["native_home"])[j]
  {
  }

  lemma SharedKeysAreBare()
    ensures (forall key <- SHARED_KEYS :: BareKey(key)) && BareKey("native_home")
  {
    assert BareKey("classification") && BareKey("home") && BareKey("home_env");
    assert BareKey("credential_source") && BareKey("credential_path");
  }

  lemma InterpreterIsInPlace(env: Env, fs: FS.Fs, r: Request)
    requires FS.WellFormed(fs) && WellBehaved(env, r) && VenvIsLinked(fs, r)
    ensures InterpreterInPlace(fs, PinsOf(env, fs, r))
  {
    ModulePathsArePlain(env, fs, r);
    VenvNamesArePlain();
    FS.RealpathIdempotent(FS.LinksOf(fs), VenvPython(ForkRoot(fs, r)));
  }

  /** A usable, clean binary is clean wherever its entry is kept. */
  lemma BinaryIsInPlace(env: Env, fs: FS.Fs, later: FS.Fs, r: Request)
    requires FS.WellFormed(fs) && WellBehaved(env, r) && r.variant.Some?
    requires BinaryUsable(fs, r) && BinaryIsClean(fs, r) && Grows(fs, later, fs.nodes.Keys)
    ensures var binary := BinaryPath(fs, r);
         && binary in later.nodes && binary in fs.nodes && later.nodes[binary] == fs.nodes[binary]
         && fs.nodes[binary].File? && fs.nodes[binary].executable && FS.Clean(later, binary, false)
         && FS.Stat(fs, binary) == FS.Entry(fs.nodes[binary])
  {
    var binary := BinaryPath(fs, r);
    ModulePathsArePlain(env, fs, r);
    FS.CleanIsReal(fs, binary);
    FS.CleanEntry(fs, binary);
    FS.EntryIsClean(later, binary);
  }

  lemma ReservedFsGrows(fs: FS.Fs, root: AbsPath, r: Request)
    requires FS.WellFormed(fs) && PlainPath(root) && CanCreate(fs, root)
    requires r.variant.Some? && CanCreate(WithDir(fs, root, r.device, r.inode), StateDir(root))
    ensures var made := WithDir(fs, root, r.device, r.inode);
         FS.WellFormed(made) && Grows(made, ReservedFs(fs, root, r), made.nodes.Keys)
  {
    CreatedDir(fs, root, r.device, r.inode);
    assert Plain("fixture-provider-state");
    CreatedDir(WithDir(fs, root, r.device, r.inode), StateDir(root), r.device, r.stateInode);
  }

  /** Creating a directory does not change whether a path is clean. */
  lemma CreatedKeepsClean(fs: FS.Fs, d: AbsPath, device: nat, inode: nat, p: AbsPath, terminalLink: bool)
    requires FS.WellFormed(fs) && CanCreate(fs, d) && PlainPath(d)
    ensures FS.Clean(WithDir(fs, d, device, inode), p, terminalLink) <==> FS.Clean(fs, p, terminalLink)
  {
    var made := WithDir(fs, d, device, inode);
    CreatedDir(fs, d, device, inode);
    forall i | 0 < i <= |p|
      ensures FS.CleanAt(made, p, i, terminalLink) == FS.CleanAt(fs, p, i, terminalLink)
    {
      CreatedLstat(fs, d, device, inode, p[..i]);
    }
  }

  lemma CreatedLookup(fs: FS.Fs, d: AbsPath, device: nat, inode: nat, p: AbsPath)
    requires FS.WellFormed(fs) && CanCreate(fs, d) && PlainPath(d)
    ensures var made := WithDir(fs, d, device, inode);
         if p == d then FS.Lookup(fs, p) == FS.Missing && FS.Lookup(made, p) == FS.Entry(FS.Dir(device, inode))
         else FS.Lookup(made, p) == FS.Lookup(fs, p)
  {
    var made := WithDir(fs, d, device, inode);
    CreatedDir(fs, d, device, inode);
    if p == d {
      forall i | 0 <= i < |d|
        ensures d[..i] in fs.nodes && fs.nodes[d[..i]].Dir?
      {
        assert Parent(d)[..i] == d[..i];
        if i < |d| - 1 {
          FS.PrefixIsDir(fs, Parent(d), i);
        } else {
          assert d[..i] == Parent(d);
        }
      }
    }
  }

  lemma CreatedLstat(fs: FS.Fs, d: AbsPath, device: nat, inode: nat, p: AbsPath)
    requires FS.WellFormed(fs) && CanCreate(fs, d) && PlainPath(d)
    ensures var made := WithDir(fs, d, device, inode);
         FS.Lstat(made, p) == FS.Lstat(fs, p)
         || (FS.Lstat(fs, p).Missing? && FS.Lstat(made, p) == FS.Entry(FS.Dir(device, inode)))
  {
    CreatedDir(fs, d, device, inode);
    if |p| == 0 {
      CreatedLookup(fs, d, device, inode, p);
    } else {
      var w := FS.WalkOf(FS.LinksOf(fs), Parent(p));
      CreatedLookup(fs, d, device, inode, w.path + [p[|p| - 1]]);
    }
  }

  lemma FixtureIsInPlace(env: Env, fs: FS.Fs, r: Request)
    requires FS.WellFormed(fs) && WellBehaved(env, r) && BuildManifest(env, fs, r).Success?
    requires BinaryIsClean(fs, r)
    ensures var b := BuildManifest(env, fs, r).value;
         FixtureInPlace(env, b.fs, b.manifest, PinsOf(env, fs, r))
  {
    if r.variant.Some? {
      var root := RootFor(env, fs, r);
      var made := WithDir(fs, root, r.device, r.inode);
      ModulePathsArePlain(env, fs, r);
      ReservedFsGrows(fs, root, r);
      PinsAreStable(env, fs, r);
      CreatedKeepsClean(fs, root, r.device, r.inode, BinaryPath(fs, r), false);
      BinaryIsInPlace(env, made, ReservedFs(fs, root, r), r);
    }
  }

  lemma ReservationIsReady(env: Env, fs: FS.Fs, r: Request, b: Reserved, k: Pins)
    requires FS.WellFormed(fs) && WellBehaved(env, r) && BuildManifest(env, fs, r) == Success(b)
    requires VenvIsLinked(fs, r) && k == PinsOf(env, fs, r)
    ensures PlainPins(k) && FS.WellFormed(b.fs)
    ensures RootInPlace(env, b.fs, b.manifest, k) && InterpreterInPlace(b.fs, k)
  {
    ModulePathsArePlain(env, fs, r);
    ReservationGrows(fs, k.root, r);
    ReservedRoot(env, fs, r);
    InterpreterIsInPlace(env, fs, r);
    InterpreterStays(fs, b.fs, k);
    FS.EntryIsClean(b.fs, k.root);
    forall p | p in FencedPaths(k.root)
      ensures FS.Clean(b.fs, p, false)
    {
      FencedArePlain(k.root, p);
      DirsBelowAreClean(b.fs, k.root, p);
    }
  }

  /** What `_build_manifest` returns is pinned, and the file system it leaves is ready for it. */
  lemma BuildIsReady(env: Env, fs: FS.Fs, r: Request)
    requires FS.WellFormed(fs) && WellBehaved(env, r) && BuildManifest(env, fs, r).Success?
    requires VenvIsLinked(fs, r) && BinaryIsClean(fs, r)
    ensures var b := BuildManifest(env, fs, r).value;
         Ready(env, b.fs, b.manifest, PinsOf(env, fs, r))
  {
    ReservationIsReady(env, fs, r, BuildManifest(env, fs, r).value, PinsOf(env, fs, r));
    FixtureIsInPlace(env, fs, r);
  }

  /**
   Every manifest `_build_manifest` returns is accepted by `validate_manifest` at its own
   path, provided the venv interpreter is a terminal link reached through clean components
   and a pinned fixture binary resolves and is not hard-linked.
   */
  lemma BuildIsAccepted(env: Env, fs: FS.Fs, r: Request, b: Reserved)
    requires FS.WellFormed(fs) && WellBehaved(env, r) && BuildManifest(env, fs, r) == Success(b)
    requires VenvIsLinked(fs, r) && BinaryIsClean(fs, r)
    ensures Closed(b.manifest)
    ensures ValidateManifest(env, b.fs, ToDict(b.manifest), Absolute(b.root + [MANIFEST_NAME])).Success?
  {
    var k := PinsOf(env, fs, r);
    BuildIsPinned(env, fs, r);
    BuildIsReady(env, fs, r);
    assert b.root == k.root;
    ReadyIsAccepted(env, b.fs, b.manifest, k);
  }

  // ----- and the conditions are necessary -----

  lemma CheckedSource(env: Env, fs: FS.Fs, v: Value)
    requires CheckSource(env, fs, v).Pass?
    ensures SourceShape(v)
    ensures var python := VenvPython(Canonical(env, fs, v.entries["fork_root"]));
         && PathOf(env, v.entries["interpreter_identity"].entries["interpreter_path"]) == Absolute(python)
         && FS.Clean(fs, python, true)
         && FS.Lstat(fs, python).Entry? && FS.Lstat(fs, python).node.Link?
         && FS.Exists(fs, python)
  {
  }

  lemma VenvPythonIsInjective(env: Env, text: Value, a: AbsPath, b: AbsPath)
    requires PathOf(env, text) == Absolute(VenvPython(a))
    requires PathOf(env, text) == Absolute(VenvPython(b))
    ensures a == b
  {
    assert VenvPython(a)[..|VenvPython(a)| - 3] == a;
    assert VenvPython(b)[..|VenvPython(b)| - 3] == b;
  }

  lemma PinnedInterpreterPath(env: Env, fs: FS.Fs, m: InstanceManifest, k: Pins)
    requires PlainPath(k.fork) && Pinned(env, m, k)
    ensures SourceShape(Table(SourceDict(m.source)))
    ensures PathOf(env, SourceDict(m.source)["interpreter_identity"].entries["interpreter_path"])
         == Absolute(VenvPython(k.fork))
  {
    SourceLookups(m.source);
    IdentityLookups(m.source.interpreter);
    VenvNamesArePlain();
    CanonicalOfText(env, fs, VenvPython(k.fork));
  }

  lemma SourceNeeds(env: Env, fs: FS.Fs, m: InstanceManifest, k: Pins)
    requires FS.WellFormed(fs) && PlainPath(k.fork) && Pinned(env, m, k)
    requires CheckSource(env, fs, Table(SourceDict(m.source))).Pass?
    ensures var python := VenvPython(k.fork);
         && FS.Clean(fs, python, true)
         && FS.Lstat(fs, python).Entry? && FS.Lstat(fs, python).node.Link?
         && FS.Exists(fs, python)
  {
    var v := Table(SourceDict(m.source));
    CheckedSource(env, fs, v);
    var text := v.entries["interpreter_identity"].entries["interpreter_path"];
    PinnedInterpreterPath(env, fs, m, k);
    VenvPythonIsInjective(env, text, Canonical(env, fs, v.entries["fork_root"]), k.fork);
  }

  lemma FixtureNeeds(env: Env, fs: FS.Fs, m: InstanceManifest, k: Pins, root: AbsPath, fork: AbsPath)
    requires PlainPath(k.binary) && Pinned(env, m, k) && m.fixture.Some?
    requires CheckFixture(env, fs, root, fork, FixtureTable(m.fixture.value)).Pass?
    ensures FS.Clean(fs, k.binary, false)
  {
    FixtureLookups(m.fixture.value);
    CanonicalOfText(env, fs, k.binary);
  }

  lemma ReservedKeepsClean(fs: FS.Fs, root: AbsPath, r: Request, p: AbsPath, terminalLink: bool)
    requires FS.WellFormed(fs) && PlainPath(root) && CanCreate(fs, root)
    requires r.variant.Some? ==> CanCreate(WithDir(fs, root, r.device, r.inode), StateDir(root))
    ensures FS.Clean(ReservedFs(fs, root, r), p, terminalLink) <==> FS.Clean(fs, p, terminalLink)
    ensures FS.Lstat(ReservedFs(fs, root, r), p).Entry? && FS.Lstat(ReservedFs(fs, root, r), p).node.Link?
       ==> FS.Lstat(fs, p) == FS.Lstat(ReservedFs(fs, root, r), p)
  {
    var made := WithDir(fs, root, r.device, r.inode);
    CreatedDir(fs, root, r.device, r.inode);
    CreatedKeepsClean(fs, root, r.device, r.inode, p, terminalLink);
    CreatedLstat(fs, root, r.device, r.inode, p);
    if r.variant.Some? {
      assert Plain("fixture-provider-state");
      CreatedKeepsClean(made, StateDir(root), r.device, r.stateInode, p, terminalLink);
      CreatedLstat(made, StateDir(root), r.device, r.stateInode, p);
    }
  }

  /** The interpreter that runs the bootstrap exists, so the venv entry resolves to it. */
  lemma PythonResolves(env: Env, fs: FS.Fs, r: Request, later: FS.Fs)
    requires FS.WellFormed(fs) && WellBehaved(env, r) && Preflight(env, fs, r).Pass?
    requires PlainPath(r.sysExecutable) && FS.Exists(fs, r.sysExecutable)
    requires FS.LinksOf(later) == FS.LinksOf(fs) && FS.Exists(later, VenvPython(ForkRoot(fs, r)))
    ensures FS.Exists(fs, VenvPython(ForkRoot(fs, r)))
  {
    var links := FS.LinksOf(fs);
    ModulePathsArePlain(env, fs, r);
    VenvNamesArePlain();
    FS.RealpathIdempotent(links, r.sysExecutable);
    FS.RealpathIdempotent(links, VenvPython(ForkRoot(fs, r)));
  }

  lemma AcceptedNeeds(env: Env, fs: FS.Fs, m: InstanceManifest, k: Pins, path: PurePath)
    requires FS.WellFormed(fs) && PlainPath(k.fork) && PlainPath(k.binary)
    requires Closed(m) && Pinned(env, m, k) && ValidateManifest(env, fs, ToDict(m), path).Success?
    ensures var python := VenvPython(k.fork);
         && FS.Clean(fs, python, true)
         && FS.Lstat(fs, python).Entry? && FS.Lstat(fs, python).node.Link?
         && FS.Exists(fs, python)
    ensures m.fixture.Some? ==> FS.Clean(fs, k.binary, false)
  {
    OpenDict(env, m);
    var o := OpenedFrom(m);
    OpenedNeeds(env, fs, o, Canonical(env, fs, o.root), path);
    SourceNeeds(env, fs, m, k);
    if m.fixture.Some? {
      FixtureNeeds(env, fs, m, k, Canonical(env, fs, o.root),
        Canonical(env, fs, o.source.entries["fork_root"]));
    }
  }

  lemma OpenedNeeds(env: Env, fs: FS.Fs, o: Opened, root: AbsPath, path: PurePath)
    requires |o.fields| == |MUTABLE_PARTS| && CheckOpened(env, fs, o, root, path).Pass?
    ensures CheckSource(env, fs, o.source).Pass? && SourceShape(o.source)
    ensures o.fixture.Some? ==>
      CheckFixture(env, fs, root, Canonical(env, fs, o.source.entries["fork_root"]), o.fixture.value).Pass?
  {
    assert CheckContents(env, fs, o, root).Pass?;
  }

  /**
   For a bootstrap whose own interpreter exists: the manifest `_build_manifest` returns is
   accepted if and only if, before the call, the venv interpreter was a resolving terminal
   link behind clean components and the fixture binary, if any, was clean.
   */
  lemma BuildIsAcceptedExactly(env: Env, fs: FS.Fs, r: Request, b: Reserved)
    requires FS.WellFormed(fs) && WellBehaved(env, r) && BuildManifest(env, fs, r) == Success(b)
    requires PlainPath(r.sysExecutable) && FS.Exists(fs, r.sysExecutable)
    ensures Closed(b.manifest)
    ensures ValidateManifest(env, b.fs, ToDict(b.manifest), Absolute(b.root + [MANIFEST_NAME])).Success?
       <==> VenvIsLinked(fs, r) && BinaryIsClean(fs, r)
  {
    BuildIsPinned(env, fs, r);
    if ValidateManifest(env, b.fs, ToDict(b.manifest), Absolute(b.root + [MANIFEST_NAME])).Success? {
      BuildNeeds(env, fs, r, b, PinsOf(env, fs, r));
    }
    if VenvIsLinked(fs, r) && BinaryIsClean(fs, r) {
      BuildIsAccepted(env, fs, r, b);
    }
  }

  lemma BuildNeeds(env: Env, fs: FS.Fs, r: Request, b: Reserved, k: Pins)
    requires FS.WellFormed(fs) && WellBehaved(env, r) && BuildManifest(env, fs, r) == Success(b)
    requires PlainPath(r.sysExecutable) && FS.Exists(fs, r.sysExecutable) && k == PinsOf(env, fs, r)
    requires Closed(b.manifest) && Pinned(env, b.manifest, k)
    requires ValidateManifest(env, b.fs, ToDict(b.manifest), Absolute(b.root + [MANIFEST_NAME])).Success?
    ensures VenvIsLinked(fs, r) && BinaryIsClean(fs, r)
  {
    BuildShape(env, fs, r, b);
    ModulePathsArePlain(env, fs, r);
    ReservationGrows(fs, k.root, r);
    AcceptedNeeds(env, b.fs, b.manifest, k, Absolute(b.root + [MANIFEST_NAME]));
    NeededBefore(env, fs, r, k);
  }

  /** What a successful reservation went through. */
  lemma BuildShape(env: Env, fs: FS.Fs, r: Request, b: Reserved)
    requires BuildManifest(env, fs, r) == Success(b)
    ensures Preflight(env, fs, r).Pass? && b.root == RootFor(env, fs, r) && CanCreate(fs, b.root)
    ensures r.variant.Some? ==> CanCreate(WithDir(fs, b.root, r.device, r.inode), StateDir(b.root))
    ensures b.fs == ReservedFs(fs, b.root, r) && (b.manifest.fixture.Some? <==> r.variant.Some?)
  {
  }

  lemma NeededBefore(env: Env, fs: FS.Fs, r: Request, k: Pins)
    requires FS.WellFormed(fs) && WellBehaved(env, r) && Preflight(env, fs, r).Pass?
    requires PlainPath(r.sysExecutable) && FS.Exists(fs, r.sysExecutable) && k == PinsOf(env, fs, r)
    requires PlainPath(k.root) && CanCreate(fs, k.root)
    requires r.variant.Some? ==> CanCreate(WithDir(fs, k.root, r.device, r.inode), StateDir(k.root))
    requires var later, python := ReservedFs(fs, k.root, r), VenvPython(k.fork);
      && FS.Clean(later, python, true) && FS.Lstat(later, python).Entry? && FS.Lstat(later, python).node.Link?
      && FS.Exists(later, python) && FS.LinksOf(later) == FS.LinksOf(fs)
      && (r.variant.Some? ==> FS.Clean(later, k.binary, false))
    ensures VenvIsLinked(fs, r) && BinaryIsClean(fs, r)
  {
    ReservedKeepsClean(fs, k.root, r, VenvPython(k.fork), true);
    ReservedKeepsClean(fs, k.root, r, k.binary, false);
    PythonResolves(env, fs, r, ReservedFs(fs, k.root, r));
  }
}
