/**
 The sandbox instance manifest: its closed shape, the dictionary it stands for, and the
 text `render_manifest` prints for it.  Reading that text back gives the same
 dictionary exactly when no string in it holds U+007F.
 */
module Manifest {
  import opened Wrappers
  import opened TomlDocument

  const MUTABLE_PATHS: seq<(string, string)> := [
    ("db_path", "db/cli-agent-orchestrator.db"),
    ("settings_path", "settings.json"),
    ("providers_path", "providers.toml"),
    ("env_path", ".env"),
    ("logs_dir", "logs"),
    ("snapshots_dir", "logs/terminal"),
    ("fifos_dir", "fifos"),
    ("memory_dir", "memory"),
    ("workflows_dir", "workflows"),
    ("scratch_dir", "scratch"),
    ("graph_exports_dir", "graph-exports"),
    ("pidfile", "sandbox.pid")
  ]

  const PROVIDERS: seq<string> := [
    "kiro_cli", "grok_cli", "claude_code", "codex", "kimi_cli",
    "copilot_cli", "opencode_cli", "hermes", "cursor_cli", "antigravity_cli"
  ]

  /** The scalar fields at the top of a manifest, in the order they are printed. */
  const TOP_KEYS: seq<string> := [
    "instance_id", "created_at", "root",
    "db_path", "settings_path", "providers_path", "env_path", "logs_dir", "snapshots_dir",
    "fifos_dir", "memory_dir", "workflows_dir", "scratch_dir", "graph_exports_dir", "pidfile",
    "endpoint", "tmux_socket", "owner_nonce", "root_device", "root_inode"
  ]

  datatype Interpreter = Interpreter(path: string, venvPrefix: string, baseRealpath: string)

  datatype Source = Source(
    forkRoot: string, commitSha: string, sourceMerkle: string, dirty: bool, interpreter: Interpreter)

  datatype FixtureRow = FixtureRow(
    classification: string, binaryRealpath: string, binarySha256: string,
    variant: string, stateDir: string)

  /** A provider's row keeps the order in which its keys were inserted. */
  type ProviderRow = seq<(string, string)>

  datatype InstanceManifest = InstanceManifest(
    instanceId: string, createdAt: string, root: string, mutable: seq<string>,
    endpoint: string, tmuxSocket: string, ownerNonce: string,
    rootDevice: int, rootInode: int, source: Source,
    providers: seq<ProviderRow>, fixture: Option<FixtureRow>)

  lemma TopKeyNames()
    ensures TOP_KEYS[0] == "instance_id" && TOP_KEYS[1] == "created_at" && TOP_KEYS[2] == "root"
    ensures TOP_KEYS[15] == "endpoint" && TOP_KEYS[16] == "tmux_socket" && TOP_KEYS[17] == "owner_nonce"
    ensures TOP_KEYS[18] == "root_device" && TOP_KEYS[19] == "root_inode"
  {
  }

  /** `mutable` and `providers` follow the order of the two tables above. */
  predicate Closed(m: InstanceManifest) {
    && |m.mutable| == |MUTABLE_PATHS|
    && |m.providers| == |PROVIDERS|
    && forall row <- m.providers :: ClosedRow(row)
  }

  predicate ClosedRow(row: ProviderRow) {
    Distinct(Keys(StrPairs(row))) && forall key <- Keys(StrPairs(row)) :: BareKey(key)
  }

  // ----- dictionaries built from pairs -----

  type Pairs = seq<(string, Value)>

  function Keys(pairs: Pairs): (keys: seq<string>)
    ensures |keys| == |pairs|
    ensures forall i :: 0 <= i < |pairs| ==> keys[i] == pairs[i].0
  {
    if |pairs| == 0 then [] else [pairs[0].0] + Keys(pairs[1..])
  }

  predicate Distinct(keys: seq<string>) {
    |keys| > 0 ==> keys[0] !in keys[1..] && Distinct(keys[1..])
  }

  function DictOf(pairs: Pairs): (d: Dict)
    ensures forall k :: k in d <==> k in Keys(pairs)
  {
    if |pairs| == 0 then map[] else map[pairs[0].0 := pairs[0].1] + DictOf(pairs[1..])
  }

  function StrPairs(row: seq<(string, string)>): (pairs: Pairs)
    ensures |pairs| == |row|
    ensures forall i :: 0 <= i < |row| ==> pairs[i] == (row[i].0, Str(row[i].1))
  {
    if |row| == 0 then [] else [(row[0].0, Str(row[0].1))] + StrPairs(row[1..])
  }

  // ----- the sections of a manifest -----

  function MutablePairs(values: seq<string>, i: nat): (pairs: seq<(string, string)>)
    requires |values| == |MUTABLE_PATHS| && i <= |MUTABLE_PATHS|
    ensures |pairs| == |MUTABLE_PATHS| - i
    ensures forall j :: 0 <= j < |pairs| ==> pairs[j] == (MUTABLE_PATHS[i + j].0, values[i + j])
    decreases |MUTABLE_PATHS| - i
  {
    if i == |MUTABLE_PATHS| then []
    else [(MUTABLE_PATHS[i].0, values[i])] + MutablePairs(values, i + 1)
  }

  /** The top-level string fields, in the order they are printed. */
  function TopStrings(m: InstanceManifest): seq<(string, string)>
    requires Closed(m)
  {
    [("instance_id", m.instanceId), ("created_at", m.createdAt), ("root", m.root)]
    + MutablePairs(m.mutable, 0)
    + [("endpoint", m.endpoint), ("tmux_socket", m.tmuxSocket), ("owner_nonce", m.ownerNonce)]
  }

  function TopPairs(m: InstanceManifest): Pairs
    requires Closed(m)
  {
    StrPairs(TopStrings(m)) + [("root_device", Int(m.rootDevice)), ("root_inode", Int(m.rootInode))]
  }

  function SourceStrings(s: Source): seq<(string, string)> {
    [("fork_root", s.forkRoot), ("commit_sha", s.commitSha), ("source_merkle", s.sourceMerkle)]
  }

  function SourcePairs(s: Source): Pairs {
    StrPairs(SourceStrings(s)) + [("dirty", Bool(s.dirty))]
  }

  function InterpreterStrings(i: Interpreter): seq<(string, string)> {
    [("interpreter_path", i.path), ("venv_prefix", i.venvPrefix),
     ("base_interpreter_realpath", i.baseRealpath)]
  }

  function FixtureStrings(f: FixtureRow): seq<(string, string)> {
    [("classification", f.classification), ("binary_realpath", f.binaryRealpath),
     ("binary_sha256", f.binarySha256), ("variant", f.variant), ("state_dir", f.stateDir)]
  }

  // ----- the dictionary -----

  /** A table with one subtable for each of the first `n` names. */
  function TableOf(names: seq<string>, rows: seq<ProviderRow>, n: nat): Dict
    requires n <= |names| && n <= |rows|
  {
    if n == 0 then map[]
    else TableOf(names, rows, n - 1)[names[n - 1] := Table(DictOf(StrPairs(rows[n - 1])))]
  }

  function ProviderTable(m: InstanceManifest, n: nat): Dict
    requires Closed(m) && n <= |PROVIDERS|
  {
    TableOf(PROVIDERS, m.providers, n)
  }

  /** The nested dictionary the bootstrap holds in memory. */
  function ToDict(m: InstanceManifest): Dict
    requires Closed(m)
  {
    WithSubtables(DictOf(TopPairs(m)), SourceDict(m.source), ProviderTable(m, |PROVIDERS|), m.fixture)
  }

  function WithSubtables(top: Dict, source: Dict, providers: Dict, fixture: Option<FixtureRow>): Dict {
    WithFixture(top["source" := Table(source)]["providers" := Table(providers)], fixture)
  }

  function SourceDict(s: Source): Dict {
    DictOf(SourcePairs(s))[
      "interpreter_identity" := Table(DictOf(StrPairs(InterpreterStrings(s.interpreter))))]
  }

  function FixtureTable(row: FixtureRow): Value {
    Table(map["mock_cli" := Table(DictOf(StrPairs(FixtureStrings(row))))])
  }

  function WithFixture(base: Dict, fixture: Option<FixtureRow>): Dict {
    match fixture
    case None => base
    case Some(row) =>
      base["fixture_providers" := FixtureTable(row)]
  }

  // ----- the printed text -----

  function PairStatements(pairs: Pairs): seq<Statement> {
    if |pairs| == 0 then [] else [Pair(pairs[0].0, pairs[0].1)] + PairStatements(pairs[1..])
  }

  function Section(path: seq<string>, pairs: Pairs): seq<Statement> {
    [Header(path)] + PairStatements(pairs)
  }

  /** The sections of the first `n` providers. */
  function SectionsOf(names: seq<string>, rows: seq<ProviderRow>, n: nat): seq<Statement>
    requires n <= |names| && n <= |rows|
  {
    if n == 0 then []
    else SectionsOf(names, rows, n - 1) + Section(["providers", names[n - 1]], StrPairs(rows[n - 1]))
  }

  function ProviderSections(m: InstanceManifest, n: nat): seq<Statement>
    requires Closed(m) && n <= |PROVIDERS|
  {
    SectionsOf(PROVIDERS, m.providers, n)
  }

  function SourceSections(s: Source): seq<Statement> {
    Section(["source"], SourcePairs(s))
    + Section(["source", "interpreter_identity"], StrPairs(InterpreterStrings(s.interpreter)))
  }

  function FixtureSection(m: InstanceManifest): seq<Statement> {
    match m.fixture
    case None => []
    case Some(row) => Section(["fixture_providers", "mock_cli"], StrPairs(FixtureStrings(row)))
  }

  function Statements(m: InstanceManifest): seq<Statement>
    requires Closed(m)
  {
    PairStatements(TopPairs(m))
    + SourceSections(m.source)
    + ProviderSections(m, |PROVIDERS|)
    + FixtureSection(m)
  }

  // ----- every fixed key is a bare key -----

  lemma TopKeysAreBare()
    ensures BareKey("instance_id") && BareKey("created_at") && BareKey("root")
    ensures BareKey("endpoint") && BareKey("tmux_socket") && BareKey("owner_nonce")
    ensures BareKey("root_device") && BareKey("root_inode")
  {
  }

  lemma MutableKeysAreBare(i: nat)
    requires i < |MUTABLE_PATHS|
    ensures BareKey(MUTABLE_PATHS[i].0)
  {
  }

  lemma ProviderKeysAreBare(i: nat)
    requires i < |PROVIDERS|
    ensures BareKey(PROVIDERS[i])
  {
  }

  lemma TableKeysAreBare()
    ensures BareKey("source") && BareKey("interpreter_identity") && BareKey("providers")
    ensures BareKey("fixture_providers") && BareKey("mock_cli")
  {
  }

  lemma SourceKeysAreBare()
    ensures BareKey("fork_root") && BareKey("commit_sha") && BareKey("source_merkle")
    ensures BareKey("dirty")
    ensures BareKey("interpreter_path") && BareKey("venv_prefix")
    ensures BareKey("base_interpreter_realpath")
  {
  }

  lemma FixtureKeysAreBare()
    ensures BareKey("classification") && BareKey("binary_realpath") && BareKey("binary_sha256")
    ensures BareKey("variant") && BareKey("state_dir")
  {
  }
}
