/**
 `command_up`: reserve a root, furnish it, claim a tmux socket, launch the server, and
 undo exactly that much when a step fails.
 */
module SandboxUp {
  import opened Wrappers
  import opened TomlDocument
  import opened Manifest
  import opened ManifestRoundTrip
  import opened Paths
  import FS = FileSystem
  import opened Validation
  import opened Reservation
  import opened Acceptance
  import opened HostMachine
  import opened SandboxHouse
  import opened SandboxRoom
  import opened SandboxTrace

  // ----- _build_manifest on the host -----

  /** Creating a fresh directory and removing it again changes nothing. */
  lemma RemoveCreated(fs: FS.Fs, root: AbsPath, later: FS.Fs)
    requires FS.WellFormed(fs) && CanCreate(fs, root)
    requires Extends(fs, later) && forall p <- later.nodes :: p in fs.nodes || root <= p
    ensures WithoutTree(later, root) == fs
  {
    forall p | p in fs.nodes
      ensures !(root <= p)
    {
      if root <= p {
        assert p[..|root|] == root;
        if p != root {
          FS.PrefixIsDir(fs, p, |root|);
        }
      }
    }
    assert WithoutTree(later, root).nodes == fs.nodes;
  }

  /** What a reservation tells: the root, and the fixture's state directory. */
  function MadeTrail(root: AbsPath, fixture: bool): seq<Event> {
    [Mkdir(root, true)] + (if fixture then [Mkdir(StateDir(root), true)] else [])
  }

  /** The checks and the state directory after the root was made. */
  method ReserveState(h: Host, r: Request, root: AbsPath) returns (error: Option<BuildError>)
    requires Safe(Up, h.log)
    modifies h`fs, h`servers, h`procs, h`log
    ensures error.None? ==>
      Adds(Up, old(h.log), h.log, if r.variant.Some? then [Mkdir(StateDir(root), true)] else [])
    ensures error.Some? ==> Unheard(Up, old(h.log), h.log)
    ensures error.None? ==> r.source.Some? && (r.variant.Some? ==> BinaryUsable(old(h.fs), r))
    ensures h.quiet ==> h.servers == old(h.servers) && h.procs == old(h.procs)
    ensures h.quiet ==>
      if r.source.None? then error == Some(NoSourceIdentity) && h.fs == old(h.fs)
      else if r.variant.None? then error == None && h.fs == old(h.fs)
      else if !BinaryUsable(old(h.fs), r) then error == Some(BadBinary) && h.fs == old(h.fs)
      else if !CanCreate(old(h.fs), StateDir(root)) then error == Some(CannotCreateState) && h.fs == old(h.fs)
      else error == None && h.fs == WithDir(old(h.fs), StateDir(root), r.device, r.stateInode)
  {
    AddsNothing(Up, h.log, h.log);
    if r.source.None? {
      return Some(NoSourceIdentity);
    }
    if r.variant.None? {
      return None;
    }
    if !BinaryUsable(h.fs, r) {
      return Some(BadBinary);
    }
    var ok := h.MakeDir(StateDir(root), r.device, r.stateInode);
    AddsStep(Up, old(h.log), old(h.log), [], Mkdir(StateDir(root), ok));
    assert [] + Told(Mkdir(StateDir(root), ok)) == Told(Mkdir(StateDir(root), ok));
    AddsNothing(Up, old(h.log), h.log);
    error := if ok then None else Some(CannotCreateState);
  }

  /** The checks before the root is made, and the root. */
  method MakeRoot(h: Host, env: Env, r: Request) returns (res: Result<AbsPath, BuildError>)
    requires Safe(Up, h.log)
    modifies h`fs, h`servers, h`procs, h`log
    ensures res.Success? ==> Adds(Up, old(h.log), h.log, [Mkdir(res.value, true)])
    ensures res.Failure? ==> Unheard(Up, old(h.log), h.log)
    ensures h.quiet ==> h.servers == old(h.servers) && h.procs == old(h.procs)
    ensures h.quiet ==>
      var root := RootFor(env, old(h.fs), r);
      if Preflight(env, old(h.fs), r).Fail? then
        res == Failure(Preflight(env, old(h.fs), r).error) && h.fs == old(h.fs)
      else if !CanCreate(old(h.fs), root) then res == Failure(CannotCreateRoot) && h.fs == old(h.fs)
      else res == Success(root) && h.fs == WithDir(old(h.fs), root, r.device, r.inode)
  {
    var _ := h.Interfere();
    var root := RootFor(env, h.fs, r);
    var check := Preflight(env, h.fs, r);
    if check.Fail? {
      return Failure(check.error);
    }
    var ok := h.MakeDir(root, r.device, r.inode);
    RootMade(old(h.log), root, ok);
    res := if ok then Success(root) else Failure(CannotCreateRoot);
  }

  /** `_build_manifest`: a failure leaves no root of this run behind. */
  method Reserve(h: Host, env: Env, r: Request) returns (res: Result<(InstanceManifest, AbsPath), BuildError>)
    requires Safe(Up, h.log)
    modifies h`fs, h`servers, h`procs, h`log
    ensures res.Success? ==>
      && Adds(Up, old(h.log), h.log, MadeTrail(res.value.1, r.variant.Some?)) && Closed(res.value.0)
      && res.value.0.ownerNonce == r.nonce && res.value.0.tmuxSocket == "cao-sbx-" + r.instanceId
    ensures res.Failure? ==>
      || Unheard(Up, old(h.log), h.log)
      || exists root :: Adds(Up, old(h.log), h.log, [Mkdir(root, true)] + [RemovedTree(root)])
    ensures h.quiet ==> h.servers == old(h.servers) && h.procs == old(h.procs)
    ensures h.quiet && FS.WellFormed(old(h.fs)) ==>
      match BuildManifest(env, old(h.fs), r)
      case Success(b) => res == Success((b.manifest, b.root)) && h.fs == b.fs
      case Failure((e, _)) => res == Failure(e) && h.fs == old(h.fs)
  {
    var made := MakeRoot(h, env, r);
    if made.Failure? {
      return Failure(made.error);
    }
    var root, tree := made.value, h.fs;
    ghost var log := h.log;
    var error := ReserveState(h, r, root);
    if error.Some? {
      QuietlyMore(Up, old(h.log), log, h.log, [Mkdir(root, true)]);
      var _ := Undo(h, root, old(h.log), [Mkdir(root, true)]);
      RestoreAfterUndo(h.quiet, old(h.fs), root, tree);
      return Failure(error.value);
    }
    AddsChain(Up, old(h.log), log, h.log, [Mkdir(root, true)],
      if r.variant.Some? then [Mkdir(StateDir(root), true)] else []);
    var m := ManifestFor(env, tree, r, root);
    RowsAreClosed(env, root);
    assert |MUTABLE_PARTS| == |MUTABLE_PATHS|;
    return Success((m, root));
  }

  lemma RootMade(log: seq<Event>, root: AbsPath, ok: bool)
    requires Safe(Up, log)
    ensures if ok then Adds(Up, log, log + [Mkdir(root, true)], [Mkdir(root, true)])
            else Unheard(Up, log, log + [Mkdir(root, false)])
  {
    SafeAppend(Up, log, Mkdir(root, ok));
  }

  lemma RestoreAfterUndo(quiet: bool, before: FS.Fs, root: AbsPath, made: FS.Fs)
    ensures quiet && FS.WellFormed(before) && CanCreate(before, root)
            && (exists d, i :: made == WithDir(before, root, d, i))
       ==> WithoutTree(made, root) == before
  {
    if quiet && FS.WellFormed(before) && CanCreate(before, root)
       && (exists d, i :: made == WithDir(before, root, d, i)) {
      RemoveCreated(before, root, made);
    }
  }

  /** `shutil.rmtree(root)` of a root this run created. */
  method Undo(h: Host, root: AbsPath, ghost from: seq<Event>, ghost told: seq<Event>) returns (ok: bool)
    requires Adds(Up, from, h.log, told) && Mkdir(root, true) in told
    modifies h`fs, h`servers, h`procs, h`log
    ensures Adds(Up, from, h.log, told + [RemovedTree(root)])
    ensures h.quiet ==> h.servers == old(h.servers) && h.procs == old(h.procs)
    ensures h.quiet ==> h.fs == WithoutTree(old(h.fs), root)
  {
    ok := h.RemoveTree(root);
    ToldStep(Up, from, old(h.log), told, Mkdir(root, true), RemovedTree(root));
  }

  // ----- furnishing the reserved root -----

  /** A step did what the function of the tree says, or failed where it fails. */
  predicate Did(ok: bool, now: FS.Fs, made: Option<FS.Fs>) {
    ok == made.Some? && (ok ==> now == made.value)
  }

  method WriteLeaf(h: Host, i: nat, content: FS.Content, root: AbsPath, ghost start: FS.Fs, ghost house: House)
    returns (ok: bool)
    requires Safe(Up, h.log) && i < |LEAF_PARTS| && root == house.root
    modifies h
    ensures h.log == old(h.log) + [Wrote(root + LEAF_PARTS[i], content, ok)] && Unheard(Up, old(h.log), h.log)
    ensures h.quiet ==> Did(ok, h.fs, Leaf(old(h.fs), root + LEAF_PARTS[i], content))
    ensures h.quiet ==> h.servers == old(h.servers) && h.procs == old(h.procs)
    ensures old(Calm(h, start, house)) ==>
      && Calm(h, start, house) && Extends(old(h.fs), h.fs)
      && (ok ==> ContentAt(h.fs, root + LEAF_PARTS[i]) == Some(content))
  {
    var p := root + LEAF_PARTS[i];
    ok := h.WriteOnce(p, content);
    HarmlessStep(Up, old(h.log), Wrote(p, content, ok));
    if old(Calm(h, start, house)) && ok {
      LeafIsHoused(start, old(h.fs), house, i, content);
    }
  }

  lemma LeafIsHoused(start: FS.Fs, fs: FS.Fs, house: House, i: nat, content: FS.Content)
    requires Foundation(start, house) && Housed(start, fs, house) && i < |LEAF_PARTS|
    requires CanCreate(fs, house.root + LEAF_PARTS[i])
    ensures var p := house.root + LEAF_PARTS[i]; var made := WithFile(fs, p, content);
      Housed(start, made, house) && Extends(fs, made) && ContentAt(made, p) == Some(content)
  {
    LeafFacts(house.root, i);
    HousedFile(start, fs, house, house.root + LEAF_PARTS[i], content);
  }

  method MakeInner(h: Host, parts: seq<string>, root: AbsPath, ghost start: FS.Fs, ghost house: House)
    returns (ok: bool)
    requires PlainPath(parts) && root == house.root
    modifies h`fs, h`servers, h`procs
    ensures h.quiet ==> Did(ok, h.fs, EnsureDir(old(h.fs), root + parts))
    ensures h.quiet ==> h.servers == old(h.servers) && h.procs == old(h.procs)
    ensures old(Calm(h, start, house)) ==> Calm(h, start, house) && Extends(old(h.fs), h.fs)
  {
    ok := h.MakeDirs(root + parts);
    if old(Calm(h, start, house)) && ok {
      HousedEnsure(start, old(h.fs), house, root + parts);
    }
  }

  /** The seven working directories, `logs_dir` to `graph_exports_dir`. */
  method MakeWorkDirs(h: Host, root: AbsPath, ghost start: FS.Fs, ghost house: House) returns (ok: bool)
    requires root == house.root
    modifies h`fs, h`servers, h`procs
    ensures h.quiet ==> Did(ok, h.fs, WorkDirs(old(h.fs), root, 4))
    ensures h.quiet ==> h.servers == old(h.servers) && h.procs == old(h.procs)
    ensures old(Calm(h, start, house)) ==> Calm(h, start, house) && Extends(old(h.fs), h.fs)
  {
    for i := 4 to 11
      invariant h.quiet ==> WorkDirs(old(h.fs), root, 4) == WorkDirs(h.fs, root, i)
      invariant h.quiet ==> h.servers == old(h.servers) && h.procs == old(h.procs)
      invariant old(Calm(h, start, house)) ==> Calm(h, start, house) && Extends(old(h.fs), h.fs)
    {
      FieldPartsArePlain(i);
      ok := MakeInner(h, MUTABLE_PARTS[i], root, start, house);
      if !ok {
        return false;
      }
    }
    return true;
  }

  /** The home and the native home, neither of which may be there yet. */
  method MakeClaudeDirs(h: Host, root: AbsPath, ghost start: FS.Fs, ghost house: House) returns (ok: bool)
    requires root == house.root
    modifies h`fs, h`servers, h`procs
    ensures h.quiet ==> Did(ok, h.fs, ClaudeDirs(old(h.fs), root))
    ensures h.quiet ==> h.servers == old(h.servers) && h.procs == old(h.procs)
    ensures old(Calm(h, start, house)) ==> Calm(h, start, house) && Extends(old(h.fs), h.fs)
  {
    PinNamesArePlain();
    if root + CLAUDE_HOME in h.fs.nodes {
      return false;
    }
    ok := MakeInner(h, CLAUDE_HOME, root, start, house);
    if !ok || root + CLAUDE_NATIVE in h.fs.nodes {
      return false;
    }
    ok := MakeInner(h, CLAUDE_NATIVE, root, start, house);
  }

  /** `_initialize_claude_native_home`. */
  method MakeClaudeHome(h: Host, root: AbsPath, ghost start: FS.Fs, ghost house: House) returns (ok: bool)
    requires Safe(Up, h.log) && root == house.root
    modifies h
    ensures Unheard(Up, old(h.log), h.log)
    ensures h.quiet ==> Did(ok, h.fs, ClaudeTree(old(h.fs), root))
    ensures h.quiet ==> h.servers == old(h.servers) && h.procs == old(h.procs)
    ensures old(Calm(h, start, house)) ==> Calm(h, start, house) && Extends(old(h.fs), h.fs)
  {
    ok := MakeClaudeDirs(h, root, start, house);
    if !ok {
      return false;
    }
    ok := WriteLeaf(h, 5, FS.PlainText("# G7 sandbox CLAUDE.md\n"), root, start, house);
    if !ok {
      return false;
    }
    ok := WriteLeaf(h, 6, FS.PlainText(""), root, start, house);
  }

  /** `_seed_sandbox_db`. */
  method SeedDb(h: Host, m: InstanceManifest, root: AbsPath, ghost start: FS.Fs, ghost house: House)
    returns (ok: bool)
    requires Safe(Up, h.log) && root == house.root
    modifies h
    ensures Unheard(Up, old(h.log), h.log)
    ensures ok ==> Wrote(DbPath(root), Stamp(m), true) in h.log
    ensures h.quiet ==> Did(ok, h.fs, DbTree(old(h.fs), root, Stamp(m)))
    ensures h.quiet ==> h.servers == old(h.servers) && h.procs == old(h.procs)
    ensures old(Calm(h, start, house)) ==>
      && Calm(h, start, house) && Extends(old(h.fs), h.fs)
      && (ok ==> ContentAt(h.fs, DbPath(root)) == Some(Stamp(m)))
  {
    assert Plain("db");
    if root + ["db"] in h.fs.nodes {
      return false;
    }
    ok := MakeInner(h, ["db"], root, start, house);
    if ok {
      ok := WriteLeaf(h, 3, Stamp(m), root, start, house);
      assert ok ==> Wrote(DbPath(root), Stamp(m), true) == h.log[|h.log| - 1];
    }
  }

  function TextAt(env: Env, d: Dict, key: string): string {
    if key in d then StrOf(env, d[key]) else ""
  }

  function TableAt(d: Dict, key: string): Dict {
    if key in d && d[key].Table? then d[key].entries else map[]
  }

  /** The fixture row read back has the same text in memory, field by field. */
  predicate FixtureReadBack(env: Env, d: Dict, m: InstanceManifest) {
    match m.fixture
    case None => true
    case Some(row) =>
      var readback := TableAt(TableAt(d, "fixture_providers"), "mock_cli");
      forall field <- FixtureStrings(row) :: TextAt(env, readback, field.0) == field.1
  }

  predicate Accepted(env: Env, fs: FS.Fs, m: InstanceManifest, root: AbsPath)
    requires Closed(m)
  {
    ValidateManifest(env, fs, ToDict(m), Absolute(root + [MANIFEST_NAME])).Success?
  }

  /** What the copy on disk must give when it is read, validated and compared. */
  predicate ReadsBack(env: Env, fs: FS.Fs, m: InstanceManifest, root: AbsPath) {
    match ContentAt(fs, ManifestPath(root))
    case Some(PlainText(text)) =>
      && Loads(text).Some?
      && ValidateManifest(env, fs, Loads(text).value, Absolute(root + [MANIFEST_NAME])).Success?
      && FixtureReadBack(env, Loads(text).value, m)
    case _ => false
  }

  method ValidateCopy(h: Host, env: Env, d: Dict, root: AbsPath) returns (ok: bool)
    requires Safe(Up, h.log)
    modifies h`fs, h`servers, h`procs, h`log
    ensures Unheard(Up, old(h.log), h.log)
    ensures h.quiet ==> h.fs == old(h.fs) && h.servers == old(h.servers) && h.procs == old(h.procs)
    ensures h.quiet ==> ok == ValidateManifest(env, h.fs, d, Absolute(root + [MANIFEST_NAME])).Success?
  {
    ok := h.Validate(env, d, root);
    if ok {
      HarmlessStep(Up, old(h.log), Admitted(root, d));
    }
  }

  method ReadBack(h: Host, env: Env, m: InstanceManifest, root: AbsPath) returns (ok: bool)
    requires Safe(Up, h.log)
    modifies h
    ensures Unheard(Up, old(h.log), h.log)
    ensures h.quiet ==> h.fs == old(h.fs) && h.servers == old(h.servers) && h.procs == old(h.procs)
    ensures h.quiet ==> ok == ReadsBack(env, h.fs, m, root)
  {
    var found := h.ReadFile(ManifestPath(root));
    HarmlessStep(Up, old(h.log), Read(ManifestPath(root), found));
    if found.None? || !found.value.PlainText? {
      return false;
    }
    var readback := Loads(found.value.text);
    if readback.None? {
      return false;
    }
    ok := ValidateCopy(h, env, readback.value, root);
    ok := ok && FixtureReadBack(env, readback.value, m);
  }

  /** A copy that reads back was printed from a manifest without U+007F. */
  lemma ReadBackHoldsNoDel(env: Env, fs: FS.Fs, m: InstanceManifest, root: AbsPath)
    requires Closed(m) && ContentAt(fs, ManifestPath(root)) == Some(FS.PlainText(ManifestText(m)))
    requires ReadsBack(env, fs, m, root)
    ensures !DictHoldsDel(ToDict(m))
  {
    ReadManifestUndoesRender(m);
  }

  function SubmittedTree(env: Env, fs: FS.Fs, m: InstanceManifest, root: AbsPath): Option<FS.Fs>
    requires Closed(m)
  {
    if Accepted(env, fs, m, root) then Leaf(fs, ManifestPath(root), FS.PlainText(ManifestText(m))) else None
  }

  function PublishTree(env: Env, fs: FS.Fs, m: InstanceManifest, root: AbsPath): Option<FS.Fs>
    requires Closed(m)
  {
    match SubmittedTree(env, fs, m, root)
    case None => None
    case Some(made) => if ReadsBack(env, made, m, root) then Some(made) else None
  }

  /** The tree after everything up to the tmux claim, on a quiet host. */
  function FurnishTree(env: Env, fs: FS.Fs, m: InstanceManifest, root: AbsPath): Option<FS.Fs>
    requires Closed(m)
  {
    match PublishTree(env, fs, m, root)
    case None => None
    case Some(made) => FittedTree(made, root, OwnerLock(m), Stamp(m))
  }

  method WriteManifest(h: Host, m: InstanceManifest, root: AbsPath, ghost start: FS.Fs, ghost house: House)
    returns (ok: bool)
    requires Safe(Up, h.log) && Closed(m) && root == house.root
    modifies h
    ensures Unheard(Up, old(h.log), h.log)
    ensures h.quiet ==> Did(ok, h.fs, Leaf(old(h.fs), ManifestPath(root), FS.PlainText(ManifestText(m))))
    ensures h.quiet ==> h.servers == old(h.servers) && h.procs == old(h.procs)
    ensures old(Calm(h, start, house)) ==>
      && Calm(h, start, house) && Extends(old(h.fs), h.fs)
      && (ok ==> ContentAt(h.fs, ManifestPath(root)) == Some(FS.PlainText(ManifestText(m))))
  {
    var text := RenderManifest(m);
    ok := WriteLeaf(h, 0, FS.PlainText(text), root, start, house);
  }

  lemma PublishedFacts(env: Env, fs: FS.Fs, m: InstanceManifest, root: AbsPath, made: FS.Fs)
    requires Closed(m) && PublishTree(env, fs, m, root) == Some(made)
    ensures ContentAt(made, ManifestPath(root)) == Some(FS.PlainText(ManifestText(m)))
    ensures !DictHoldsDel(ToDict(m)) && Accepted(env, fs, m, root)
  {
    ReadBackHoldsNoDel(env, made, m, root);
  }

  /** Validates the manifest in memory and writes it. */
  method SubmitManifest(h: Host, env: Env, m: InstanceManifest, root: AbsPath,
                        ghost start: FS.Fs, ghost house: House) returns (ok: bool)
    requires Safe(Up, h.log) && Closed(m) && root == house.root
    modifies h
    ensures Unheard(Up, old(h.log), h.log)
    ensures h.quiet ==> Did(ok, h.fs, SubmittedTree(env, old(h.fs), m, root))
    ensures h.quiet ==> h.servers == old(h.servers) && h.procs == old(h.procs)
    ensures old(Calm(h, start, house)) ==> Calm(h, start, house)
  {
    ok := ValidateCopy(h, env, ToDict(m), root);
    if ok {
      ok := WriteManifest(h, m, root, start, house);
    }
  }

  /** Writes the manifest, reads it back and validates both copies. */
  method PublishManifest(h: Host, env: Env, m: InstanceManifest, root: AbsPath,
                         ghost start: FS.Fs, ghost house: House) returns (ok: bool)
    requires Safe(Up, h.log) && Closed(m) && root == house.root
    modifies h
    ensures Unheard(Up, old(h.log), h.log)
    ensures h.quiet ==> Did(ok, h.fs, PublishTree(env, old(h.fs), m, root))
    ensures h.quiet ==> h.servers == old(h.servers) && h.procs == old(h.procs)
    ensures old(Calm(h, start, house)) ==> Calm(h, start, house)
  {
    ok := SubmitManifest(h, env, m, root, start, house);
    ghost var submitted := ok;
    if ok {
      ok := ReadBack(h, env, m, root);
    }
    if h.quiet {
      PublishSteps(env, old(h.fs), h.fs, m, root, submitted, ok);
    }
  }

  lemma PublishSteps(env: Env, fs: FS.Fs, made: FS.Fs, m: InstanceManifest, root: AbsPath, submitted: bool, ok: bool)
    requires Closed(m) && Did(submitted, made, SubmittedTree(env, fs, m, root))
    requires ok == (submitted && ReadsBack(env, made, m, root))
    ensures Did(ok, made, PublishTree(env, fs, m, root))
  {
  }

  /** The owner lock, the directories, the claude home and the database. */
  method Fit(h: Host, m: InstanceManifest, root: AbsPath, ghost start: FS.Fs, ghost house: House)
    returns (ok: bool)
    requires Safe(Up, h.log) && root == house.root
    modifies h
    ensures Unheard(Up, old(h.log), h.log)
    ensures ok ==> Wrote(OwnerPath(root), OwnerLock(m), true) in h.log && Wrote(DbPath(root), Stamp(m), true) in h.log
    ensures h.quiet ==> Did(ok, h.fs, FittedTree(old(h.fs), root, OwnerLock(m), Stamp(m)))
    ensures h.quiet ==> h.servers == old(h.servers) && h.procs == old(h.procs)
    ensures old(Calm(h, start, house)) ==> Calm(h, start, house)
  {
    ok := WriteLeaf(h, 1, OwnerLock(m), root, start, house);
    if !ok {
      return false;
    }
    ghost var owner := Wrote(OwnerPath(root), OwnerLock(m), true);
    assert owner == h.log[|h.log| - 1];
    ok := MakeWorkDirs(h, root, start, house);
    if !ok {
      return false;
    }
    ok := MakeClaudeHome(h, root, start, house);
    if !ok {
      return false;
    }
    ok := SeedDb(h, m, root, start, house);
  }

  /** Everything between the reservation and the tmux claim. */
  method Furnish(h: Host, env: Env, m: InstanceManifest, root: AbsPath, ghost start: FS.Fs, ghost house: House)
    returns (ok: bool)
    requires Safe(Up, h.log) && Closed(m) && root == house.root
    modifies h
    ensures Unheard(Up, old(h.log), h.log)
    ensures ok ==> Wrote(OwnerPath(root), OwnerLock(m), true) in h.log && Wrote(DbPath(root), Stamp(m), true) in h.log
    ensures h.quiet ==> Did(ok, h.fs, FurnishTree(env, old(h.fs), m, root))
    ensures h.quiet ==> h.servers == old(h.servers) && h.procs == old(h.procs)
    ensures old(Calm(h, start, house)) ==> Calm(h, start, house)
  {
    ok := PublishManifest(h, env, m, root, start, house);
    if ok {
      ok := Fit(h, m, root, start, house);
    }
  }

  /** The manifest and the owner lock are on disk. */
  predicate Marked(fs: FS.Fs, m: InstanceManifest, root: AbsPath)
    requires Closed(m)
  {
    && ContentAt(fs, ManifestPath(root)) == Some(FS.PlainText(ManifestText(m)))
    && !DictHoldsDel(ToDict(m))
    && ContentAt(fs, OwnerPath(root)) == Some(OwnerLock(m))
  }

  /** A tree furnished on a quiet host, and what its manifest had to pass. */
  lemma FurnishTreeFacts(env: Env, fs: FS.Fs, m: InstanceManifest, root: AbsPath)
    requires Closed(m) && FurnishTree(env, fs, m, root).Some?
    ensures Marked(FurnishTree(env, fs, m, root).value, m, root) && Accepted(env, fs, m, root)
  {
    var published := PublishTree(env, fs, m, root).value;
    PublishedFacts(env, fs, m, root, published);
    FittedKeeps(published, root, OwnerLock(m), Stamp(m));
  }

  // ----- the tmux socket -----

  function WithSocket(fs: FS.Fs, p: AbsPath): FS.Fs {
    fs.(nodes := fs.nodes[p := FS.Socket(0)])
  }

  lemma SocketAdded(fs: FS.Fs, p: AbsPath)
    requires p !in fs.nodes
    ensures Extends(fs, WithSocket(fs, p)) && KeepsOthers(fs, WithSocket(fs, p), p)
  {
  }

  /** `tmux new-session` of the sentinel. */
  method NewSentinel(h: Host, socket: string, ghost start: FS.Fs, ghost house: House) returns (ok: bool)
    requires Safe(Up, h.log) && house.socket == h.SocketPath(socket)
    modifies h`fs, h`servers, h`procs, h`log
    ensures Adds(Up, old(h.log), h.log, Told(NewSession(socket, Sentinel(socket), ok)))
    ensures h.quiet ==> h.procs == old(h.procs)
    ensures old(Calm(h, start, house)) && PlainPath(house.socket) && socket !in old(h.servers) ==>
      && Calm(h, start, house)
      && ok == CanCreate(old(h.fs), house.socket)
      && h.fs == (if ok then WithSocket(old(h.fs), house.socket) else old(h.fs))
      && h.servers == (if ok then old(h.servers)[socket := [Sentinel(socket)]] else old(h.servers))
  {
    ok := h.StartSession(socket, Sentinel(socket));
    SafeAppend(Up, old(h.log), NewSession(socket, Sentinel(socket), ok));
    if old(Calm(h, start, house)) && PlainPath(house.socket) && socket !in old(h.servers) && ok {
      HousedWithSocket(start, old(h.fs), house);
    }
  }

  /** Starts the sentinel session and lists what the socket serves. */
  method StartSentinel(h: Host, socket: string, ghost start: FS.Fs, ghost house: House)
    returns (ok: bool, sessions: Option<seq<string>>)
    requires Safe(Up, h.log) && house.socket == h.SocketPath(socket)
    modifies h`fs, h`servers, h`procs, h`log
    ensures if ok then Adds(Up, old(h.log), h.log, StartTrail(socket, sessions)) else Unheard(Up, old(h.log), h.log)
    ensures h.quiet ==> h.procs == old(h.procs)
    ensures old(Calm(h, start, house)) && PlainPath(house.socket) && socket !in old(h.servers) ==>
      && Calm(h, start, house) && KeepsOthers(old(h.fs), h.fs, house.socket)
      && ok == CanCreate(old(h.fs), house.socket)
      && h.servers == (if ok then old(h.servers)[socket := [Sentinel(socket)]] else old(h.servers))
      && (ok ==> sessions == if h.listing then Some([Sentinel(socket)]) else None)
  {
    ok := NewSentinel(h, socket, start, house);
    sessions := None;
    if !ok {
      AddsNothing(Up, old(h.log), h.log);
      return;
    }
    if old(Calm(h, start, house)) && PlainPath(house.socket) && socket !in old(h.servers) {
      SocketAdded(old(h.fs), house.socket);
    }
    sessions := ListTold(h, socket, old(h.log), [NewSession(socket, Sentinel(socket), true)]);
  }

  /** `list-sessions`, after what this run told so far. */
  method ListTold(h: Host, socket: string, ghost from: seq<Event>, ghost told: seq<Event>)
    returns (sessions: Option<seq<string>>)
    requires Adds(Up, from, h.log, told)
    modifies h`fs, h`servers, h`procs, h`log
    ensures Adds(Up, from, h.log, told + [ListedSessions(socket, sessions)])
    ensures h.quiet ==> h.fs == old(h.fs) && h.servers == old(h.servers) && h.procs == old(h.procs)
    ensures h.quiet ==> sessions == if h.listing && socket in h.servers then Some(h.servers[socket]) else None
  {
    sessions := h.ListSessions(socket);
    AddsStep(Up, from, old(h.log), told, ListedSessions(socket, sessions));
  }

  function StartTrail(socket: string, sessions: Option<seq<string>>): seq<Event> {
    [NewSession(socket, Sentinel(socket), true)] + [ListedSessions(socket, sessions)]
  }

  /**
   What the claim of a socket tells.  `seen` is what the listing after the start of the
   sentinel gave, if it got that far; another instance's sessions make it end the sentinel.
   */
  function ClaimTrail(socket: string, seen: Option<Option<seq<string>>>): seq<Event> {
    match seen
    case None => []
    case Some(sessions) =>
      StartTrail(socket, sessions)
      + if sessions.Some? && !Claims(socket, seen) then [KilledSession(socket, Sentinel(socket))] else []
  }

  /** The socket serves exactly this instance's sentinel. */
  predicate Claims(socket: string, seen: Option<Option<seq<string>>>) {
    seen == Some(Some([Sentinel(socket)]))
  }

  /** tmux can create its socket: the directory for it is there. */
  predicate TmuxDirReady(fs: FS.Fs, socket: AbsPath) {
    socket != [] && Parent(socket) in fs.nodes && fs.nodes[Parent(socket)].Dir?
  }

  /** A dead socket removed leaves room for a new one. */
  lemma UnlinkedIsReady(fs: FS.Fs, socket: AbsPath)
    ensures CanCreate(Without(fs, socket), socket) <==> TmuxDirReady(fs, socket)
    ensures KeepsOthers(fs, Without(fs, socket), socket)
  {
    assert socket != [] ==> |Parent(socket)| < |socket|;
  }

  /** Frees a dead socket; a live one is another's. */
  method FreeSocket(h: Host, socket: string, ghost start: FS.Fs, ghost house: House) returns (free: bool)
    requires Safe(Up, h.log) && house.socket == h.SocketPath(socket)
    modifies h
    ensures Unheard(Up, old(h.log), h.log)
    ensures h.quiet ==> h.servers == old(h.servers) && h.procs == old(h.procs)
    ensures old(Calm(h, start, house)) ==>
      && Calm(h, start, house) && KeepsOthers(old(h.fs), h.fs, house.socket)
      && (free <==> socket !in old(h.servers)) && (free ==> h.fs == Without(old(h.fs), house.socket))
  {
    var live := ProbeOnce(h, Up, socket, old(h.log));
    WithoutKeepsOthers(old(h.fs), house.socket);
    if live {
      return false;
    }
    free := UnlinkDeadSocket(h, Up, socket, 0, start, house);
  }

  /**
   Claims the socket: free, started by this run, and serving only the sentinel.  When the
   sessions cannot be listed the call raises before `kill-session`, so the session stays.
   */
  method ClaimSocket(h: Host, socket: string, ghost start: FS.Fs, ghost house: House)
    returns (claimed: bool, ghost seen: Option<Option<seq<string>>>)
    requires Safe(Up, h.log) && house.socket == h.SocketPath(socket)
    modifies h
    ensures Adds(Up, old(h.log), h.log, ClaimTrail(socket, seen)) && claimed == Claims(socket, seen)
    ensures h.quiet ==> h.procs == old(h.procs)
    ensures old(Calm(h, start, house)) && PlainPath(house.socket) ==>
      && Calm(h, start, house) && KeepsOthers(old(h.fs), h.fs, house.socket)
      && (seen.Some? <==> socket !in old(h.servers) && TmuxDirReady(old(h.fs), house.socket))
      && (seen.Some? ==> seen.value == if h.listing then Some([Sentinel(socket)]) else None)
      && h.servers == (if seen.Some? then old(h.servers)[socket := [Sentinel(socket)]] else old(h.servers))
  {
    seen := None;
    var free := FreeSocket(h, socket, start, house);
    AddsNothing(Up, old(h.log), h.log);
    if !free {
      return false, seen;
    }
    ghost var freed, tree := h.log, h.fs;
    UnlinkedIsReady(old(h.fs), house.socket);
    var started, sessions := StartSentinel(h, socket, start, house);
    if old(Calm(h, start, house)) && PlainPath(house.socket) {
      KeepsOthersChain(old(h.fs), tree, h.fs, house.socket);
    }
    if !started {
      AddsNothing(Up, old(h.log), h.log);
      return false, seen;
    }
    seen := Some(sessions);
    claimed := sessions == Some([Sentinel(socket)]);
    QuietlyBefore(Up, old(h.log), freed, h.log, StartTrail(socket, sessions));
    if sessions.Some? && !claimed {
      EndSentinel(h, socket, old(h.log), StartTrail(socket, sessions));
    }
    assert ClaimTrail(socket, seen) ==
      StartTrail(socket, sessions)
      + if sessions.Some? && !claimed then [KilledSession(socket, Sentinel(socket))] else [];
  }

  /** `kill-session` of the sentinel this run started. */
  method EndSentinel(h: Host, socket: string, ghost from: seq<Event>, ghost told: seq<Event>)
    requires Adds(Up, from, h.log, told) && NewSession(socket, Sentinel(socket), true) in told
    modifies h`fs, h`servers, h`procs, h`log
    ensures Adds(Up, from, h.log, told + [KilledSession(socket, Sentinel(socket))])
    ensures h.quiet ==> h.fs == old(h.fs) && h.procs == old(h.procs)
  {
    h.KillSession(socket, Sentinel(socket));
    ToldStep(Up, from, old(h.log), told, NewSession(socket, Sentinel(socket), true),
      KilledSession(socket, Sentinel(socket)));
  }

  // ----- the server process -----

  /** At most one process, the child, was added. */
  predicate AddsChild(before: map<nat, nat>, after: map<nat, nat>, child: Option<nat>) {
    match child
    case None => after == before
    case Some(pid) => pid !in before && pid in after && after == before[pid := after[pid]]
  }

  /** The pid record of `pid` was written with the start time that was seen. */
  predicate PidRecorded(log: seq<Event>, root: AbsPath, pid: nat, nonce: string) {
    exists i, j :: 0 <= i < j < |log| && log[i].SawStart? && log[i].pid == pid && log[i].start.Some?
      && log[j] == Wrote(PidPath(root), PidRecord(pid, log[i].start.value, nonce), true)
  }

  function LaunchTrail(child: Option<nat>): seq<Event> {
    if child.Some? then [Spawned(child.value)] else []
  }

  /** `Popen` and the start time of the child. */
  method SpawnServer(h: Host) returns (child: Option<nat>, began: Option<nat>)
    requires Safe(Up, h.log)
    modifies h`fs, h`servers, h`procs, h`log
    ensures Adds(Up, old(h.log), h.log, LaunchTrail(child))
    ensures began.Some? ==> child.Some? && |h.log| > 0 && h.log[|h.log| - 1] == SawStart(child.value, began)
    ensures h.quiet ==> h.fs == old(h.fs) && h.servers == old(h.servers)
    ensures h.quiet ==> AddsChild(old(h.procs), h.procs, child)
    ensures h.quiet && began.Some? ==> h.procs[child.value] == began.value
    ensures h.quiet ==> began.Some?
  {
    began := None;
    child := h.Spawn();
    AddsNothing(Up, old(h.log), old(h.log));
    if child.None? {
      return;
    }
    HarmlessStep(Up, old(h.log), Spawned(child.value));
    began := SeeStart(h, child.value, old(h.log), LaunchTrail(child));
  }

  /** `_process_start_time` of the child. */
  method SeeStart(h: Host, pid: nat, ghost from: seq<Event>, ghost told: seq<Event>) returns (began: Option<nat>)
    requires Adds(Up, from, h.log, told)
    modifies h`fs, h`servers, h`procs, h`log
    ensures Adds(Up, from, h.log, told) && |h.log| > 0 && h.log[|h.log| - 1] == SawStart(pid, began)
    ensures h.quiet ==> h.fs == old(h.fs) && h.servers == old(h.servers) && h.procs == old(h.procs)
    ensures h.quiet ==> began == if pid in h.procs then Some(h.procs[pid]) else None
  {
    began := h.ProcessStart(pid);
    HarmlessStep(Up, old(h.log), SawStart(pid, began));
    QuietlyMore(Up, from, old(h.log), h.log, told);
  }

  /** The server log can be created, and after it the pid record. */
  predicate LaunchFits(fs: FS.Fs, root: AbsPath) {
    CanCreate(fs, ServerLog(root)) && CanCreate(WithFile(fs, ServerLog(root), FS.PlainText("")), PidFile(root))
  }

  /** The manifest, the owner lock and the pid record stay as they are. */
  predicate KeepsRecords(a: FS.Fs, b: FS.Fs, root: AbsPath) {
    forall i | 0 <= i < 3 :: ContentAt(b, root + LEAF_PARTS[i]) == ContentAt(a, root + LEAF_PARTS[i])
  }

  /** What a server may make of the tree: anything below its root but its own records. */
  predicate Worked(start: FS.Fs, was: FS.Fs, now: FS.Fs, house: House) {
    && Housed(start, now, house) && KeepsRecords(was, now, house.root)
    && (house.socket in now.nodes <==> house.socket in was.nodes)
    && (house.socket in now.nodes ==> now.nodes[house.socket] == was.nodes[house.socket])
  }

  /** The sandbox's tmux server serves the sentinel, and perhaps more; the others are as they were. */
  predicate Serving(was: map<string, seq<string>>, now: map<string, seq<string>>, socket: string) {
    socket in now && Sentinel(socket) in now[socket] && now == was[socket := now[socket]]
  }

  /** A running server works: logs, migrates its database, opens sessions. */
  method Serve(h: Host, socket: string, start: FS.Fs, house: House)
    requires house.socket == h.SocketPath(socket)
    modifies h`fs, h`servers, h`procs
    ensures h.quiet ==> h.procs == old(h.procs)
    ensures h.quiet && socket in old(h.servers) && Sentinel(socket) in old(h.servers)[socket] ==>
      Serving(old(h.servers), h.servers, socket)
    ensures old(Calm(h, start, house)) ==> Calm(h, start, house) && Worked(start, old(h.fs), h.fs, house)
  {
    var _ := h.Interfere();
    if h.quiet {
      var tree: FS.Fs := *;
      var sessions: seq<string> := *;
      if Worked(start, h.fs, tree, house) {
        h.fs := tree;
      }
      if socket in h.servers && Sentinel(socket) in sessions {
        h.servers := h.servers[socket := sessions];
      }
    }
  }

  lemma WorkedKeepsMarks(start: FS.Fs, was: FS.Fs, now: FS.Fs, house: House, m: InstanceManifest)
    requires Closed(m) && Worked(start, was, now, house) && Marked(was, m, house.root)
    ensures Marked(now, m, house.root) && ContentAt(now, PidPath(house.root)) == ContentAt(was, PidPath(house.root))
  {
    assert KeepsRecords(was, now, house.root);
    assert ContentAt(now, house.root + LEAF_PARTS[0]) == ContentAt(was, house.root + LEAF_PARTS[0]);
    assert ContentAt(now, house.root + LEAF_PARTS[1]) == ContentAt(was, house.root + LEAF_PARTS[1]);
    assert ContentAt(now, house.root + LEAF_PARTS[2]) == ContentAt(was, house.root + LEAF_PARTS[2]);
  }

  lemma ExtendsKeepsMarks(was: FS.Fs, now: FS.Fs, m: InstanceManifest, root: AbsPath)
    requires Closed(m) && Extends(was, now) && Marked(was, m, root)
    ensures Marked(now, m, root)
  {
  }

  /** The pid record and the start time that was seen, when it could be written. */
  method RecordPid(h: Host, m: InstanceManifest, root: AbsPath, pid: nat, began: nat, ghost n: nat,
                   ghost start: FS.Fs, ghost house: House)
    returns (ok: bool)
    requires Safe(Up, h.log) && root == house.root && Closed(m)
    requires n < |h.log| && h.log[n] == SawStart(pid, Some(began))
    modifies h
    ensures Unheard(Up, old(h.log), h.log)
    ensures ok ==> PidRecorded(h.log, root, pid, m.ownerNonce)
    ensures h.quiet ==> h.servers == old(h.servers) && h.procs == old(h.procs)
    ensures h.quiet ==> (ok <==> CanCreate(old(h.fs), PidFile(root)))
    ensures old(Calm(h, start, house)) ==>
      && Calm(h, start, house)
      && (ok ==> ContentAt(h.fs, PidPath(root)) == Some(PidRecord(pid, began, m.ownerNonce)))
      && (old(Marked(h.fs, m, root)) ==> Marked(h.fs, m, root))
  {
    ok := WriteLeaf(h, 2, PidRecord(pid, began, m.ownerNonce), root, start, house);
    assert ok ==> h.log[|old(h.log)|] == Wrote(PidPath(root), PidRecord(pid, began, m.ownerNonce), true);
    assert h.log[n] == SawStart(pid, Some(began));
    if old(Calm(h, start, house)) && old(Marked(h.fs, m, root)) {
      ExtendsKeepsMarks(old(h.fs), h.fs, m, root);
    }
  }

  /**
   The server, its pid record, and the readiness wait's verdict, before which the server has
   done its first work.
   */
  method StartServer(h: Host, m: InstanceManifest, root: AbsPath, healthy: bool, start: FS.Fs, house: House)
    returns (ok: bool, child: Option<nat>)
    requires Safe(Up, h.log) && root == house.root && Closed(m) && house.socket == h.SocketPath(m.tmuxSocket)
    modifies h
    ensures Adds(Up, old(h.log), h.log, LaunchTrail(child))
    ensures ok ==> healthy && child.Some? && PidRecorded(h.log, root, child.value, m.ownerNonce)
    ensures h.quiet ==> AddsChild(old(h.procs), h.procs, child)
    ensures h.quiet ==> (ok <==> healthy && CanCreate(old(h.fs), PidFile(root)))
    ensures h.quiet && m.tmuxSocket in old(h.servers) && Sentinel(m.tmuxSocket) in old(h.servers)[m.tmuxSocket] ==>
      Serving(old(h.servers), h.servers, m.tmuxSocket)
    ensures old(Calm(h, start, house)) ==>
      && Calm(h, start, house) && (old(Marked(h.fs, m, root)) ==> Marked(h.fs, m, root) && (ok ==>
            ContentAt(h.fs, PidPath(root)) == Some(PidRecord(child.value, h.procs[child.value], m.ownerNonce))))
  {
    var began;
    child, began := SpawnServer(h);
    if began.None? {
      ok := false;
      return;
    }
    ghost var spawned := h.log;
    ok := RecordPid(h, m, root, child.value, began.value, |spawned| - 1, start, house);
    QuietlyMore(Up, old(h.log), spawned, h.log, LaunchTrail(child));
    if ok {
      ghost var recorded := h.fs;
      Serve(h, m.tmuxSocket, start, house);
      if old(Calm(h, start, house)) && old(Marked(h.fs, m, root)) {
        WorkedKeepsMarks(start, recorded, h.fs, house, m);
      }
    }
    ok := ok && healthy;
  }

  /** The empty server log, created exclusively. */
  method OpenLog(h: Host, m: InstanceManifest, root: AbsPath, ghost start: FS.Fs, ghost house: House)
    returns (ok: bool)
    requires Safe(Up, h.log) && root == house.root && Closed(m)
    modifies h
    ensures Unheard(Up, old(h.log), h.log)
    ensures h.quiet ==> h.servers == old(h.servers) && h.procs == old(h.procs)
    ensures h.quiet ==> ok == CanCreate(old(h.fs), ServerLog(root))
    ensures h.quiet && ok ==> h.fs == WithFile(old(h.fs), ServerLog(root), FS.PlainText(""))
    ensures old(Calm(h, start, house)) ==>
      Calm(h, start, house) && (old(Marked(h.fs, m, root)) ==> Marked(h.fs, m, root))
  {
    ok := WriteLeaf(h, 4, FS.PlainText(""), root, start, house);
    if old(Calm(h, start, house)) && old(Marked(h.fs, m, root)) {
      ExtendsKeepsMarks(old(h.fs), h.fs, m, root);
    }
  }

  /** The server log, then the server. */
  method Launch(h: Host, m: InstanceManifest, root: AbsPath, healthy: bool, start: FS.Fs, house: House)
    returns (ok: bool, child: Option<nat>)
    requires Safe(Up, h.log) && root == house.root && Closed(m) && house.socket == h.SocketPath(m.tmuxSocket)
    modifies h
    ensures Adds(Up, old(h.log), h.log, LaunchTrail(child))
    ensures ok ==> healthy && child.Some? && PidRecorded(h.log, root, child.value, m.ownerNonce)
    ensures h.quiet ==> AddsChild(old(h.procs), h.procs, child)
    ensures h.quiet ==> (ok <==> healthy && LaunchFits(old(h.fs), root))
    ensures h.quiet && m.tmuxSocket in old(h.servers) && Sentinel(m.tmuxSocket) in old(h.servers)[m.tmuxSocket] ==>
      Serving(old(h.servers), h.servers, m.tmuxSocket)
    ensures old(Calm(h, start, house)) ==>
      && Calm(h, start, house) && (old(Marked(h.fs, m, root)) ==> Marked(h.fs, m, root) && (ok ==>
            ContentAt(h.fs, PidPath(root)) == Some(PidRecord(child.value, h.procs[child.value], m.ownerNonce))))
  {
    child := None;
    ok := OpenLog(h, m, root, start, house);
    AddsNothing(Up, old(h.log), h.log);
    if ok {
      ghost var logged := h.log;
      ok, child := StartServer(h, m, root, healthy, start, house);
      QuietlyBefore(Up, old(h.log), logged, h.log, LaunchTrail(child));
    }
  }

  lemma CanCreateElsewhere(a: FS.Fs, b: FS.Fs, except: AbsPath, p: AbsPath)
    requires KeepsOthers(a, b, except) && p != except && (p != [] ==> Parent(p) != except)
    ensures CanCreate(b, p) <==> CanCreate(a, p)
  {
  }

  /** A socket outside the root does not touch what the launch needs. */
  lemma LaunchFitsElsewhere(a: FS.Fs, b: FS.Fs, root: AbsPath, socket: AbsPath)
    requires KeepsOthers(a, b, socket) && !(root <= socket)
    ensures LaunchFits(b, root) <==> LaunchFits(a, root)
  {
    var log, pid := ServerLog(root), PidFile(root);
    LogNames();
    OwnerName();
    assert root <= Parent(log) && root <= Parent(pid) && root <= log && root <= pid;
    CanCreateElsewhere(a, b, socket, log);
    var x := FS.PlainText("");
    assert KeepsOthers(WithFile(a, log, x), WithFile(b, log, x), socket);
    CanCreateElsewhere(WithFile(a, log, x), WithFile(b, log, x), socket, pid);
  }

  // ----- the command -----

  /** The owner lock, the database stamp and the pid record all carry the manifest's nonce. */
  predicate StampedByOwner(log: seq<Event>, m: InstanceManifest, root: AbsPath, pid: nat) {
    && Wrote(OwnerPath(root), OwnerLock(m), true) in log
    && Wrote(DbPath(root), Stamp(m), true) in log
    && PidRecorded(log, root, pid, m.ownerNonce)
  }

  /** The marks survive changes elsewhere. */
  lemma MarksStay(a: FS.Fs, b: FS.Fs, m: InstanceManifest, root: AbsPath, socket: AbsPath)
    requires Closed(m) && Marked(a, m, root) && KeepsOthers(a, b, socket) && !(root <= socket)
    ensures Marked(b, m, root)
  {
    assert root <= ManifestPath(root) && root <= OwnerPath(root);
  }

  /** Claim the socket and launch the server in a furnished root. */
  method Occupy(h: Host, m: InstanceManifest, root: AbsPath, healthy: bool, start: FS.Fs, house: House)
    returns (ok: bool, claimed: bool, child: Option<nat>, ghost seen: Option<Option<seq<string>>>)
    requires Safe(Up, h.log) && root == house.root && Closed(m) && house.socket == h.SocketPath(m.tmuxSocket)
    modifies h
    ensures Adds(Up, old(h.log), h.log, ClaimTrail(m.tmuxSocket, seen) + LaunchTrail(child))
    ensures claimed == Claims(m.tmuxSocket, seen) && (child.Some? ==> claimed)
    ensures ok ==> claimed && child.Some? && PidRecorded(h.log, root, child.value, m.ownerNonce)
    ensures h.quiet ==> AddsChild(old(h.procs), h.procs, child)
    ensures old(Calm(h, start, house)) && PlainPath(house.socket) && old(Marked(h.fs, m, root)) ==>
      && Calm(h, start, house) && Marked(h.fs, m, root)
      && (seen.Some? <==> m.tmuxSocket !in old(h.servers) && TmuxDirReady(old(h.fs), house.socket))
      && (seen.Some? ==> seen.value == if h.listing then Some([Sentinel(m.tmuxSocket)]) else None)
      && ServersAfter(old(h.servers), h.servers, m.tmuxSocket, seen)
      && (ok <==> healthy && claimed && LaunchFits(old(h.fs), root))
      && (ok ==> ContentAt(h.fs, PidPath(root)) == Some(PidRecord(child.value, h.procs[child.value], m.ownerNonce)))
  {
    ok, child := false, None;
    claimed, seen := ClaimSocket(h, m.tmuxSocket, start, house);
    ghost var claim := h.log;
    if old(Calm(h, start, house)) && PlainPath(house.socket) && old(Marked(h.fs, m, root)) {
      LaunchFitsElsewhere(old(h.fs), h.fs, root, house.socket);
      MarksStay(old(h.fs), h.fs, m, root, house.socket);
    }
    if claimed {
      ghost var servers := h.servers;
      ok, child := Launch(h, m, root, healthy, start, house);
      ServingAfterClaim(old(h.servers), servers, h.servers, m.tmuxSocket);
      AddsChain(Up, old(h.log), claim, h.log, ClaimTrail(m.tmuxSocket, seen), LaunchTrail(child));
    } else {
      assert ClaimTrail(m.tmuxSocket, seen) + LaunchTrail(child) == ClaimTrail(m.tmuxSocket, seen);
    }
  }

  lemma ServingAfterClaim(was: map<string, seq<string>>, mid: map<string, seq<string>>, now: map<string, seq<string>>,
                          socket: string)
    ensures mid == was[socket := [Sentinel(socket)]] && Serving(mid, now, socket) ==> Serving(was, now, socket)
  {
  }

  /** The tmux servers after a claim that saw `seen`, on a quiet host. */
  predicate ServersAfter(was: map<string, seq<string>>, now: map<string, seq<string>>, socket: string,
                         seen: Option<Option<seq<string>>>) {
    if seen.None? then now == was
    else if Claims(socket, seen) then Serving(was, now, socket)
    else now == was[socket := [Sentinel(socket)]]
  }

  /** On a quiet host the furnishing succeeds, and then tmux finds its place. */
  predicate RoomToClaim(env: Env, fs: FS.Fs, m: InstanceManifest, root: AbsPath, socket: AbsPath)
    requires Closed(m)
  {
    FurnishTree(env, fs, m, root).Some? && TmuxDirReady(FurnishTree(env, fs, m, root).value, socket)
  }

  /** And then the launch does. */
  predicate RoomToRise(env: Env, fs: FS.Fs, m: InstanceManifest, root: AbsPath, socket: AbsPath)
    requires Closed(m)
  {
    RoomToClaim(env, fs, m, root, socket) && LaunchFits(FurnishTree(env, fs, m, root).value, root)
  }

  /** Furnish, claim and launch: what this run did, whether or not it got to the end. */
  method Raise(h: Host, env: Env, m: InstanceManifest, root: AbsPath, healthy: bool, start: FS.Fs, house: House)
    returns (ok: bool, claimed: bool, child: Option<nat>, ghost seen: Option<Option<seq<string>>>)
    requires Safe(Up, h.log) && Closed(m) && root == house.root && house.socket == h.SocketPath(m.tmuxSocket)
    modifies h
    ensures Adds(Up, old(h.log), h.log, ClaimTrail(m.tmuxSocket, seen) + LaunchTrail(child))
    ensures claimed == Claims(m.tmuxSocket, seen) && (child.Some? ==> claimed)
    ensures ok ==> claimed && child.Some? && StampedByOwner(h.log, m, root, child.value)
    ensures h.quiet ==> AddsChild(old(h.procs), h.procs, child)
    ensures old(Calm(h, start, house)) && PlainPath(house.socket) ==>
      && Calm(h, start, house)
      && (seen.Some? <==> m.tmuxSocket !in old(h.servers) && RoomToClaim(env, old(h.fs), m, root, house.socket))
      && (seen.Some? ==> seen.value == if h.listing then Some([Sentinel(m.tmuxSocket)]) else None)
      && ServersAfter(old(h.servers), h.servers, m.tmuxSocket, seen)
      && (ok <==> healthy && claimed && RoomToRise(env, old(h.fs), m, root, house.socket))
      && (ok ==> Marked(h.fs, m, root) && Accepted(env, old(h.fs), m, root)
                 && ContentAt(h.fs, PidPath(root))
                    == Some(PidRecord(child.value, h.procs[child.value], m.ownerNonce)))
  {
    claimed, child, seen := false, None, None;
    ok := Furnish(h, env, m, root, start, house);
    if !ok {
      AddsNothing(Up, old(h.log), h.log);
      assert ClaimTrail(m.tmuxSocket, seen) + LaunchTrail(child) == [];
      return;
    }
    if h.quiet {
      FurnishTreeFacts(env, old(h.fs), m, root);
    }
    ghost var furnished := h.log;
    ok, claimed, child, seen := Occupy(h, m, root, healthy, start, house);
    QuietlyBefore(Up, old(h.log), furnished, h.log, ClaimTrail(m.tmuxSocket, seen) + LaunchTrail(child));
    if ok {
      StillIn(furnished, h.log, Wrote(OwnerPath(root), OwnerLock(m), true));
      StillIn(furnished, h.log, Wrote(DbPath(root), Stamp(m), true));
    }
  }

  // ----- exactly when an undisturbed run succeeds -----

  /** The strings of the fixture row read back as they were. */
  lemma FixtureReadsBack(env: Env, m: InstanceManifest)
    requires Closed(m)
    ensures FixtureReadBack(env, ToDict(m), m)
  {
    if m.fixture.Some? {
      OpenSubtables(m);
      FixtureHolds(m.fixture.value);
      FixtureTextsAre(env, ToDict(m), m.fixture.value);
    }
  }

  lemma FixtureHolds(row: FixtureRow)
    ensures forall field <- FixtureStrings(row) :: Holds(DictOf(StrPairs(FixtureStrings(row))), field.0, Str(field.1))
  {
    var strings := FixtureStrings(row);
    FixtureKeys(row);
    forall field | field in strings
      ensures Holds(DictOf(StrPairs(strings)), field.0, Str(field.1))
    {
      var i :| 0 <= i < |strings| && strings[i] == field;
      DictLookup(StrPairs(strings), i);
    }
  }

  lemma FixtureTextsAre(env: Env, d: Dict, row: FixtureRow)
    requires Holds(d, "fixture_providers", FixtureTable(row))
    requires var t := DictOf(StrPairs(FixtureStrings(row)));
      forall field <- FixtureStrings(row) :: Holds(t, field.0, Str(field.1))
    ensures forall field <- FixtureStrings(row) ::
      TextAt(env, TableAt(TableAt(d, "fixture_providers"), "mock_cli"), field.0) == field.1
  {
    var t := DictOf(StrPairs(FixtureStrings(row)));
    InnerTable(d, "fixture_providers", "mock_cli", t);
    forall field | field in FixtureStrings(row)
      ensures TextAt(env, t, field.0) == field.1
    {
      HeldText(env, t, field.0, field.1);
    }
  }

  lemma InnerTable(d: Dict, outer: string, inner: string, t: Dict)
    requires Holds(d, outer, Table(map[inner := Table(t)]))
    ensures TableAt(TableAt(d, outer), inner) == t
  {
  }

  lemma HeldText(env: Env, t: Dict, key: string, text: string)
    requires Holds(t, key, Str(text))
    ensures TextAt(env, t, key) == text
  {
  }

  /** Right after the reservation only the fixture's state directory is below the root. */
  lemma ReservedRoom(fs: FS.Fs, root: AbsPath, r: Request)
    requires FS.WellFormed(fs) && CanCreate(fs, root) && FS.WellFormed(ReservedFs(fs, root, r)) && PlainPath(root)
    requires forall p <- fs.nodes :: !(root <= p)
    ensures Room(ReservedFs(fs, root, r), root, Used(1))
  {
    var made := ReservedFs(fs, root, r);
    assert STEP_NAMES[0] == "fixture-provider-state" && STEP_NAMES[0] in Used(1);
    assert StateDir(root)[|root|] == "fixture-provider-state" && root != StateDir(root);
  }

  /** The manifest that was just written reads back and validates. */
  lemma PublishingWorks(env: Env, fs: FS.Fs, m: InstanceManifest, k: Pins, house: House)
    requires Closed(m) && Pinned(env, m, k) && Ready(env, fs, m, k) && !DictHoldsDel(ToDict(m))
    requires Foundation(fs, house) && house.root == k.root
    requires house.socket != k.base && house.socket != k.binary
    requires Room(fs, k.root, Used(1))
    ensures PublishTree(env, fs, m, k.root)
         == Some(WithFile(fs, ManifestPath(k.root), FS.PlainText(ManifestText(m))))
    ensures var made := PublishTree(env, fs, m, k.root).value;
         Room(made, k.root, Used(2)) && Extends(fs, made)
  {
    var text := FS.PlainText(ManifestText(m));
    var made := WithFile(fs, ManifestPath(k.root), text);
    ReadyIsAccepted(env, fs, m, k);
    ManifestLeaf(fs, k.root, house, text);
    WrittenReadsBack(env, fs, made, m, k, house);
    PublishedIs(env, fs, m, k.root, made);
  }

  lemma PublishedIs(env: Env, fs: FS.Fs, m: InstanceManifest, root: AbsPath, made: FS.Fs)
    requires Closed(m) && Accepted(env, fs, m, root) && ReadsBack(env, made, m, root)
    requires Leaf(fs, ManifestPath(root), FS.PlainText(ManifestText(m))) == Some(made)
    ensures PublishTree(env, fs, m, root) == Some(made)
  {
  }

  lemma ManifestLeaf(fs: FS.Fs, root: AbsPath, house: House, text: FS.Content)
    requires Foundation(fs, house) && house.root == root
    requires Room(fs, root, Used(1))
    ensures Leaf(fs, ManifestPath(root), text) == Some(WithFile(fs, ManifestPath(root), text))
    ensures Housed(fs, WithFile(fs, ManifestPath(root), text), house)
    ensures Extends(fs, WithFile(fs, ManifestPath(root), text))
    ensures Room(WithFile(fs, ManifestPath(root), text), root, Used(2))
  {
    OwnerName();
    NextName(1);
    FreshFile(fs, root, Used(1), MANIFEST_NAME, text);
    assert ManifestPath(root) == root + [MANIFEST_NAME];
    LeafFacts(root, 0);
    FoundationIsHoused(fs, house);
    HousedFile(fs, fs, house, ManifestPath(root), text);
  }

  lemma WrittenReadsBack(env: Env, fs: FS.Fs, made: FS.Fs, m: InstanceManifest, k: Pins, house: House)
    requires Closed(m) && Pinned(env, m, k) && Ready(env, fs, m, k) && !DictHoldsDel(ToDict(m))
    requires Foundation(fs, house) && house.root == k.root
    requires house.socket != k.base && house.socket != k.binary
    requires Housed(fs, made, house) && ContentAt(made, ManifestPath(k.root)) == Some(FS.PlainText(ManifestText(m)))
    ensures ReadsBack(env, made, m, k.root)
  {
    HousedIsReady(env, fs, made, house, m, k);
    ReadyIsAccepted(env, made, m, k);
    ReadManifestUndoesRender(m);
    FixtureReadsBack(env, m);
  }

  /** From a pinned and ready reservation everything up to the launch finds room. */
  lemma ReadyHasRoom(env: Env, fs: FS.Fs, m: InstanceManifest, k: Pins, house: House)
    requires Closed(m) && Pinned(env, m, k) && Ready(env, fs, m, k) && !DictHoldsDel(ToDict(m))
    requires Foundation(fs, house) && house.root == k.root
    requires house.socket != k.base && house.socket != k.binary && TmuxDirReady(fs, house.socket)
    requires Room(fs, k.root, Used(1))
    ensures RoomToRise(env, fs, m, k.root, house.socket)
  {
    PublishingWorks(env, fs, m, k, house);
    RoomFromPublished(env, fs, m, k.root, house.socket, PublishTree(env, fs, m, k.root).value);
  }

  lemma RoomFromPublished(env: Env, fs: FS.Fs, m: InstanceManifest, root: AbsPath, socket: AbsPath, published: FS.Fs)
    requires Closed(m) && PublishTree(env, fs, m, root) == Some(published)
    requires Extends(fs, published) && Room(published, root, Used(2)) && TmuxDirReady(fs, socket)
    ensures RoomToRise(env, fs, m, root, socket)
  {
    FittedHasRoom(fs, published, root, OwnerLock(m), Stamp(m), socket);
  }

  lemma FittedHasRoom(fs: FS.Fs, published: FS.Fs, root: AbsPath, owner: FS.Content, stamp: FS.Content, socket: AbsPath)
    requires Extends(fs, published) && Room(published, root, Used(2)) && TmuxDirReady(fs, socket)
    ensures FittedTree(published, root, owner, stamp).Some?
    ensures TmuxDirReady(FittedTree(published, root, owner, stamp).value, socket)
    ensures LaunchFits(FittedTree(published, root, owner, stamp).value, root)
  {
    FittingWorks(published, root, owner, stamp);
    LaunchFilesWork(FittedTree(published, root, owner, stamp).value, root);
  }

  /** What the exception handler tells; `alive` is what the poll of the child gave. */
  function RetreatTrail(socket: string, root: AbsPath, claimed: bool, child: Option<nat>, alive: bool): seq<Event> {
    ChildTrail(child, alive) + DropTrail(socket, claimed) + [RemovedTree(root)]
  }

  function ChildTrail(child: Option<nat>, alive: bool): seq<Event> {
    if child.None? then []
    else [Polled(child.value, alive)] + if alive then [Signalled(child.value)] else []
  }

  function DropTrail(socket: string, claimed: bool): seq<Event> {
    if claimed then [KilledServer(socket)] else []
  }

  /** SIGTERM to the child if it still runs. */
  method StopChild(h: Host, child: Option<nat>, ghost from: seq<Event>, ghost told: seq<Event>) returns (alive: bool)
    requires Adds(Up, from, h.log, told) && (child.Some? ==> Spawned(child.value) in told)
    modifies h`fs, h`servers, h`procs, h`stopping, h`log
    ensures Adds(Up, from, h.log, told + ChildTrail(child, alive))
    ensures h.quiet ==> h.fs == old(h.fs) && h.servers == old(h.servers)
  {
    alive := false;
    if child.None? {
      assert told + [] == told;
      return;
    }
    alive := PollTold(h, child.value, from, told);
    if alive {
      SignalTold(h, child.value, from, told + [Polled(child.value, alive)]);
      SandboxTrace.Regroup(told, [Polled(child.value, alive)], [Signalled(child.value)]);
    }
  }

  /** `poll` of the child. */
  method PollTold(h: Host, pid: nat, ghost from: seq<Event>, ghost told: seq<Event>) returns (alive: bool)
    requires Adds(Up, from, h.log, told)
    modifies h`fs, h`servers, h`procs, h`log
    ensures Adds(Up, from, h.log, told + [Polled(pid, alive)])
    ensures h.quiet ==> h.fs == old(h.fs) && h.servers == old(h.servers)
  {
    alive := h.Poll(pid);
    AddsStep(Up, from, old(h.log), told, Polled(pid, alive));
  }

  /** `killpg` of the child with SIGTERM. */
  method SignalTold(h: Host, pid: nat, ghost from: seq<Event>, ghost told: seq<Event>)
    requires Adds(Up, from, h.log, told) && Spawned(pid) in told
    modifies h`fs, h`servers, h`procs, h`stopping, h`log
    ensures Adds(Up, from, h.log, told + [Signalled(pid)])
    ensures h.quiet ==> h.fs == old(h.fs) && h.servers == old(h.servers)
  {
    var _ := h.Terminate(pid);
    ToldStep(Up, from, old(h.log), told, Spawned(pid), Signalled(pid));
  }

  /** `kill-server` of a claimed socket, and the socket it leaves. */
  method DropServer(h: Host, socket: string, claimed: bool, ghost from: seq<Event>, ghost told: seq<Event>,
                    ghost start: FS.Fs, ghost house: House)
    requires Adds(Up, from, h.log, told) && house.socket == h.SocketPath(socket)
    requires claimed ==> ListedSessions(socket, Some([Sentinel(socket)])) in told
    modifies h
    ensures Adds(Up, from, h.log, told + DropTrail(socket, claimed))
    ensures h.quiet ==> h.servers == if claimed then old(h.servers) - {socket} else old(h.servers)
    ensures old(Calm(h, start, house)) ==> Calm(h, start, house)
  {
    if !claimed {
      assert told + [] == told;
      return;
    }
    KillTold(h, socket, from, told);
    ghost var killed := h.log;
    var _ := UnlinkDeadSocket(h, Up, socket, SETTLE, start, house);
    QuietlyMore(Up, from, killed, h.log, told + [KilledServer(socket)]);
  }

  /** `kill-server` of a socket whose only session was the sentinel. */
  method KillTold(h: Host, socket: string, ghost from: seq<Event>, ghost told: seq<Event>)
    requires Adds(Up, from, h.log, told) && ListedSessions(socket, Some([Sentinel(socket)])) in told
    modifies h`fs, h`servers, h`procs, h`log
    ensures Adds(Up, from, h.log, told + [KilledServer(socket)])
    ensures h.quiet ==> h.fs == old(h.fs) && h.servers == old(h.servers) - {socket}
  {
    h.KillServer(socket);
    ToldStep(Up, from, old(h.log), told, ListedSessions(socket, Some([Sentinel(socket)])), KilledServer(socket));
  }

  /** The exception handler: stop the child, drop a claimed server, remove the root. */
  method Retreat(h: Host, socket: string, root: AbsPath, claimed: bool, child: Option<nat>,
                 ghost from: seq<Event>, ghost told: seq<Event>, ghost start: FS.Fs, ghost house: House)
    returns (alive: bool)
    requires Adds(Up, from, h.log, told) && root == house.root && house.socket == h.SocketPath(socket)
    requires Mkdir(root, true) in told
    requires claimed ==> ListedSessions(socket, Some([Sentinel(socket)])) in told
    requires child.Some? ==> Spawned(child.value) in told
    modifies h
    ensures Adds(Up, from, h.log, told + RetreatTrail(socket, root, claimed, child, alive))
    ensures h.quiet ==> h.servers == if claimed then old(h.servers) - {socket} else old(h.servers)
    ensures old(Calm(h, start, house)) ==> Unhoused(start, h.fs, house)
  {
    alive := StopChild(h, child, from, told);
    DropServer(h, socket, claimed, from, told + ChildTrail(child, alive), start, house);
    var _ := Undo(h, root, from, told + ChildTrail(child, alive) + DropTrail(socket, claimed));
    SandboxTrace.Regroup(told, ChildTrail(child, alive), DropTrail(socket, claimed));
    SandboxTrace.Regroup(told, ChildTrail(child, alive) + DropTrail(socket, claimed), [RemovedTree(root)]);
  }

  datatype UpOutcome = Healthy(manifest: InstanceManifest, root: AbsPath, pid: nat) | DiskLow | Refused

  /** Where `mkdir -p` of the requested root's parent lands. */
  function ParentOf(env: Env, fs: FS.Fs, r: Request): AbsPath {
    FS.Realpath(FS.LinksOf(fs), Parent(Abspath(env.cwd, r.root)))
  }

  function HouseFor(h: Host, root: AbsPath, id: string): House
  {
    House(root, h.SocketPath("cao-sbx-" + id))
  }

  /** The surroundings in which a quiet run is described: tmux's directory is apart from the rest. */
  predicate Setting(env: Env, fs: FS.Fs, h: Host, r: Request) {
    var socket := h.SocketPath("cao-sbx-" + r.instanceId);
    var k := PinsOf(env, fs, r);
    && FS.WellFormed(fs) && WellBehaved(env, r) && PlainPath(socket)
    && h.socketDir in fs.nodes && fs.nodes[h.socketDir].Dir?
    && (socket in fs.nodes ==> fs.nodes[socket].Socket?)
    && socket != k.root && socket != k.base && socket != k.binary
    && PlainPath(r.sysExecutable) && FS.Exists(fs, r.sysExecutable)
  }

  lemma ReservationIsFoundation(env: Env, fs: FS.Fs, h: Host, r: Request, b: Reserved)
    requires Setting(env, fs, h, r) && BuildManifest(env, fs, r) == Success(b)
    ensures Foundation(b.fs, HouseFor(h, b.root, r.instanceId))
    ensures GrownAt(fs, b.fs, b.root)
  {
    BuildShape(env, fs, r, b);
    ModulePathsArePlain(env, fs, r);
    ReservationGrows(fs, b.root, r);
    ReservedRoot(env, fs, r);
    ReservedHouse(fs, b.fs, b.root, r, h.socketDir, "cao-sbx-" + r.instanceId);
  }

  /** A missing entry has nothing below it. */
  lemma NothingBelow(fs: FS.Fs, root: AbsPath)
    requires FS.WellFormed(fs) && root !in fs.nodes
    ensures forall p <- fs.nodes :: !(root <= p)
  {
    forall p | p in fs.nodes
      ensures !(root <= p)
    {
      if root <= p {
        assert p[..|root|] == root;
        if p != root {
          FS.PrefixIsDir(fs, p, |root|);
        }
      }
    }
  }

  lemma ReservedHouse(fs: FS.Fs, later: FS.Fs, root: AbsPath, r: Request, socketDir: AbsPath, name: string)
    requires var socket := socketDir + [name];
      && FS.WellFormed(fs) && PlainPath(root) && CanCreate(fs, root)
      && socketDir in fs.nodes && (socket in fs.nodes ==> fs.nodes[socket].Socket?) && socket != root
      && later == ReservedFs(fs, root, r) && FS.WellFormed(later) && FS.LinkFree(FS.LinksOf(fs), root)
      && FS.LinksOf(later) == FS.LinksOf(fs) && OnlyDirsBelow(later, root)
      && root in later.nodes && later.nodes[root].Dir?
    requires r.variant.Some? ==> CanCreate(WithDir(fs, root, r.device, r.inode), StateDir(root))
    ensures Foundation(later, House(root, socketDir + [name]))
    ensures GrownAt(fs, later, root)
  {
    NothingBelow(fs, root);
    PrefixOfChild(root, socketDir, name);
  }

  lemma PrefixOfChild(p: AbsPath, dir: AbsPath, name: string)
    ensures p <= dir + [name] && p != dir + [name] ==> p <= dir
  {
    var child := dir + [name];
    if p <= child && p != child {
      assert p == child[..|p|];
      assert |p| < |child|;
    }
  }

  /** An accepted reservation is pinned and ready: acceptance implies what it needs. */
  lemma AcceptedIsReady(env: Env, fs: FS.Fs, h: Host, r: Request, b: Reserved)
    requires Setting(env, fs, h, r) && BuildManifest(env, fs, r) == Success(b)
    requires Closed(b.manifest) && Accepted(env, b.fs, b.manifest, b.root)
    ensures Pinned(env, b.manifest, PinsOf(env, fs, r)) && Ready(env, b.fs, b.manifest, PinsOf(env, fs, r))
  {
    BuildIsPinned(env, fs, r);
    BuildNeeds(env, fs, r, b, PinsOf(env, fs, r));
    BuildIsReady(env, fs, r);
  }

  /** What a reservation needs, beyond succeeding, for the rest of the run to succeed. */
  predicate Raisable(env: Env, before: FS.Fs, r: Request, m: InstanceManifest)
    requires Closed(m)
  {
    VenvIsLinked(before, r) && BinaryIsClean(before, r) && !DictHoldsDel(ToDict(m))
  }

  lemma RoomNeeds(env: Env, before: FS.Fs, h: Host, r: Request, b: Reserved)
    requires Setting(env, before, h, r) && BuildManifest(env, before, r) == Success(b) && Closed(b.manifest)
    requires FurnishTree(env, b.fs, b.manifest, b.root).Some?
    ensures Raisable(env, before, r, b.manifest)
  {
    PublishedFacts(env, b.fs, b.manifest, b.root, PublishTree(env, b.fs, b.manifest, b.root).value);
    BuildIsPinned(env, before, r);
    BuildNeeds(env, before, r, b, PinsOf(env, before, r));
  }

  /** The reserved tree is the old one with the root and the fixture's state directory. */
  lemma ReservedShape(env: Env, before: FS.Fs, r: Request, b: Reserved)
    requires BuildManifest(env, before, r) == Success(b)
    ensures b.fs == ReservedFs(before, b.root, r) && CanCreate(before, b.root) && PinsOf(env, before, r).root == b.root
  {
  }

  lemma ReservationHasRoom(env: Env, before: FS.Fs, h: Host, r: Request, b: Reserved, socket: AbsPath)
    requires Setting(env, before, h, r) && BuildManifest(env, before, r) == Success(b)
    requires socket == h.SocketPath("cao-sbx-" + r.instanceId)
    ensures Room(b.fs, b.root, Used(1)) && TmuxDirReady(b.fs, socket)
    ensures Foundation(b.fs, HouseFor(h, b.root, r.instanceId)) && PinsOf(env, before, r).root == b.root
  {
    ReservationIsFoundation(env, before, h, r, b);
    ReservedShape(env, before, r, b);
    RoomOfFoundation(before, b.fs, b.root, r, HouseFor(h, b.root, r.instanceId));
    assert Parent(socket) == h.socketDir;
  }

  lemma RoomOfFoundation(before: FS.Fs, fs: FS.Fs, root: AbsPath, r: Request, house: House)
    requires FS.WellFormed(before) && fs == ReservedFs(before, root, r) && CanCreate(before, root)
    requires Foundation(fs, house) && house.root == root && forall p <- before.nodes :: !(root <= p)
    ensures Room(fs, root, Used(1))
  {
    ReservedRoom(before, root, r);
  }

  lemma RaisableHasRoom(env: Env, before: FS.Fs, h: Host, r: Request, b: Reserved, socket: AbsPath)
    requires Setting(env, before, h, r) && BuildManifest(env, before, r) == Success(b) && Closed(b.manifest)
    requires Raisable(env, before, r, b.manifest) && socket == h.SocketPath("cao-sbx-" + r.instanceId)
    ensures RoomToRise(env, b.fs, b.manifest, b.root, socket)
  {
    ReservationHasRoom(env, before, h, r, b, socket);
    BuildIsPinned(env, before, r);
    BuildIsReady(env, before, r);
    ReadyHasRoom(env, b.fs, b.manifest, PinsOf(env, before, r), HouseFor(h, b.root, r.instanceId));
  }

  /** The furnishing and the launch find room exactly when the reservation is raisable. */
  lemma RoomExactly(env: Env, before: FS.Fs, h: Host, r: Request, b: Reserved, socket: AbsPath)
    requires Setting(env, before, h, r) && BuildManifest(env, before, r) == Success(b) && Closed(b.manifest)
    requires socket == h.SocketPath("cao-sbx-" + r.instanceId)
    ensures RoomToRise(env, b.fs, b.manifest, b.root, socket) <==> Raisable(env, before, r, b.manifest)
  {
    if Raisable(env, before, r, b.manifest) {
      RaisableHasRoom(env, before, h, r, b, socket);
    }
    if FurnishTree(env, b.fs, b.manifest, b.root).Some? {
      RoomNeeds(env, before, h, r, b);
    }
  }

  /** A claimed socket and room for the rest come together. */
  lemma ClaimExactly(env: Env, before: FS.Fs, h: Host, r: Request, b: Reserved, socket: AbsPath)
    requires Setting(env, before, h, r) && BuildManifest(env, before, r) == Success(b) && Closed(b.manifest)
    requires socket == h.SocketPath("cao-sbx-" + r.instanceId)
    ensures RoomToClaim(env, b.fs, b.manifest, b.root, socket) <==> Raisable(env, before, r, b.manifest)
  {
    RoomExactly(env, before, h, r, b, socket);
    if FurnishTree(env, b.fs, b.manifest, b.root).Some? {
      RoomNeeds(env, before, h, r, b);
    }
  }

  /** A sandbox `command_up` raised from the tree `before`: `pid` was started at `began`. */
  datatype Raised = Raised(
    before: FS.Fs, request: Request, manifest: InstanceManifest, root: AbsPath, pid: nat, began: nat)

  /**
   The sandbox is still as it was raised: housed, marked, with its pid record and sentinel.
   Its process may have ended, and its tmux server may serve more.
   */
  ghost predicate Occupied(h: Host, env: Env, up: Raised)
    reads h
  {
    && h.quiet && Setting(env, up.before, h, up.request)
    && BuildManifest(env, up.before, up.request).Success?
    && var b, m := BuildManifest(env, up.before, up.request).value, up.manifest;
       && m == b.manifest && up.root == b.root && Closed(m)
       && Ready(env, b.fs, m, PinsOf(env, up.before, up.request))
       && Pinned(env, m, PinsOf(env, up.before, up.request))
       && Housed(b.fs, h.fs, HouseFor(h, up.root, up.request.instanceId))
       && Marked(h.fs, m, up.root)
       && ContentAt(h.fs, PidPath(up.root)) == Some(PidRecord(up.pid, up.began, m.ownerNonce))
       && (up.pid in h.procs ==> h.procs[up.pid] == up.began)
       && m.tmuxSocket in h.servers && Sentinel(m.tmuxSocket) in h.servers[m.tmuxSocket]
  }

  /** A sandbox that is up: its process runs. */
  ghost predicate Standing(h: Host, env: Env, before: FS.Fs, r: Request, m: InstanceManifest, root: AbsPath, pid: nat)
    reads h
  {
    pid in h.procs && Occupied(h, env, Raised(before, r, m, root, pid, h.procs[pid]))
  }

  /** The tree is the one before the reservation, up to the sandbox's own socket. */
  ghost predicate Restored(h: Host, before: FS.Fs, r: Request)
    reads h
  {
    var socket := h.SocketPath("cao-sbx-" + r.instanceId);
    Without(h.fs, socket) == Without(before, socket)
  }

  /** The reservation from `before` gives this manifest, root and tree. */
  predicate Built(env: Env, before: FS.Fs, r: Request, m: InstanceManifest, root: AbsPath, start: FS.Fs) {
    BuildManifest(env, before, r) == Success(Reserved(m, start, root))
  }

  /** The tree right after a reservation that succeeded on a quiet host. */
  ghost predicate JustReserved(h: Host, env: Env, before: FS.Fs, r: Request, m: InstanceManifest, root: AbsPath)
    reads h
  {
    h.quiet && Setting(env, before, h, r) && Built(env, before, r, m, root, h.fs)
  }

  lemma ReservedFacts(h: Host, env: Env, before: FS.Fs, r: Request, m: InstanceManifest, root: AbsPath)
    requires JustReserved(h, env, before, r, m, root) && Closed(m)
    ensures Calm(h, h.fs, HouseFor(h, root, r.instanceId))
    ensures HasRoom(env, h.fs, m, HouseFor(h, root, r.instanceId), Raisable(env, before, r, m))
  {
    var house, b := HouseFor(h, root, r.instanceId), Reserved(m, h.fs, root);
    ReservationIsFoundation(env, before, h, r, b);
    FoundationIsHoused(h.fs, house);
    RoomExactly(env, before, h, r, b, house.socket);
    ClaimExactly(env, before, h, r, b, house.socket);
  }

  lemma StandingFrom(h: Host, env: Env, before: FS.Fs, r: Request, m: InstanceManifest, root: AbsPath, pid: nat,
                     start: FS.Fs)
    requires h.quiet && Setting(env, before, h, r) && Built(env, before, r, m, root, start) && Closed(m)
    requires Accepted(env, start, m, root) && Housed(start, h.fs, HouseFor(h, root, r.instanceId))
    requires Marked(h.fs, m, root) && pid in h.procs
    requires ContentAt(h.fs, PidPath(root)) == Some(PidRecord(pid, h.procs[pid], m.ownerNonce))
    requires m.tmuxSocket in h.servers && Sentinel(m.tmuxSocket) in h.servers[m.tmuxSocket]
    ensures Standing(h, env, before, r, m, root, pid)
  {
    AcceptedIsReady(env, before, h, r, Reserved(m, start, root));
  }

  lemma RetreatRestores(env: Env, h: Host, before: FS.Fs, r: Request, m: InstanceManifest, root: AbsPath,
                        start: FS.Fs, last: FS.Fs)
    requires Setting(env, before, h, r) && Built(env, before, r, m, root, start)
    requires Housed(start, last, HouseFor(h, root, r.instanceId)) && h.fs == WithoutTree(last, root)
    ensures Restored(h, before, r)
  {
    ReservationIsFoundation(env, before, h, r, Reserved(m, start, root));
    RemovingRootRestores(before, start, last, HouseFor(h, root, r.instanceId));
  }

  /** The servers and processes a run leaves, out of those it found. */
  predicate EndedWith(h: Host, socket: string, outcome: UpOutcome, servers: map<string, seq<string>>,
                      procs: map<nat, nat>, leaked: bool)
    reads h
  {
    match outcome
    case Healthy(_, _, pid) =>
      socket !in servers && Serving(servers, h.servers, socket) && AddsChild(procs, h.procs, Some(pid))
    case _ => h.servers == if leaked then servers[socket := [Sentinel(socket)]] else servers
  }

  /**
   What a finished run leaves on a quiet host: a sandbox, or the tree and the servers from
   before, with the sentinel's server if that was leaked.
   */
  ghost predicate Settled(h: Host, env: Env, before: FS.Fs, r: Request, outcome: UpOutcome,
                          servers: map<string, seq<string>>, procs: map<nat, nat>, leaked: bool)
    reads h
  {
    match outcome
    case Healthy(m, root, pid) =>
      && Standing(h, env, before, r, m, root, pid)
      && EndedWith(h, m.tmuxSocket, outcome, servers, procs, leaked)
    case _ => Restored(h, before, r) && EndedWith(h, "cao-sbx-" + r.instanceId, outcome, servers, procs, leaked)
  }

  predicate StampedOutcome(log: seq<Event>, r: Request, outcome: UpOutcome) {
    outcome.Healthy? ==>
      && Mkdir(outcome.root, true) in log
      && Closed(outcome.manifest) && outcome.manifest.ownerNonce == r.nonce
      && outcome.manifest.tmuxSocket == "cao-sbx-" + r.instanceId
      && StampedByOwner(log, outcome.manifest, outcome.root, outcome.pid)
  }

  // ----- what a run tells, from its beginning to its end -----

  /** What was told when the raising ended. */
  function RaisedTrail(root: AbsPath, r: Request, seen: Option<Option<seq<string>>>, child: Option<nat>): seq<Event> {
    MadeTrail(root, r.variant.Some?) + (ClaimTrail("cao-sbx-" + r.instanceId, seen) + LaunchTrail(child))
  }

  /** A healthy run made, claimed and launched, and undid nothing. */
  function HealthyTrail(root: AbsPath, r: Request, pid: nat): seq<Event> {
    RaisedTrail(root, r, Some(Some([Sentinel("cao-sbx-" + r.instanceId)])), Some(pid))
  }

  /** A run that failed after the reservation. */
  function RefusedTrail(root: AbsPath, r: Request, seen: Option<Option<seq<string>>>, child: Option<nat>, alive: bool)
    : seq<Event>
  {
    var socket := "cao-sbx-" + r.instanceId;
    RaisedTrail(root, r, seen, child) + RetreatTrail(socket, root, Claims(socket, seen), child, alive)
  }

  /** The run failed after the reservation of `root`. */
  ghost predicate RefusedWith(told: seq<Event>, r: Request, root: AbsPath) {
    exists seen, child, alive ::
      told == RefusedTrail(root, r, seen, child, alive) && (child.Some? ==> Claims("cao-sbx-" + r.instanceId, seen))
  }

  /** What every run of `command_up` tells, on any host. */
  ghost predicate UpTrail(told: seq<Event>, r: Request, outcome: UpOutcome) {
    match outcome
    case Healthy(_, root, pid) => told == HealthyTrail(root, r, pid)
    case DiskLow => told == []
    case Refused =>
      || told == []
      || (exists root :: told == [Mkdir(root, true)] + [RemovedTree(root)])
      || (exists root :: RefusedWith(told, r, root))
  }

  lemma RefusedIs(root: AbsPath, r: Request, seen: Option<Option<seq<string>>>, child: Option<nat>, alive: bool)
    requires child.Some? ==> Claims("cao-sbx-" + r.instanceId, seen)
    ensures RefusedWith(RefusedTrail(root, r, seen, child, alive), r, root)
  {
  }

  /** The events the handler's calls rest on were told. */
  lemma RaisedTells(root: AbsPath, fixture: bool, socket: string, seen: Option<Option<seq<string>>>, child: Option<nat>)
    ensures var told := MadeTrail(root, fixture) + (ClaimTrail(socket, seen) + LaunchTrail(child));
      && Mkdir(root, true) in told
      && (Claims(socket, seen) ==> ListedSessions(socket, Some([Sentinel(socket)])) in told)
      && (child.Some? ==> Spawned(child.value) in told)
  {
    assert Mkdir(root, true) in MadeTrail(root, fixture);
    if Claims(socket, seen) {
      assert ListedSessions(socket, Some([Sentinel(socket)])) in StartTrail(socket, Some([Sentinel(socket)]));
    }
  }

  /** The handler after a raising that failed. */
  method GiveUp(h: Host, r: Request, root: AbsPath, claimed: bool, child: Option<nat>,
                ghost seen: Option<Option<seq<string>>>, ghost from: seq<Event>, ghost start: FS.Fs, ghost house: House)
    returns (ghost told: seq<Event>)
    requires Adds(Up, from, h.log, RaisedTrail(root, r, seen, child)) && house == HouseFor(h, root, r.instanceId)
    requires claimed == Claims("cao-sbx-" + r.instanceId, seen) && (child.Some? ==> claimed)
    modifies h
    ensures Adds(Up, from, h.log, told) && UpTrail(told, r, Refused)
    ensures h.quiet ==>
      h.servers == if claimed then old(h.servers) - {"cao-sbx-" + r.instanceId} else old(h.servers)
    ensures old(Calm(h, start, house)) ==> Unhoused(start, h.fs, house)
  {
    var socket := "cao-sbx-" + r.instanceId;
    RaisedTells(root, r.variant.Some?, socket, seen, child);
    told := RaisedTrail(root, r, seen, child);
    var alive := Retreat(h, socket, root, claimed, child, from, told, start, house);
    told := told + RetreatTrail(socket, root, claimed, child, alive);
    RefusedIs(root, r, seen, child, alive);
  }

  /** The house is gone, and what was in it. */
  ghost predicate Unhoused(start: FS.Fs, now: FS.Fs, house: House) {
    exists last :: Housed(start, last, house) && now == WithoutTree(last, house.root)
  }

  /** What a run leaves in the house: a sandbox that runs, or no root. */
  ghost predicate Ended(h: Host, env: Env, m: InstanceManifest, outcome: UpOutcome, start: FS.Fs, house: House)
    requires Closed(m)
    reads h
  {
    match outcome
    case Healthy(made, root, pid) =>
      && made == m && root == house.root && Accepted(env, start, m, root)
      && Housed(start, h.fs, house) && Marked(h.fs, m, root) && pid in h.procs
      && ContentAt(h.fs, PidPath(root)) == Some(PidRecord(pid, h.procs[pid], m.ownerNonce))
    case _ => Unhoused(start, h.fs, house)
  }

  /** From a successful reservation to the outcome; `room` says whether everything finds room. */
  method Rise(h: Host, env: Env, r: Request, m: InstanceManifest, root: AbsPath, healthy: bool, start: FS.Fs,
              house: House, ghost calm: bool, ghost room: bool, ghost from: seq<Event>)
    returns (outcome: UpOutcome, ghost told: seq<Event>)
    requires Adds(Up, from, h.log, MadeTrail(root, r.variant.Some?)) && house == HouseFor(h, root, r.instanceId)
    requires Closed(m) && m.ownerNonce == r.nonce && m.tmuxSocket == "cao-sbx-" + r.instanceId
    requires calm ==> Calm(h, start, house) && h.fs == start && HasRoom(env, start, m, house, room)
    modifies h
    ensures Adds(Up, from, h.log, told) && UpTrail(told, r, outcome) && StampedOutcome(h.log, r, outcome)
    ensures !outcome.DiskLow?
    ensures calm ==> Ended(h, env, m, outcome, start, house)
    ensures calm ==>
      && EndedWith(h, m.tmuxSocket, outcome, old(h.servers), old(h.procs),
                   !h.listing && m.tmuxSocket !in old(h.servers) && room)
      && (outcome.Healthy? <==> healthy && h.listing && m.tmuxSocket !in old(h.servers) && room)
  {
    ghost var made, seen := h.log, None;
    var ok, claimed, child;
    ok, claimed, child, seen := Raise(h, env, m, root, healthy, start, house);
    AddsChain(Up, from, made, h.log, MadeTrail(root, r.variant.Some?),
      ClaimTrail(m.tmuxSocket, seen) + LaunchTrail(child));
    if ok {
      told := RaisedTrail(root, r, seen, child);
      RaisedTells(root, r.variant.Some?, m.tmuxSocket, seen, child);
      ToldIsLogged(Up, from, h.log, told, Mkdir(root, true));
      return Healthy(m, root, child.value), told;
    }
    ghost var raised := h.servers;
    told := GiveUp(h, r, root, claimed, child, seen, from, start, house);
    if calm && claimed {
      ClaimUndoneAfter(old(h.servers), m.tmuxSocket);
      assert Serving(old(h.servers), raised, m.tmuxSocket);
    }
    return Refused, told;
  }

  /** `room` is whether the claim finds room, and the launch after it. */
  predicate HasRoom(env: Env, fs: FS.Fs, m: InstanceManifest, house: House, room: bool)
    requires Closed(m)
  {
    && PlainPath(house.socket)
    && RoomToClaim(env, fs, m, house.root, house.socket) == room
    && RoomToRise(env, fs, m, house.root, house.socket) == room
  }

  /** From a successful reservation to the outcome. */
  method Establish(h: Host, env: Env, r: Request, m: InstanceManifest, root: AbsPath, healthy: bool,
                   ghost before: FS.Fs, ghost from: seq<Event>)
    returns (outcome: UpOutcome, ghost told: seq<Event>)
    requires Adds(Up, from, h.log, MadeTrail(root, r.variant.Some?))
    requires Closed(m) && m.ownerNonce == r.nonce && m.tmuxSocket == "cao-sbx-" + r.instanceId
    modifies h
    ensures Adds(Up, from, h.log, told) && UpTrail(told, r, outcome) && StampedOutcome(h.log, r, outcome)
    ensures !outcome.DiskLow?
    ensures old(JustReserved(h, env, before, r, m, root)) ==>
      && Settled(h, env, before, r, outcome, old(h.servers), old(h.procs),
                 !h.listing && m.tmuxSocket !in old(h.servers) && Raisable(env, before, r, m))
      && (outcome.Healthy? <==>
            healthy && h.listing && m.tmuxSocket !in old(h.servers) && Raisable(env, before, r, m))
  {
    var start, house := h.fs, HouseFor(h, root, r.instanceId);
    ghost var calm := JustReserved(h, env, before, r, m, root);
    ghost var room := calm && Raisable(env, before, r, m);
    if calm {
      ReservedFacts(h, env, before, r, m, root);
    }
    outcome, told := Rise(h, env, r, m, root, healthy, start, house, calm, room, from);
    if calm {
      EndedIsSettled(h, env, before, r, m, root, outcome, start, old(h.servers), old(h.procs),
        !h.listing && m.tmuxSocket !in old(h.servers) && room);
    }
  }

  lemma EndedIsSettled(h: Host, env: Env, before: FS.Fs, r: Request, m: InstanceManifest, root: AbsPath,
                       outcome: UpOutcome, start: FS.Fs, servers: map<string, seq<string>>, procs: map<nat, nat>,
                       leaked: bool)
    requires h.quiet && Setting(env, before, h, r) && Built(env, before, r, m, root, start) && Closed(m)
    requires m.tmuxSocket == "cao-sbx-" + r.instanceId
    requires Ended(h, env, m, outcome, start, HouseFor(h, root, r.instanceId))
    requires EndedWith(h, m.tmuxSocket, outcome, servers, procs, leaked)
    ensures Settled(h, env, before, r, outcome, servers, procs, leaked)
  {
    if outcome.Healthy? {
      StandingFrom(h, env, before, r, m, root, outcome.pid, start);
    } else {
      ghost var last :| Housed(start, last, HouseFor(h, root, r.instanceId)) && h.fs == WithoutTree(last, root);
      RetreatRestores(env, h, before, r, m, root, start, last);
    }
  }

  /** Dropping a server that was added gives back the servers from before. */
  lemma ClaimUndoneAfter(servers: map<string, seq<string>>, socket: string)
    requires socket !in servers
    ensures forall now :: Serving(servers, now, socket) ==> now - {socket} == servers
  {
  }

  /** The reservation from `before` succeeds, and the rest can follow. */
  predicate RaisableFrom(env: Env, before: FS.Fs, r: Request) {
    && BuildManifest(env, before, r).Success? && Closed(BuildManifest(env, before, r).value.manifest)
    && Raisable(env, before, r, BuildManifest(env, before, r).value.manifest)
  }

  /** The reservation, and everything after it. */
  method Build(h: Host, env: Env, r: Request, healthy: bool) returns (outcome: UpOutcome, ghost told: seq<Event>)
    requires Safe(Up, h.log)
    modifies h
    ensures Adds(Up, old(h.log), h.log, told) && UpTrail(told, r, outcome) && StampedOutcome(h.log, r, outcome)
    ensures !outcome.DiskLow?
    ensures h.quiet && Setting(env, old(h.fs), h, r) ==>
      && Settled(h, env, old(h.fs), r, outcome, old(h.servers), old(h.procs),
                 !h.listing && "cao-sbx-" + r.instanceId !in old(h.servers) && RaisableFrom(env, old(h.fs), r))
      && (outcome.Healthy? <==>
            healthy && h.listing && "cao-sbx-" + r.instanceId !in old(h.servers) && RaisableFrom(env, old(h.fs), r))
  {
    var reserved := Reserve(h, env, r);
    if reserved.Failure? {
      told := [];
      AddsNothing(Up, old(h.log), h.log);
      if !Unheard(Up, old(h.log), h.log) {
        ghost var made :| Adds(Up, old(h.log), h.log, [Mkdir(made, true)] + [RemovedTree(made)]);
        told := [Mkdir(made, true)] + [RemovedTree(made)];
      }
      return Refused, told;
    }
    var (m, root) := reserved.value;
    outcome, told := Establish(h, env, r, m, root, healthy, old(h.fs), old(h.log));
  }

  /** The tree once the parent directory of the requested root exists, or cannot be made. */
  function WithParent(env: Env, fs: FS.Fs, r: Request): FS.Fs {
    match EnsureDir(fs, ParentOf(env, fs, r))
    case None => fs
    case Some(made) => made
  }

  /** On a quiet host, whether a run gets as far as the claim of its socket. */
  predicate ReachesClaim(env: Env, fs: FS.Fs, servers: map<string, seq<string>>, r: Request, diskLow: bool) {
    && EnsureDir(fs, ParentOf(env, fs, r)).Some? && !diskLow
    && "cao-sbx-" + r.instanceId !in servers && RaisableFrom(env, WithParent(env, fs, r), r)
  }

  /**
   `command_up`.  `diskLow` is the verdict of the free-space check and `healthy` that of the
   readiness wait.  On any host the run is safe and tells a trail of one of the known shapes.
   On a quiet host it succeeds exactly when it reaches the claim, the sessions can be listed
   and the server gets healthy, and it leaks the sentinel's server exactly when it reaches the
   claim and they cannot.
   */
  method CommandUp(h: Host, env: Env, r: Request, diskLow: bool, healthy: bool) returns (outcome: UpOutcome)
    modifies h
    ensures Safe(Up, h.log) && |h.log| > 0 && h.log[0] == Began(old(h.clock))
    ensures UpTrail(Trail(h.log), r, outcome) && StampedOutcome(h.log, r, outcome)
    ensures outcome.DiskLow? ==> diskLow
    ensures h.quiet && Setting(env, WithParent(env, old(h.fs), r), h, r) ==>
      && Settled(h, env, WithParent(env, old(h.fs), r), r, outcome, old(h.servers), old(h.procs),
                 !h.listing && ReachesClaim(env, old(h.fs), old(h.servers), r, diskLow))
      && (outcome.Healthy? <==>
            healthy && h.listing && ReachesClaim(env, old(h.fs), old(h.servers), r, diskLow))
  {
    h.Begin();
    BeginIsSafe(Up, h.log);
    var made := h.MakeDirs(ParentOf(env, h.fs, r));
    if !made {
      return Refused;
    }
    if diskLow {
      return DiskLow;
    }
    ghost var told;
    outcome, told := Build(h, env, r, healthy);
    assert [] + told == told;
  }

  lemma BeginIsSafe(c: Command, log: seq<Event>)
    requires |log| == 1 && log[0].Began?
    ensures Safe(c, log) && Trail(log) == []
  {
    assert log == [] + [log[0]];
    HarmlessStep(c, [], log[0]);
  }
}
