/**
 `command_down`: re-identify the sandbox a root holds, stop what belongs to it, and with
 `--purge` remove the root itself.
 */
module SandboxDown {
  import opened Wrappers
  import opened TomlDocument
  import opened Manifest
  import opened ManifestRoundTrip
  import opened Paths
  import FS = FileSystem
  import opened Validation
  import opened Reservation
  import opened Acceptance
  import opened HostMachine
  import opened SandboxHouse
  import opened SandboxTrace
  import opened SandboxUp

  /** What `_load_owned` learns; `dead` when the recorded process cannot be identified. */
  datatype Owned = Owned(manifest: Dict, socket: string, pid: int, dead: bool)

  /** An accepted manifest has an owner nonce and its instance's socket. */
  lemma AcceptedNames(env: Env, fs: FS.Fs, d: Dict, path: PurePath)
    requires ValidateManifest(env, fs, d, path).Success?
    ensures "instance_id" in d && d["instance_id"].Str? && "owner_nonce" in d
    ensures "tmux_socket" in d && d["tmux_socket"] == Str("cao-sbx-" + d["instance_id"].text)
  {
    ScalarFieldsAreRequired();
    assert OpenManifest(env, d).Success?;
  }

  // ----- _load_owned -----

  /** `read_manifest` followed by `validate_manifest` at the manifest path below `root`. */
  method LoadManifest(h: Host, env: Env, ghost c: Command, root: AbsPath) returns (found: Option<Dict>)
    requires Safe(c, h.log)
    modifies h`fs, h`servers, h`procs, h`log
    ensures old(h.log) <= h.log && Safe(c, h.log)
    ensures found.Some? ==> Admitted(root, found.value) in h.log
    ensures found.Some? ==>
      exists now :: ValidateManifest(env, now, found.value, Absolute(root + [MANIFEST_NAME])).Success?
    ensures h.quiet ==> h.fs == old(h.fs) && h.servers == old(h.servers) && h.procs == old(h.procs)
    ensures h.quiet ==> found == ManifestAt(env, h.fs, root)
  {
    var content := h.ReadFile(ManifestPath(root));
    HarmlessStep(c, old(h.log), Read(ManifestPath(root), content));
    if content.None? || !content.value.PlainText? {
      return None;
    }
    var loaded := Loads(content.value.text);
    if loaded.None? {
      return None;
    }
    ghost var before := h.log;
    var ok := h.Validate(env, loaded.value, root);
    if !ok {
      return None;
    }
    HarmlessStep(c, before, Admitted(root, loaded.value));
    assert h.log[|before|] == Admitted(root, loaded.value);
    return loaded;
  }

  /** The accepted manifest a tree holds at `root`. */
  function ManifestAt(env: Env, fs: FS.Fs, root: AbsPath): Option<Dict> {
    match ContentAt(fs, ManifestPath(root))
    case Some(PlainText(text)) =>
      if Loads(text).Some? && ValidateManifest(env, fs, Loads(text).value, Absolute(root + [MANIFEST_NAME])).Success?
      then Loads(text) else None
    case _ => None
  }

  /** The start time of the recorded process; a negative number names no process. */
  method StartOf(h: Host, ghost c: Command, pid: int) returns (start: Option<nat>)
    requires Safe(c, h.log)
    modifies h`fs, h`servers, h`procs, h`log
    ensures old(h.log) <= h.log && Safe(c, h.log)
    ensures start.Some? ==> pid >= 0 && SawStart(pid, start) in h.log
    ensures h.quiet ==> h.fs == old(h.fs) && h.servers == old(h.servers) && h.procs == old(h.procs)
    ensures h.quiet ==> start == if pid in h.procs then Some(h.procs[pid]) else None
  {
    if pid < 0 {
      return None;
    }
    start := h.ProcessStart(pid);
    HarmlessStep(c, old(h.log), SawStart(pid, start));
    assert h.log[|old(h.log)|] == SawStart(pid, start);
  }

  /** The recorded process of an accepted manifest, when the record is the owner's. */
  function RecordedPid(env: Env, content: Option<FS.Content>, d: Dict): Option<(int, Fields)> {
    match content
    case Some(Record(fields)) =>
      if SameNonce(fields, d) && IntField(env, fields, "pid", 0).Some?
      then Some((IntField(env, fields, "pid", 0).value, fields)) else None
    case _ => None
  }

  method ReadPid(h: Host, root: AbsPath, ghost c: Command) returns (content: Option<FS.Content>)
    requires Safe(c, h.log)
    modifies h`fs, h`servers, h`procs, h`log
    ensures old(h.log) <= h.log && Safe(c, h.log) && Read(PidPath(root), content) in h.log
    ensures h.quiet ==> h.fs == old(h.fs) && h.servers == old(h.servers) && h.procs == old(h.procs)
    ensures h.quiet ==> content == ContentAt(h.fs, PidPath(root))
  {
    content := h.ReadFile(PidPath(root));
    HarmlessStep(c, old(h.log), Read(PidPath(root), content));
    assert h.log[|old(h.log)|] == Read(PidPath(root), content);
  }

  method LoadProcess(h: Host, env: Env, root: AbsPath, d: Dict, allowDead: bool)
    returns (found: Option<(int, bool)>)
    requires Safe(Down(env, root), h.log) && Admitted(root, d) in h.log
    modifies h`fs, h`servers, h`procs, h`log
    ensures old(h.log) <= h.log && Safe(Down(env, root), h.log)
    ensures found.Some? && !found.value.1 ==>
      found.value.0 >= 0 && exists fields :: OwnedProcess(env, h.log, root, d, fields, found.value.0)
    ensures h.quiet ==> h.fs == old(h.fs) && h.servers == old(h.servers) && h.procs == old(h.procs)
    ensures h.quiet ==> found == ProcessOf(env, ContentAt(h.fs, PidPath(root)), h.procs, d, allowDead)
  {
    var content := ReadPid(h, root, Down(env, root));
    var recorded := RecordedPid(env, content, d);
    if recorded.None? {
      return None;
    }
    var (pid, fields) := recorded.value;
    found := MatchStart(h, env, root, d, pid, fields, allowDead);
  }

  /** Compares the start time of the recorded process with the record. */
  method MatchStart(h: Host, env: Env, root: AbsPath, d: Dict, pid: int, fields: Fields, allowDead: bool)
    returns (found: Option<(int, bool)>)
    requires Safe(Down(env, root), h.log) && Admitted(root, d) in h.log && SameNonce(fields, d)
    requires Read(PidPath(root), Some(FS.Record(fields))) in h.log && IntField(env, fields, "pid", 0) == Some(pid)
    modifies h`fs, h`servers, h`procs, h`log
    ensures old(h.log) <= h.log && Safe(Down(env, root), h.log)
    ensures found.Some? && !found.value.1 ==>
      found.value.0 >= 0 && OwnedProcess(env, h.log, root, d, fields, found.value.0)
    ensures h.quiet ==> h.fs == old(h.fs) && h.servers == old(h.servers) && h.procs == old(h.procs)
    ensures h.quiet ==> found == ProcessOf(env, Some(FS.Record(fields)), h.procs, d, allowDead)
  {
    var start := StartOf(h, Down(env, root), pid);
    if start.None? {
      return if allowDead then Some((pid, true)) else None;
    }
    if IntField(env, fields, "start_time", -1) != Some(start.value as int) {
      return None;
    }
    StillIn(old(h.log), h.log, Read(PidPath(root), Some(FS.Record(fields))));
    StillIn(old(h.log), h.log, Admitted(root, d));
    return Some((pid, false));
  }

  /** The process the tree and the process table identify, and whether it is gone. */
  function ProcessOf(env: Env, content: Option<FS.Content>, procs: map<nat, nat>, d: Dict, allowDead: bool)
    : Option<(int, bool)>
  {
    match RecordedPid(env, content, d)
    case None => None
    case Some((pid, fields)) =>
      if pid !in procs then (if allowDead then Some((pid, true)) else None)
      else if IntField(env, fields, "start_time", -1) == Some(procs[pid] as int)
      then Some((pid, false))
      else None
  }

  /** The socket an accepted manifest names. */
  function SocketOf(d: Dict): string {
    if "instance_id" in d && d["instance_id"].Str? then "cao-sbx-" + d["instance_id"].text else ""
  }

  /** The sandbox a tree and a process table identify at `root`. */
  function OwnedAt(env: Env, fs: FS.Fs, procs: map<nat, nat>, root: AbsPath, allowDead: bool): Option<Owned> {
    match ManifestAt(env, fs, root)
    case None => None
    case Some(d) =>
      match ProcessOf(env, ContentAt(fs, PidPath(root)), procs, d, allowDead)
      case None => None
      case Some((pid, dead)) => Some(Owned(d, SocketOf(d), pid, dead))
  }

  method LoadOwned(h: Host, env: Env, root: AbsPath, allowDead: bool) returns (owned: Option<Owned>)
    requires Safe(Down(env, root), h.log)
    modifies h`fs, h`servers, h`procs, h`log
    ensures old(h.log) <= h.log && Safe(Down(env, root), h.log)
    ensures owned.Some? ==> AdmittedFor(h.log, root, owned.value.manifest, owned.value.socket)
    ensures owned.Some? && !owned.value.dead ==>
      && owned.value.pid >= 0
      && exists fields :: OwnedProcess(env, h.log, root, owned.value.manifest, fields, owned.value.pid)
    ensures h.quiet ==> h.fs == old(h.fs) && h.servers == old(h.servers) && h.procs == old(h.procs)
    ensures h.quiet ==> owned == OwnedAt(env, h.fs, h.procs, root, allowDead)
  {
    var found := LoadManifest(h, env, Down(env, root), root);
    if found.None? {
      return None;
    }
    var d := found.value;
    ghost var now :| ValidateManifest(env, now, d, Absolute(root + [MANIFEST_NAME])).Success?;
    AcceptedNames(env, now, d, Absolute(root + [MANIFEST_NAME]));
    ghost var loaded := h.log;
    var process := LoadProcess(h, env, root, d, allowDead);
    if process.None? {
      return None;
    }
    StillIn(loaded, h.log, Admitted(root, d));
    return Some(Owned(d, SocketOf(d), process.value.0, process.value.1));
  }

  // ----- stopping what the sandbox owns -----

  lemma OwnedStays(env: Env, a: seq<Event>, b: seq<Event>, root: AbsPath, d: Dict, fields: Fields, pid: nat)
    requires a <= b && OwnedProcess(env, a, root, d, fields, pid)
    ensures OwnedProcess(env, b, root, d, fields, pid)
  {
    StillIn(a, b, Admitted(root, d));
    StillIn(a, b, Read(PidPath(root), Some(FS.Record(fields))));
    ghost var start: nat :| SawStart(pid, Some(start)) in a
      && IntField(env, fields, "start_time", -1) == Some(start as int);
    StillIn(a, b, SawStart(pid, Some(start)));
  }

  /** The processes left at the present time, once `pid` was asked to stop at `begin`. */
  function Remaining(h: Host, procs: map<nat, nat>, pid: nat, begin: nat): map<nat, nat>
    reads h
  {
    if h.grace.Some? && begin + h.grace.value <= h.clock then procs - {pid} else procs
  }

  /** A quiet host on which `pid` alone was asked to stop, just now, out of `procs`. */
  ghost predicate AskedNow(h: Host, procs: map<nat, nat>, pid: nat)
    reads h
  {
    && h.quiet && pid in procs && h.procs == Remaining(h, procs, pid, h.clock)
    && h.stopping == if h.grace.Some? then Some((pid, h.clock + h.grace.value)) else None
  }

  /** Up to fifteen seconds of probes; `ended` when a probe finds the process gone. */
  method AwaitEnd(h: Host, pid: nat, ghost procs: map<nat, nat>) returns (ended: bool)
    modifies h`fs, h`servers, h`procs, h`clock
    ensures h.quiet ==> h.fs == old(h.fs) && h.servers == old(h.servers)
    ensures old(AskedNow(h, procs, pid)) ==>
      && h.procs == Remaining(h, procs, pid, old(h.clock))
      && var last := h.LastProbe(old(h.clock), old(h.clock) + SETTLE);
         && (ended <==> h.grace.Some? && old(h.clock) + h.grace.value <= last)
         && (if ended then h.clock <= last else h.clock == h.WakeAt(last))
         && (ended ==> pid !in h.procs)
  {
    var begin := h.clock;
    ghost var last := h.LastProbe(begin, begin + SETTLE);
    ended := false;
    while h.clock < begin + SETTLE && !ended
      invariant h.clock >= begin
      invariant h.quiet ==> h.fs == old(h.fs) && h.servers == old(h.servers)
      invariant old(AskedNow(h, procs, pid)) ==> h.procs == Remaining(h, procs, pid, begin)
      invariant h.clock < begin + SETTLE ==> last == h.LastProbe(h.clock, begin + SETTLE)
      invariant h.clock >= begin + SETTLE ==> !ended && h.clock == h.WakeAt(last)
      invariant old(AskedNow(h, procs, pid)) && ended ==>
        h.clock <= last && h.grace.Some? && begin + h.grace.value <= h.clock
      invariant old(AskedNow(h, procs, pid)) && h.clock >= begin + SETTLE && h.grace.Some? ==>
        last < begin + h.grace.value
      decreases begin + SETTLE - h.clock, !ended
    {
      var alive := h.IsAlive(pid);
      if alive {
        h.Sleep();
      } else {
        ended := true;
      }
    }
  }

  lemma SignalIsSafe(env: Env, root: AbsPath, log: seq<Event>, d: Dict, fields: Fields, pid: nat)
    requires Safe(Down(env, root), log) && OwnedProcess(env, log, root, d, fields, pid)
    ensures Safe(Down(env, root), log + [Signalled(pid)])
  {
    SafeAppend(Down(env, root), log, Signalled(pid));
  }

  method TerminateOwned(h: Host, env: Env, root: AbsPath, pid: nat, ghost d: Dict, ghost fields: Fields)
    returns (ok: bool)
    requires Safe(Down(env, root), h.log) && OwnedProcess(env, h.log, root, d, fields, pid)
    modifies h`fs, h`servers, h`procs, h`stopping, h`log
    ensures old(h.log) <= h.log && Safe(Down(env, root), h.log)
    ensures h.quiet ==> h.fs == old(h.fs) && h.servers == old(h.servers) && ok == (pid in old(h.procs))
    ensures h.quiet && !ok ==> h.procs == old(h.procs)
    ensures h.quiet && ok && old(h.stopping).None? ==> AskedNow(h, old(h.procs), pid)
  {
    ok := h.Terminate(pid);
    assert h.quiet && ok && old(h.stopping).None? ==> AskedNow(h, old(h.procs), pid);
    SignalIsSafe(env, root, old(h.log), d, fields, pid);
  }

  method KillOwned(h: Host, env: Env, root: AbsPath, pid: nat, ghost d: Dict, ghost fields: Fields)
    returns (ok: bool)
    requires Safe(Down(env, root), h.log) && OwnedProcess(env, h.log, root, d, fields, pid)
    modifies h`fs, h`servers, h`procs, h`log
    ensures old(h.log) <= h.log && Safe(Down(env, root), h.log)
    ensures h.quiet ==> h.fs == old(h.fs) && h.servers == old(h.servers) && ok == (pid in old(h.procs))
    ensures h.quiet ==> h.procs == old(h.procs) || h.procs == old(h.procs) - {pid}
  {
    ok := h.Kill(pid);
    SignalIsSafe(env, root, old(h.log), d, fields, pid);
  }

  /** What stopping `pid` out of `procs` leaves, when it was asked at `begin`. */
  predicate Stopped(h: Host, procs: map<nat, nat>, pid: nat, begin: nat, ok: bool)
    reads h
  {
    && (h.procs == procs || h.procs == procs - {pid})
    && (ok <==> !h.EndsUnseen(begin))
    && (!ok ==> pid !in h.procs)
  }

  /** The wait, and SIGKILL when no probe saw the process gone. */
  method AwaitOrKill(h: Host, env: Env, root: AbsPath, pid: nat, ghost d: Dict, ghost fields: Fields,
                     ghost procs: map<nat, nat>)
    returns (ok: bool)
    requires Safe(Down(env, root), h.log) && OwnedProcess(env, h.log, root, d, fields, pid)
    modifies h`fs, h`servers, h`procs, h`clock, h`log
    ensures old(h.log) <= h.log && Safe(Down(env, root), h.log)
    ensures h.quiet ==> h.fs == old(h.fs) && h.servers == old(h.servers)
    ensures old(AskedNow(h, procs, pid)) ==> Stopped(h, procs, pid, old(h.clock), ok)
  {
    ok := AwaitEnd(h, pid, procs);
    if !ok {
      ok := KillOwned(h, env, root, pid, d, fields);
    }
  }

  /**
   SIGTERM, up to fifteen seconds of waiting, then SIGKILL.  On a quiet host this raises
   exactly when there is no such process, or it obeys SIGTERM after the last probe found it
   alive: then the SIGKILL has no one to go to.
   */
  method StopProcess(h: Host, env: Env, root: AbsPath, pid: nat, ghost d: Dict, ghost fields: Fields)
    returns (ok: bool)
    requires Safe(Down(env, root), h.log) && OwnedProcess(env, h.log, root, d, fields, pid)
    modifies h
    ensures old(h.log) <= h.log && Safe(Down(env, root), h.log)
    ensures h.quiet ==> h.fs == old(h.fs) && h.servers == old(h.servers)
    ensures h.quiet && pid !in old(h.procs) ==> !ok && h.procs == old(h.procs)
    ensures h.quiet && pid in old(h.procs) && old(h.stopping).None? ==>
      Stopped(h, old(h.procs), pid, old(h.clock), ok)
  {
    ghost var procs := h.procs;
    ok := TerminateOwned(h, env, root, pid, d, fields);
    if ok {
      OwnedStays(env, old(h.log), h.log, root, d, fields, pid);
      ok := AwaitOrKill(h, env, root, pid, d, fields, procs);
    }
  }

  /** `unlink` of the pid record, once the server is known to be dead. */
  method RemovePid(h: Host, env: Env, root: AbsPath, d: Dict, socket: string, ghost start: FS.Fs, ghost house: House)
    returns (ok: bool)
    requires Safe(Down(env, root), h.log) && AdmittedFor(h.log, root, d, socket)
    requires ProbedServer(socket, false) in h.log
    modifies h`fs, h`servers, h`procs, h`log
    ensures old(h.log) <= h.log && Safe(Down(env, root), h.log)
    ensures h.quiet ==> h.servers == old(h.servers) && h.procs == old(h.procs)
    ensures old(Calm(h, start, house)) && PidPath(root) !in start.nodes && PidIsFile(old(h.fs), root) ==>
      ok && Calm(h, start, house) && h.fs == Without(old(h.fs), PidPath(root))
  {
    ok := h.Remove(PidPath(root));
    SafeAppend(Down(env, root), old(h.log), Removed(PidPath(root)));
    if old(Calm(h, start, house)) && PidPath(root) !in start.nodes && PidIsFile(old(h.fs), root) {
      HousedWithout(start, old(h.fs), house, PidPath(root));
    }
  }

  method KillOwnedServer(h: Host, env: Env, root: AbsPath, d: Dict, socket: string)
    requires Safe(Down(env, root), h.log) && AdmittedFor(h.log, root, d, socket)
    requires HasSession(socket, Sentinel(socket), true) in h.log
    modifies h`fs, h`servers, h`procs, h`log
    ensures old(h.log) <= h.log && Safe(Down(env, root), h.log)
    ensures h.quiet ==> h.fs == old(h.fs) && h.procs == old(h.procs) && h.servers == old(h.servers) - {socket}
  {
    h.KillServer(socket);
    SafeAppend(Down(env, root), old(h.log), KilledServer(socket));
  }

  /** `kill-server`, then the dead socket, then the pid file. */
  method StopServer(h: Host, env: Env, root: AbsPath, d: Dict, socket: string, ghost start: FS.Fs, ghost house: House)
    returns (ok: bool)
    requires Safe(Down(env, root), h.log) && AdmittedFor(h.log, root, d, socket)
    requires HasSession(socket, Sentinel(socket), true) in h.log
    requires house.root == root && house.socket == h.SocketPath(socket)
    modifies h
    ensures old(h.log) <= h.log && Safe(Down(env, root), h.log)
    ensures h.quiet ==> h.servers == old(h.servers) - {socket} && h.procs == old(h.procs)
    ensures old(Calm(h, start, house)) && PidPath(root) !in start.nodes && PidIsFile(old(h.fs), root) ==>
      && ok && Calm(h, start, house)
      && h.fs == Without(Without(old(h.fs), house.socket), PidPath(root))
  {
    KillOwnedServer(h, env, root, d, socket);
    ok := UnlinkDeadSocket(h, Down(env, root), socket, SETTLE, start, house);
    if ok {
      StillIn(old(h.log), h.log, Admitted(root, d));
      ok := RemovePid(h, env, root, d, socket, start, house);
    }
  }

  predicate PidIsFile(fs: FS.Fs, root: AbsPath) {
    PidPath(root) in fs.nodes ==> fs.nodes[PidPath(root)].File?
  }

  // ----- removing the root -----

  /** The owner lock's record, the check of its path, and the directory it names. */
  method ObserveOwner(h: Host, root: AbsPath, lock: AbsPath, ghost c: Command)
    returns (owner: Option<Fields>, node: Option<FS.Node>)
    requires Safe(c, h.log)
    modifies h
    ensures old(h.log) <= h.log && Safe(c, h.log)
    ensures owner.Some? && node.Some? ==>
      && node.value.Dir? && |h.log| > 0 && h.log[|h.log| - 1] == Identified(root, node)
      && Read(lock, Some(FS.Record(owner.value))) in h.log
    ensures h.quiet ==> h.fs == old(h.fs) && h.servers == old(h.servers) && h.procs == old(h.procs)
    ensures h.quiet ==> (owner.Some? && node.Some? <==> OwnerSeen(h.fs, root, lock))
    ensures h.quiet && OwnerSeen(h.fs, root, lock) ==>
      && ContentAt(h.fs, lock) == Some(FS.Record(owner.value)) && FS.Stat(h.fs, root) == FS.Entry(node.value)
  {
    owner, node := None, None;
    var content := h.ReadFile(lock);
    HarmlessStep(c, old(h.log), Read(lock, content));
    if content.None? || !content.value.Record? {
      return;
    }
    ghost var read := h.log;
    assert read[|old(h.log)|] == Read(lock, Some(FS.Record(content.value.fields)));
    var fault := h.Interfere();
    if fault || !FS.Clean(h.fs, lock, false) {
      return;
    }
    node := h.Identify(root);
    HarmlessStep(c, read, Identified(root, node));
    if node.None? || !node.value.Dir? {
      return None, None;
    }
    StillIn(read, h.log, Read(lock, Some(FS.Record(content.value.fields))));
    owner := Some(content.value.fields);
  }

  predicate OwnerSeen(fs: FS.Fs, root: AbsPath, lock: AbsPath) {
    && ContentAt(fs, lock).Some? && ContentAt(fs, lock).value.Record? && FS.Clean(fs, lock, false)
    && FS.Stat(fs, root).Entry? && FS.Stat(fs, root).node.Dir?
  }

  /** The owner lock names the nonce of `d` and the directory at `root`. */
  predicate OwnerHolds(fs: FS.Fs, root: AbsPath, lock: AbsPath, d: Dict) {
    && OwnerSeen(fs, root, lock)
    && var node := FS.Stat(fs, root).node;
       FenceFields(ContentAt(fs, lock).value.fields, d, node.device, node.inode)
  }

  /** The purge fences: the manifest still holds and the owner lock names this directory. */
  predicate Purgeable(env: Env, fs: FS.Fs, root: AbsPath) {
    ManifestAt(env, fs, root).Some? && OwnerHolds(fs, root, OwnerPath(root), ManifestAt(env, fs, root).value)
  }

  /** The last call removed the root. */
  predicate EndsWithRemoval(log: seq<Event>, root: AbsPath) {
    |log| > 0 && log[|log| - 1] == RemovedTree(root)
  }

  /** Removes the root if the owner lock belongs to the manifest and to the directory that is there. */
  method PurgeOwned(h: Host, env: Env, root: AbsPath, d: Dict) returns (ok: bool)
    requires Safe(Down(env, root), h.log) && Admitted(root, d) in h.log
    modifies h
    ensures old(h.log) <= h.log && Safe(Down(env, root), h.log) && (ok ==> EndsWithRemoval(h.log, root))
    ensures h.quiet ==> h.servers == old(h.servers) && h.procs == old(h.procs)
    ensures h.quiet ==> ok == OwnerHolds(old(h.fs), root, OwnerPath(root), d)
                        && h.fs == if ok then WithoutTree(old(h.fs), root) else old(h.fs)
  {
    var owner, node := ObserveOwner(h, root, OwnerPath(root), Down(env, root));
    if owner.None? || node.None? || !FenceFields(owner.value, d, node.value.device, node.value.inode) {
      return false;
    }
    ghost var fenced := h.log;
    StillIn(old(h.log), fenced, Admitted(root, d));
    assert OwnedRoot(fenced, root, d, owner.value, node.value.device, node.value.inode);
    ok := h.RemoveTree(root);
    SafeAppend(Down(env, root), fenced, RemovedTree(root));
  }

  method Purge(h: Host, env: Env, root: AbsPath) returns (ok: bool)
    requires Safe(Down(env, root), h.log)
    modifies h
    ensures old(h.log) <= h.log && Safe(Down(env, root), h.log) && (ok ==> EndsWithRemoval(h.log, root))
    ensures h.quiet ==> h.servers == old(h.servers) && h.procs == old(h.procs)
    ensures h.quiet ==> ok == Purgeable(env, old(h.fs), root)
                        && h.fs == if ok then WithoutTree(old(h.fs), root) else old(h.fs)
  {
    var current := LoadManifest(h, env, Down(env, root), root);
    if current.None? {
      return false;
    }
    ok := PurgeOwned(h, env, root, current.value);
  }

  // ----- the command on a sandbox that is up -----

  function StartTree(env: Env, up: Raised): FS.Fs
    requires BuildManifest(env, up.before, up.request).Success?
  {
    BuildManifest(env, up.before, up.request).value.fs
  }

  /** The tree holds an acceptable manifest, owner lock and pid record. */
  ghost predicate Kept(env: Env, up: Raised, fs: FS.Fs, house: House)
    requires BuildManifest(env, up.before, up.request).Success? && Closed(up.manifest)
  {
    && Foundation(StartTree(env, up), house) && Housed(StartTree(env, up), fs, house)
    && house.root == up.root
    && Marked(fs, up.manifest, up.root)
    && Ready(env, StartTree(env, up), up.manifest, PinsOf(env, up.before, up.request))
    && Pinned(env, up.manifest, PinsOf(env, up.before, up.request))
    && PinsOf(env, up.before, up.request).root == up.root
    && house.socket != PinsOf(env, up.before, up.request).base
    && house.socket != PinsOf(env, up.before, up.request).binary
  }

  lemma KeptManifest(env: Env, up: Raised, fs: FS.Fs, house: House)
    requires BuildManifest(env, up.before, up.request).Success? && Closed(up.manifest)
    requires Kept(env, up, fs, house)
    ensures ManifestAt(env, fs, up.root) == Some(ToDict(up.manifest))
  {
    var k := PinsOf(env, up.before, up.request);
    HousedIsReady(env, StartTree(env, up), fs, house, up.manifest, k);
    AcceptedIsFound(env, fs, up.manifest, k);
  }

  lemma AcceptedIsFound(env: Env, fs: FS.Fs, m: InstanceManifest, k: Pins)
    requires Closed(m) && Marked(fs, m, k.root) && Pinned(env, m, k) && Ready(env, fs, m, k)
    ensures ManifestAt(env, fs, k.root) == Some(ToDict(m))
  {
    ReadyIsAccepted(env, fs, m, k);
    ReadManifestUndoesRender(m);
  }

  /** The root of a housed tree is the directory it was, at its own real path. */
  lemma HousedRoot(start: FS.Fs, fs: FS.Fs, house: House, root: AbsPath)
    requires Foundation(start, house) && Housed(start, fs, house) && root == house.root
    ensures PlainPath(root) && FS.Clean(fs, root, false) && FS.Realpath(FS.LinksOf(fs), root) == root
    ensures root in start.nodes && FS.Stat(fs, root) == FS.Entry(start.nodes[root])
  {
    HousedLinks(start, fs, house);
    FS.EntryIsClean(fs, root);
    FS.CleanIsReal(fs, root);
  }

  lemma KeptRoot(env: Env, up: Raised, fs: FS.Fs, house: House)
    requires BuildManifest(env, up.before, up.request).Success? && Closed(up.manifest)
    requires Kept(env, up, fs, house)
    ensures PlainPath(up.root) && FS.Clean(fs, up.root, false) && FS.Clean(fs, OwnerPath(up.root), false)
    ensures FS.Realpath(FS.LinksOf(fs), up.root) == up.root
    ensures FS.Stat(fs, up.root) == FS.Entry(FS.Dir(up.manifest.rootDevice, up.manifest.rootInode))
  {
    HousedRoot(StartTree(env, up), fs, house, up.root);
    HousedFileIsClean(StartTree(env, up), fs, house, OWNER_LOCK_NAME, OwnerPath(up.root));
    ReadyRoot(env, StartTree(env, up), up.manifest, PinsOf(env, up.before, up.request));
  }

  lemma ReadyRoot(env: Env, fs: FS.Fs, m: InstanceManifest, k: Pins)
    requires Ready(env, fs, m, k)
    ensures k.root in fs.nodes && fs.nodes[k.root] == FS.Dir(m.rootDevice, m.rootInode)
  {
  }

  lemma RecordsMatch(env: Env, m: InstanceManifest, pid: nat, start: nat)
    requires Closed(m)
    ensures FenceFields(OwnerLock(m).fields, ToDict(m), m.rootDevice, m.rootInode)
    ensures var fields := PidRecord(pid, start, m.ownerNonce).fields;
         && SameNonce(fields, ToDict(m)) && IntField(env, fields, "pid", 0) == Some(pid as int)
         && IntField(env, fields, "start_time", -1) == Some(start as int)
  {
    DictOwner(m);
    OwnerFields(m, ToDict(m));
    PidFields(env, ToDict(m), pid, start, m.ownerNonce);
  }

  /** The owner lock names the nonce and the root directory. */
  predicate FenceFields(owner: Fields, d: Dict, device: int, inode: int) {
    && SameNonce(owner, d)
    && FieldOf(owner, "root_device") == Some(FS.Number(device))
    && FieldOf(owner, "root_inode") == Some(FS.Number(inode))
  }

  lemma OwnerFields(m: InstanceManifest, d: Dict)
    requires Holds(d, "owner_nonce", Str(m.ownerNonce))
    ensures FenceFields(OwnerLock(m).fields, d, m.rootDevice, m.rootInode)
  {
  }

  lemma PidFields(env: Env, d: Dict, pid: nat, start: nat, nonce: string)
    requires Holds(d, "owner_nonce", Str(nonce))
    ensures var fields := PidRecord(pid, start, nonce).fields;
         && SameNonce(fields, d) && IntField(env, fields, "pid", 0) == Some(pid as int)
         && IntField(env, fields, "start_time", -1) == Some(start as int)
  {
  }

  lemma OwnerHoldsFrom(fs: FS.Fs, root: AbsPath, lock: AbsPath, d: Dict, owner: Fields, device: nat, inode: nat)
    requires ContentAt(fs, lock) == Some(FS.Record(owner)) && FS.Clean(fs, lock, false)
    requires FS.Stat(fs, root) == FS.Entry(FS.Dir(device, inode)) && FenceFields(owner, d, device, inode)
    ensures OwnerHolds(fs, root, lock, d)
  {
  }

  lemma KeptIsPurgeable(env: Env, up: Raised, fs: FS.Fs, house: House)
    requires BuildManifest(env, up.before, up.request).Success? && Closed(up.manifest)
    requires Kept(env, up, fs, house)
    ensures Purgeable(env, fs, up.root)
  {
    var m := up.manifest;
    KeptManifest(env, up, fs, house);
    KeptRoot(env, up, fs, house);
    RecordsMatch(env, m, 0, 0);
    OwnerHoldsFrom(fs, up.root, OwnerPath(up.root), ToDict(m), OwnerLock(m).fields, m.rootDevice, m.rootInode);
  }

  lemma OccupiedIsKept(h: Host, env: Env, up: Raised, house: House)
    requires Occupied(h, env, up) && house == HouseFor(h, up.root, up.request.instanceId)
    ensures Kept(env, up, h.fs, house) && Calm(h, StartTree(env, up), house)
    ensures house.socket == h.SocketPath(up.manifest.tmuxSocket)
    ensures PidPath(up.root) !in StartTree(env, up).nodes && PidIsFile(h.fs, up.root)
  {
    var b := BuildManifest(env, up.before, up.request).value;
    ReservationIsFoundation(env, up.before, h, up.request, b);
    HousedLinks(b.fs, h.fs, house);
    LeafFacts(up.root, 2);
    BuildNames(env, up.before, up.request, b);
    assert PidPath(up.root) != house.socket;
  }

  /** The reservation's root and socket, as the pins and the manifest have them. */
  lemma BuildNames(env: Env, fs: FS.Fs, r: Request, b: Reserved)
    requires BuildManifest(env, fs, r) == Success(b)
    ensures b.manifest.tmuxSocket == "cao-sbx-" + r.instanceId && PinsOf(env, fs, r).root == b.root
  {
  }

  lemma OccupiedManifest(h: Host, env: Env, up: Raised)
    requires Occupied(h, env, up)
    ensures ManifestAt(env, h.fs, up.root) == Some(ToDict(up.manifest))
    ensures SocketOf(ToDict(up.manifest)) == up.manifest.tmuxSocket
  {
    var house := HouseFor(h, up.root, up.request.instanceId);
    OccupiedIsKept(h, env, up, house);
    KeptManifest(env, up, h.fs, house);
    DictNames(up.manifest);
  }

  lemma OccupiedIsOwned(h: Host, env: Env, up: Raised, allowDead: bool)
    requires Occupied(h, env, up) && (allowDead || up.pid in h.procs)
    ensures OwnedAt(env, h.fs, h.procs, up.root, allowDead)
         == Some(Owned(ToDict(up.manifest), up.manifest.tmuxSocket, up.pid, up.pid !in h.procs))
  {
    var m := up.manifest;
    OccupiedManifest(h, env, up);
    RecordsMatch(env, m, up.pid, up.began);
    OwnedFrom(env, h.fs, h.procs, up.root, PidPath(up.root), allowDead, ToDict(m),
      PidRecord(up.pid, up.began, m.ownerNonce).fields, up.pid, up.began);
  }

  lemma OwnedFrom(env: Env, fs: FS.Fs, procs: map<nat, nat>, root: AbsPath, record: AbsPath, allowDead: bool,
                  d: Dict, fields: Fields, pid: nat, began: nat)
    requires ManifestAt(env, fs, root) == Some(d)
    requires record == PidPath(root) && ContentAt(fs, record) == Some(FS.Record(fields))
    requires SameNonce(fields, d) && IntField(env, fields, "pid", 0) == Some(pid as int)
    requires IntField(env, fields, "start_time", -1) == Some(began as int)
    requires (pid in procs ==> procs[pid] == began) && (allowDead || pid in procs)
    ensures OwnedAt(env, fs, procs, root, allowDead) == Some(Owned(d, SocketOf(d), pid, pid !in procs))
  {
    ProcessFrom(env, procs, allowDead, d, fields, pid, began);
  }

  lemma ProcessFrom(env: Env, procs: map<nat, nat>, allowDead: bool, d: Dict, fields: Fields, pid: nat, began: nat)
    requires SameNonce(fields, d) && IntField(env, fields, "pid", 0) == Some(pid as int)
    requires IntField(env, fields, "start_time", -1) == Some(began as int)
    requires (pid in procs ==> procs[pid] == began) && (allowDead || pid in procs)
    ensures ProcessOf(env, Some(FS.Record(fields)), procs, d, allowDead) == Some((pid, pid !in procs))
  {
  }

  lemma MarkedWithout(fs: FS.Fs, m: InstanceManifest, root: AbsPath, p: AbsPath)
    requires Closed(m) && Marked(fs, m, root)
    requires p != ManifestPath(root) && p != OwnerPath(root)
    ensures Marked(Without(fs, p), m, root)
  {
  }

  lemma LeafPathsDiffer(root: AbsPath)
    ensures PidPath(root) != ManifestPath(root) && PidPath(root) != OwnerPath(root)
  {
    assert PidPath(root)[|root|] == "sandbox.pid";
    assert ManifestPath(root)[|root|] == MANIFEST_NAME;
    assert OwnerPath(root)[|root|] == OWNER_LOCK_NAME;
  }

  /** Dropping the socket and the pid record keeps everything the purge fences need. */
  lemma KeptWithoutPid(env: Env, up: Raised, fs: FS.Fs, house: House)
    requires BuildManifest(env, up.before, up.request).Success? && Closed(up.manifest)
    requires Kept(env, up, fs, house)
    requires PidPath(up.root) !in StartTree(env, up).nodes && PidIsFile(fs, up.root)
    ensures Kept(env, up, Without(Without(fs, house.socket), PidPath(up.root)), house)
  {
    var root, start := up.root, StartTree(env, up);
    assert root <= ManifestPath(root) && root <= OwnerPath(root);
    MarkedWithout(fs, up.manifest, root, house.socket);
    LeafPathsDiffer(root);
    MarkedWithout(Without(fs, house.socket), up.manifest, root, PidPath(root));
    HousedWithout(start, fs, house, house.socket);
    HousedWithout(start, Without(fs, house.socket), house, PidPath(root));
  }

  /** The tree `command_down` leaves. */
  function DownTree(fs: FS.Fs, socket: AbsPath, root: AbsPath, purge: bool): FS.Fs {
    var rest := Without(Without(fs, socket), PidPath(root));
    if purge then WithoutTree(rest, root) else rest
  }

  lemma OccupiedHouse(h: Host, env: Env, up: Raised, house: House)
    requires Occupied(h, env, up) && house == HouseFor(h, up.root, up.request.instanceId)
    ensures Foundation(StartTree(env, up), house) && Housed(StartTree(env, up), h.fs, house)
    ensures GrownAt(up.before, StartTree(env, up), up.root)
    ensures house.socket == h.SocketPath(up.manifest.tmuxSocket)
  {
    var b := BuildManifest(env, up.before, up.request).value;
    ReservationIsFoundation(env, up.before, h, up.request, b);
    BuildNames(env, up.before, up.request, b);
  }

  /** Purging a raised sandbox gives back the tree before it, without the sandbox's socket. */
  lemma PurgedTree(h: Host, env: Env, up: Raised)
    requires Occupied(h, env, up)
    ensures var socket := h.SocketPath(up.manifest.tmuxSocket);
         DownTree(h.fs, socket, up.root, true) == Without(up.before, socket)
  {
    var house := HouseFor(h, up.root, up.request.instanceId);
    OccupiedHouse(h, env, up, house);
    PurgedHouse(up.before, StartTree(env, up), h.fs, house, PidPath(up.root));
  }

  lemma PurgedHouse(before: FS.Fs, start: FS.Fs, fs: FS.Fs, house: House, pid: AbsPath)
    requires Foundation(start, house) && Housed(start, fs, house) && house.root <= pid
    requires GrownAt(before, start, house.root)
    ensures WithoutTree(Without(Without(fs, house.socket), pid), house.root) == Without(before, house.socket)
  {
    RemovingRootRestores(before, start, fs, house);
    DropBelow(fs, house.socket, pid, house.root);
  }

  lemma DropBelow(fs: FS.Fs, socket: AbsPath, p: AbsPath, root: AbsPath)
    requires root <= p
    ensures WithoutTree(Without(Without(fs, socket), p), root) == Without(WithoutTree(fs, root), socket)
  {
    assert WithoutTree(Without(Without(fs, socket), p), root).nodes == Without(WithoutTree(fs, root), socket).nodes;
  }

  // ----- the command -----

  /** The process of `o` obeys SIGTERM, sent at `asked`, when no probe sees it any more. */
  predicate EndsLate(h: Host, o: Owned, asked: nat) {
    !o.dead && h.EndsUnseen(asked)
  }

  /** A host's tree, servers and processes. */
  datatype Scene = Scene(fs: FS.Fs, servers: map<string, seq<string>>, procs: map<nat, nat>)

  function SceneOf(h: Host): Scene
    reads h
  {
    Scene(h.fs, h.servers, h.procs)
  }

  /**
   The teardown of the sandbox `o` on a quiet host: the scene it starts from and when, and
   the house that explains the tree.
   */
  datatype Job = Job(o: Owned, start: FS.Fs, house: House, asked: nat, was: Scene)

  /**
   What the teardown leaves: everything is done, or only the process is gone.
   */
  predicate TornDown(now: Scene, ok: bool, purge: bool, job: Job) {
    && now.servers == (if ok then job.was.servers - {job.o.socket} else job.was.servers)
    && (now.procs == job.was.procs || (job.o.pid >= 0 && now.procs == job.was.procs - {job.o.pid as nat}))
    && (!ok ==> job.o.pid !in now.procs)
    && now.fs == if ok then DownTree(job.was.fs, job.house.socket, job.house.root, purge) else job.was.fs
  }

  /** A tree from which the socket, the pid record and with a purge the root can go. */
  predicate Clearable(env: Env, start: FS.Fs, fs: FS.Fs, house: House, purge: bool) {
    && Foundation(start, house) && Housed(start, fs, house)
    && PidPath(house.root) !in start.nodes && PidIsFile(fs, house.root)
    && (purge ==> Purgeable(env, Without(Without(fs, house.socket), PidPath(house.root)), house.root))
  }

  /** A scene on which every step of the teardown succeeds, but for a late end. */
  predicate CanTearDown(env: Env, purge: bool, job: Job) {
    && Clearable(env, job.start, job.was.fs, job.house, purge)
    && job.o.socket in job.was.servers && Sentinel(job.o.socket) in job.was.servers[job.o.socket]
    && (!job.o.dead ==> job.o.pid in job.was.procs)
  }

  /** The host is as the job says. */
  ghost predicate Begun(h: Host, job: Job)
    reads h
  {
    && h.quiet && h.fs == job.was.fs && h.servers == job.was.servers && h.procs == job.was.procs
    && h.clock == job.asked && job.house.socket == h.SocketPath(job.o.socket)
  }

  /** The sandbox of the job is identified at its root. */
  predicate Identifiable(env: Env, purge: bool, job: Job) {
    OwnedAt(env, job.was.fs, job.was.procs, job.house.root, purge) == Some(job.o)
  }

  lemma EndedLate(now: Scene, purge: bool, job: Job)
    requires now.fs == job.was.fs && now.servers == job.was.servers && job.o.pid !in now.procs
    requires now.procs == job.was.procs || (job.o.pid >= 0 && now.procs == job.was.procs - {job.o.pid as nat})
    ensures TornDown(now, false, purge, job)
  {
  }

  lemma AllDone(now: Scene, purge: bool, job: Job)
    requires now.servers == job.was.servers - {job.o.socket}
    requires now.procs == job.was.procs || (job.o.pid >= 0 && now.procs == job.was.procs - {job.o.pid as nat})
    requires now.fs == DownTree(job.was.fs, job.house.socket, job.house.root, purge)
    ensures TornDown(now, true, purge, job)
  {
  }

  /** The process, unless it was gone when the sandbox was identified. */
  method StopOwned(h: Host, env: Env, root: AbsPath, o: Owned, ghost seen: seq<Event>) returns (ok: bool)
    requires Safe(Down(env, root), h.log) && seen <= h.log
    requires !o.dead ==> o.pid >= 0 && exists fields :: OwnedProcess(env, seen, root, o.manifest, fields, o.pid)
    modifies h
    ensures old(h.log) <= h.log && Safe(Down(env, root), h.log)
    ensures h.quiet ==> h.fs == old(h.fs) && h.servers == old(h.servers)
    ensures h.quiet && old(h.stopping).None? && (!o.dead ==> o.pid in old(h.procs)) ==>
      && ok == !EndsLate(h, o, old(h.clock))
      && (h.procs == old(h.procs) || (o.pid >= 0 && h.procs == old(h.procs) - {o.pid as nat}))
      && (!ok ==> o.pid !in h.procs)
  {
    ok := true;
    if !o.dead {
      ghost var fields :| OwnedProcess(env, seen, root, o.manifest, fields, o.pid);
      OwnedStays(env, seen, h.log, root, o.manifest, fields, o.pid);
      ok := StopProcess(h, env, root, o.pid, o.manifest, fields);
    }
  }

  /** The server with its socket and pid record, and then the root. */
  method StopAndPurge(h: Host, env: Env, root: AbsPath, o: Owned, purge: bool, ghost seen: seq<Event>,
                      ghost start: FS.Fs, ghost house: House)
    returns (ok: bool)
    requires Safe(Down(env, root), h.log) && seen <= h.log && AdmittedFor(seen, root, o.manifest, o.socket)
    requires HasSession(o.socket, Sentinel(o.socket), true) in seen
    requires house.root == root && house.socket == h.SocketPath(o.socket)
    modifies h
    ensures old(h.log) <= h.log && Safe(Down(env, root), h.log)
    ensures ok && purge ==> EndsWithRemoval(h.log, root)
    ensures h.quiet ==> h.servers == old(h.servers) - {o.socket} && h.procs == old(h.procs)
    ensures h.quiet && Clearable(env, start, old(h.fs), house, purge) ==>
      ok && h.fs == DownTree(old(h.fs), house.socket, root, purge)
  {
    StillIn(seen, h.log, Admitted(root, o.manifest));
    StillIn(seen, h.log, HasSession(o.socket, Sentinel(o.socket), true));
    ok := StopServer(h, env, root, o.manifest, o.socket, start, house);
    if ok && purge {
      ok := Purge(h, env, root);
    }
  }

  /** `has-session` for the sentinel. */
  method SentinelOwned(h: Host, env: Env, root: AbsPath, socket: string) returns (there: bool)
    requires Safe(Down(env, root), h.log)
    modifies h`fs, h`servers, h`procs, h`log
    ensures old(h.log) <= h.log && Safe(Down(env, root), h.log)
    ensures there ==> HasSession(socket, Sentinel(socket), true) in h.log
    ensures h.quiet ==> h.fs == old(h.fs) && h.servers == old(h.servers) && h.procs == old(h.procs)
    ensures h.quiet ==> there == (socket in h.servers && Sentinel(socket) in h.servers[socket])
  {
    there := h.QuerySession(socket, Sentinel(socket));
    HarmlessStep(Down(env, root), old(h.log), HasSession(socket, Sentinel(socket), there));
    assert h.log[|old(h.log)|] == HasSession(socket, Sentinel(socket), there);
  }

  /** Process, server, and the root. */
  method Dismantle(h: Host, env: Env, root: AbsPath, o: Owned, purge: bool, ghost seen: seq<Event>,
                   ghost ready: bool, ghost job: Job)
    returns (ok: bool)
    requires Safe(Down(env, root), h.log) && seen <= h.log && AdmittedFor(seen, root, o.manifest, o.socket)
    requires HasSession(o.socket, Sentinel(o.socket), true) in h.log
    requires !o.dead ==> o.pid >= 0 && exists fields :: OwnedProcess(env, seen, root, o.manifest, fields, o.pid)
    requires ready ==>
      Begun(h, job) && CanTearDown(env, purge, job) && job.o == o && job.house.root == root && h.stopping.None?
    modifies h
    ensures old(h.log) <= h.log && Safe(Down(env, root), h.log)
    ensures ok && purge ==> EndsWithRemoval(h.log, root)
    ensures ready ==> TornDown(SceneOf(h), ok, purge, job) && ok == !EndsLate(h, job.o, job.asked)
  {
    ghost var home := if ready then job.house else House(root, h.SocketPath(o.socket));
    ghost var asked := h.log;
    ok := StopOwned(h, env, root, o, seen);
    if !ok {
      if ready {
        EndedLate(SceneOf(h), purge, job);
      }
      return;
    }
    StillIn(seen, asked, Admitted(root, o.manifest));
    ok := StopAndPurge(h, env, root, o, purge, asked, job.start, home);
    if ready {
      AllDone(SceneOf(h), purge, job);
    }
  }

  /** Everything after the sandbox was identified: first the sentinel. */
  method Teardown(h: Host, env: Env, root: AbsPath, o: Owned, purge: bool, ghost ready: bool, ghost job: Job)
    returns (ok: bool)
    requires Safe(Down(env, root), h.log) && AdmittedFor(h.log, root, o.manifest, o.socket)
    requires !o.dead ==> o.pid >= 0 && exists fields :: OwnedProcess(env, h.log, root, o.manifest, fields, o.pid)
    requires ready ==>
      Begun(h, job) && CanTearDown(env, purge, job) && job.o == o && job.house.root == root && h.stopping.None?
    modifies h
    ensures old(h.log) <= h.log && Safe(Down(env, root), h.log)
    ensures ok && purge ==> EndsWithRemoval(h.log, root)
    ensures ready ==> TornDown(SceneOf(h), ok, purge, job) && ok == !EndsLate(h, job.o, job.asked)
  {
    ghost var seen := h.log;
    var there := SentinelOwned(h, env, root, o.socket);
    if !there {
      return false;
    }
    ok := Dismantle(h, env, root, o, purge, seen, ready, job);
  }

  lemma OccupiedCanTearDown(h: Host, env: Env, up: Raised, purge: bool, job: Job)
    requires Occupied(h, env, up) && job.house == HouseFor(h, up.root, up.request.instanceId)
    requires job.start == StartTree(env, up) && job.was == SceneOf(h)
    requires job.o.socket == up.manifest.tmuxSocket && job.o.pid == up.pid && job.o.dead == (up.pid !in h.procs)
    ensures CanTearDown(env, purge, job)
  {
    OccupiedIsKept(h, env, up, job.house);
    KeptWithoutPid(env, up, h.fs, job.house);
    KeptIsPurgeable(env, up, Without(Without(h.fs, job.house.socket), PidPath(up.root)), job.house);
  }

  /** `_load_owned`, on the host of a job that is identifiable. */
  method LoadJob(h: Host, env: Env, root: AbsPath, purge: bool, ghost ready: bool, ghost job: Job)
    returns (owned: Option<Owned>)
    requires Safe(Down(env, root), h.log)
    requires ready ==> Begun(h, job) && Identifiable(env, purge, job) && job.house.root == root
    modifies h`fs, h`servers, h`procs, h`log
    ensures old(h.log) <= h.log && Safe(Down(env, root), h.log)
    ensures owned.Some? ==> AdmittedFor(h.log, root, owned.value.manifest, owned.value.socket)
    ensures owned.Some? && !owned.value.dead ==>
      && owned.value.pid >= 0
      && exists fields :: OwnedProcess(env, h.log, root, owned.value.manifest, fields, owned.value.pid)
    ensures h.stopping == old(h.stopping)
    ensures ready ==> owned == Some(job.o) && Begun(h, job)
  {
    owned := LoadOwned(h, env, root, purge);
  }

  /** The command begins and locates its root. */
  method BeginAt(h: Host, env: Env, arg: PurePath, ghost ready: bool, ghost job: Job) returns (root: Option<AbsPath>)
    requires ready ==> Begun(h, job) && Given(job, Abspath(env.cwd, arg))
    modifies h`fs, h`servers, h`procs, h`stopping, h`log
    ensures h.stopping.None? && BeganAt(h.log, old(h.clock), Abspath(env.cwd, arg), root)
    ensures root.Some? ==> Safe(Down(env, root.value), h.log)
    ensures ready ==> root == Some(job.house.root) && Begun(h, job)
  {
    h.Begin();
    ghost var begun := h.log;
    root := h.Locate(Abspath(env.cwd, arg));
    if root.Some? {
      BeginIsSafe(Down(env, root.value), begun);
      HarmlessStep(Down(env, root.value), begun, Event.Located(Abspath(env.cwd, arg), root.value));
    }
  }

  /** The log of a command that began at `at` and located `root`, or did not. */
  ghost predicate BeganAt(log: seq<Event>, at: nat, given: AbsPath, root: Option<AbsPath>) {
    && |log| > 0 && log[0] == Began(at)
    && match root
       case None => |log| == 1
       case Some(p) => |log| > 1 && log[1] == Event.Located(given, p) && ResolvesTo(given, p)
  }

  /** `root` is the real path of `given` in some tree. */
  ghost predicate ResolvesTo(given: AbsPath, root: AbsPath) {
    exists now :: root == FS.Realpath(FS.LinksOf(now), given)
  }

  lemma OccupiedRoot(h: Host, env: Env, up: Raised)
    requires Occupied(h, env, up)
    ensures PlainPath(up.root)
    ensures FS.Clean(h.fs, up.root, false) && FS.Realpath(FS.LinksOf(h.fs), up.root) == up.root
  {
    OccupiedIsKept(h, env, up, HouseFor(h, up.root, up.request.instanceId));
    KeptRoot(env, up, h.fs, HouseFor(h, up.root, up.request.instanceId));
  }

  /** The job of taking down an occupied root. */
  lemma OccupiedJob(h: Host, env: Env, up: Raised, purge: bool) returns (job: Job)
    requires Occupied(h, env, up) && (purge || up.pid in h.procs)
    ensures Begun(h, job) && Identifiable(env, purge, job) && CanTearDown(env, purge, job) && Given(job, up.root)
    ensures job.o.socket == up.manifest.tmuxSocket && job.o.pid == up.pid && job.o.dead == (up.pid !in h.procs)
  {
    var o := Owned(ToDict(up.manifest), up.manifest.tmuxSocket, up.pid, up.pid !in h.procs);
    job := Job(o, StartTree(env, up), HouseFor(h, up.root, up.request.instanceId), h.clock, SceneOf(h));
    OccupiedRoot(h, env, up);
    OccupiedIsOwned(h, env, up, purge);
    OccupiedIsKept(h, env, up, job.house);
    OccupiedCanTearDown(h, env, up, purge, job);
  }

  /** The root is given by its own real path. */
  predicate Given(job: Job, given: AbsPath) {
    && FS.Clean(job.was.fs, given, false) && FS.Realpath(FS.LinksOf(job.was.fs), given) == given
    && job.house.root == given
  }

  method RunDown(h: Host, env: Env, arg: PurePath, purge: bool, ghost ready: bool, ghost job: Job)
    returns (ok: bool, ghost root: Option<AbsPath>)
    requires ready ==>
      && Begun(h, job) && Identifiable(env, purge, job) && CanTearDown(env, purge, job)
      && Given(job, Abspath(env.cwd, arg))
    modifies h
    ensures BeganAt(h.log, old(h.clock), Abspath(env.cwd, arg), root)
    ensures if root.Some? then Safe(Down(env, root.value), h.log) else !ok
    ensures ok && purge ==> EndsWithRemoval(h.log, root.value)
    ensures ready ==> root == Some(job.house.root)
    ensures ready ==> TornDown(SceneOf(h), ok, purge, job) && ok == !EndsLate(h, job.o, job.asked)
  {
    var located := BeginAt(h, env, arg, ready, job);
    root := located;
    if located.None? {
      return false, root;
    }
    var owned := LoadJob(h, env, located.value, purge, ready, job);
    if owned.None? {
      return false, root;
    }
    ok := Teardown(h, env, located.value, owned.value, purge, ready, job);
  }

  /**
   `command_down`.  Whatever else acts on the host, the command locates one root, the real
   path of the argument, and each destructive call follows the observations that justify it
   for the sandbox at that root.  On a quiet host a sandbox that is up is taken down, and a
   purge leaves no root, no server and no socket, if and only if its process does not obey
   SIGTERM in the gap between the last probe and the SIGKILL; in that gap the command raises
   with the process gone and everything else in place.
   */
  method CommandDown(h: Host, env: Env, arg: PurePath, purge: bool, ghost up: Raised)
    returns (ok: bool, ghost root: Option<AbsPath>)
    modifies h
    ensures BeganAt(h.log, old(h.clock), Abspath(env.cwd, arg), root)
    ensures if root.Some? then Safe(Down(env, root.value), h.log) else !ok
    ensures ok && purge ==> EndsWithRemoval(h.log, root.value)
    ensures old(Occupied(h, env, up)) && Abspath(env.cwd, arg) == up.root && (purge || up.pid in old(h.procs)) ==>
      && root == Some(up.root) && (ok <==> !(up.pid in old(h.procs) && h.EndsUnseen(old(h.clock))))
      && h.servers == (if ok then old(h.servers) - {up.manifest.tmuxSocket} else old(h.servers))
      && (h.procs == old(h.procs) || h.procs == old(h.procs) - {up.pid}) && (!ok ==> up.pid !in h.procs)
      && h.fs == if ok then DownTree(old(h.fs), h.SocketPath(up.manifest.tmuxSocket), up.root, purge) else old(h.fs)
  {
    ghost var job := Job(Owned(map[], "", 0, false), h.fs, House([], []), h.clock, SceneOf(h));
    ghost var ready := Occupied(h, env, up) && Abspath(env.cwd, arg) == up.root && (purge || up.pid in h.procs);
    if ready {
      job := OccupiedJob(h, env, up, purge);
    }
    ok, root := RunDown(h, env, arg, purge, ready, job);
  }

  // ----- up, a life, and down -----

  /** Between the commands the server works, time passes, and its process may end. */
  method Interlude(h: Host, m: InstanceManifest, pid: nat, survives: bool, start: FS.Fs, house: House)
    requires house.socket == h.SocketPath(m.tmuxSocket)
    modifies h`fs, h`servers, h`procs, h`clock
    ensures h.quiet ==> h.procs == if survives then old(h.procs) else old(h.procs) - {pid}
    ensures h.quiet && m.tmuxSocket in old(h.servers) && Sentinel(m.tmuxSocket) in old(h.servers)[m.tmuxSocket] ==>
      Serving(old(h.servers), h.servers, m.tmuxSocket)
    ensures old(Calm(h, start, house)) ==> Calm(h, start, house) && Worked(start, old(h.fs), h.fs, house)
  {
    Serve(h, m.tmuxSocket, start, house);
    var later: nat :| later >= h.clock;
    h.clock := later;
    if !survives {
      h.procs := h.procs - {pid};
    }
  }

  /** What the reservation made, or the tree as it was when there was none. */
  function ReservedTree(env: Env, before: FS.Fs, r: Request): FS.Fs {
    match BuildManifest(env, before, r)
    case Success(b) => b.fs
    case Failure(_) => before
  }

  /** The sandbox lives on. */
  method LiveOn(h: Host, env: Env, before: FS.Fs, r: Request, m: InstanceManifest, root: AbsPath, pid: nat,
                survives: bool)
    returns (ghost up: Raised)
    requires m.tmuxSocket == "cao-sbx-" + r.instanceId
    modifies h`fs, h`servers, h`procs, h`clock
    ensures up.root == root && up.manifest == m && up.pid == pid && up.before == before && up.request == r
    ensures old(Standing(h, env, before, r, m, root, pid)) ==>
      && Occupied(h, env, up)
      && Serving(old(h.servers), h.servers, m.tmuxSocket)
      && h.procs == if survives then old(h.procs) else old(h.procs) - {pid}
  {
    var start, house := ReservedTree(env, before, r), HouseFor(h, root, r.instanceId);
    ghost var was, standing := h.fs, Standing(h, env, before, r, m, root, pid);
    up := Raised(before, r, m, root, pid, if pid in h.procs then h.procs[pid] else 0);
    if standing {
      OccupiedIsKept(h, env, up, house);
    }
    Interlude(h, m, pid, survives, start, house);
    if standing {
      WorkedKeepsMarks(start, was, h.fs, house, m);
    }
  }

  /** A purge of exactly this root, whose removal is its last call when it succeeds. */
  ghost predicate PurgedAt(env: Env, log: seq<Event>, root: AbsPath, ok: bool) {
    && |log| > 1 && log[1] == Event.Located(root, root) && Safe(Down(env, root), log)
    && (ok ==> EndsWithRemoval(log, root))
  }

  /** Purges an occupied sandbox, whose process may have ended. */
  method PurgeOccupied(h: Host, env: Env, root: AbsPath, ghost up: Raised) returns (ok: bool)
    requires root == up.root
    modifies h
    ensures |h.log| > 0 && h.log[0] == Began(old(h.clock))
    ensures old(Occupied(h, env, up)) ==> PurgedAt(env, h.log, root, ok)
    ensures old(Occupied(h, env, up)) ==>
      && (ok <==> !(up.pid in old(h.procs) && h.EndsUnseen(old(h.clock))))
      && h.servers == (if ok then old(h.servers) - {up.manifest.tmuxSocket} else old(h.servers))
      && (h.procs == old(h.procs) || h.procs == old(h.procs) - {up.pid}) && (!ok ==> up.pid !in h.procs)
      && h.fs == if ok then Without(up.before, h.SocketPath(up.manifest.tmuxSocket)) else old(h.fs)
  {
    if Occupied(h, env, up) {
      OccupiedRoot(h, env, up);
      AbspathOfAbsolute(env.cwd, root);
      PurgedTree(h, env, up);
    }
    ghost var at;
    ok, at := CommandDown(h, env, Absolute(root), true, up);
  }

  /** The host after a purge: as before the reservation, or with everything but the process. */
  predicate Purged(h: Host, r: Request, root: AbsPath, pid: nat, before: FS.Fs,
                   servers: map<string, seq<string>>, procs: map<nat, nat>, ok: bool)
    reads h
  {
    var socket := "cao-sbx-" + r.instanceId;
    if ok then
      && h.servers == servers && h.fs == Without(before, h.SocketPath(socket))
      && (h.procs == procs || AddsChild(procs, h.procs, Some(pid)))
    else
      Serving(servers, h.servers, socket) && h.procs == procs && ManifestPath(root) in h.fs.nodes
  }

  /** The life of what a healthy `up` left, which found these servers and processes, and its purge. */
  method LiveThenPurge(h: Host, env: Env, before: FS.Fs, r: Request, m: InstanceManifest, root: AbsPath, pid: nat,
                       survives: bool, ghost servers: map<string, seq<string>>, ghost procs: map<nat, nat>)
    returns (ok: bool)
    requires m.tmuxSocket == "cao-sbx-" + r.instanceId
    modifies h
    ensures |h.log| > 0 && h.log[0].Began?
    ensures old(Settled(h, env, before, r, Healthy(m, root, pid), servers, procs, false)) ==>
      && PurgedAt(env, h.log, root, ok) && (ok <==> !(survives && h.EndsUnseen(h.log[0].at)))
      && Purged(h, r, root, pid, before, servers, procs, ok)
  {
    ghost var settled := Settled(h, env, before, r, Healthy(m, root, pid), servers, procs, false);
    ghost var child, served := h.procs, h.servers;
    ghost var up := LiveOn(h, env, before, r, m, root, pid, survives);
    ghost var lived := SceneOf(h);
    ok := PurgeOccupied(h, env, root, up);
    if settled {
      LifeUndone(served, lived.servers, servers, m.tmuxSocket);
      ChildUndone(child, procs, pid);
    }
  }

  /** What the server served, before the purge and after it. */
  lemma LifeUndone(served: map<string, seq<string>>, lived: map<string, seq<string>>,
                   servers: map<string, seq<string>>, socket: string)
    requires socket !in servers && Serving(servers, served, socket) && Serving(served, lived, socket)
    ensures Serving(servers, lived, socket) && lived - {socket} == servers
  {
  }

  lemma ChildUndone(child: map<nat, nat>, procs: map<nat, nat>, pid: nat)
    requires AddsChild(procs, child, Some(pid))
    ensures child - {pid} == procs && (child - {pid}) - {pid} == procs
  {
  }

  /**
   `up`, a life, and then `down --purge`, with nothing but the sandbox acting.  The `up`
   succeeds and leaks as `CommandUp` says.  Once the sandbox is healthy, its server may work
   in its root, and with `survives` false its process ends by itself.  The purge succeeds if
   and only if the process does not end unseen, counted from the time at which the purge
   began.  Then every fence passed, and the tree, the tmux servers and the other processes
   are as they were before the reservation.  Otherwise the tmux server still runs, and the
   root is there, without its process.
   */
  method UpThenPurge(h: Host, env: Env, r: Request, diskLow: bool, healthy: bool, survives: bool)
    returns (outcome: UpOutcome, ok: bool)
    modifies h
    ensures |h.log| > 0 && h.log[0].Began?
    ensures h.quiet && Setting(env, WithParent(env, old(h.fs), r), h, r) ==>
      && (outcome.Healthy? <==>
            healthy && h.listing && ReachesClaim(env, old(h.fs), old(h.servers), r, diskLow))
      && if outcome.Healthy? then
           && BuildManifest(env, WithParent(env, old(h.fs), r), r).Success?
           && outcome.root == BuildManifest(env, WithParent(env, old(h.fs), r), r).value.root
           && PurgedAt(env, h.log, outcome.root, ok) && (ok <==> !(survives && h.EndsUnseen(h.log[0].at)))
           && Purged(h, r, outcome.root, outcome.pid, WithParent(env, old(h.fs), r), old(h.servers), old(h.procs), ok)
         else
           Settled(h, env, WithParent(env, old(h.fs), r), r, outcome, old(h.servers), old(h.procs),
                   !h.listing && ReachesClaim(env, old(h.fs), old(h.servers), r, diskLow))
  {
    var before := WithParent(env, h.fs, r);
    ok := false;
    outcome := CommandUp(h, env, r, diskLow, healthy);
    if outcome.Healthy? {
      ok := LiveThenPurge(h, env, before, r, outcome.manifest, outcome.root, outcome.pid, survives,
        old(h.servers), old(h.procs));
    }
  }

  // ----- the gap is always there -----

  /** However long the sleeps take, some grace ends unseen. */
  lemma SomeGraceEndsUnseen(h: Host, begin: nat)
    requires h.grace == Some(h.WakeAt(h.LastProbe(begin, begin + SETTLE)) - begin)
    ensures h.EndsUnseen(begin)
  {
  }

  /** Every sleep of a tenth of a second takes exactly that. */
  ghost predicate SleepsExactly(h: Host) {
    forall t: nat :: h.wake(t) == t + 100
  }

  lemma {:induction false} TenthsOfASecond(h: Host, t: nat, deadline: nat)
    requires SleepsExactly(h)
    requires t < deadline && (deadline - t) % 100 == 0
    ensures h.LastProbe(t, deadline) == deadline - 100
    decreases deadline - t
  {
    if t + 100 < deadline {
      TenthsOfASecond(h, t + 100, deadline);
    }
  }

  lemma LateGraceEndsUnseen(h: Host, begin: nat)
    requires SleepsExactly(h) && h.grace == Some(14_950)
    ensures h.EndsUnseen(begin)
  {
    TenthsOfASecond(h, begin, begin + SETTLE);
  }

  /**
   A concrete failing run: sleeps take a tenth of a second each, and the process takes 14.95
   seconds to obey SIGTERM.  The purge of the sandbox raises and leaves its root in place.
   */
  method PurgeOfLateExit(h: Host, env: Env, root: AbsPath, ghost up: Raised) returns (ok: bool)
    requires Occupied(h, env, up) && up.pid in h.procs && root == up.root
    requires SleepsExactly(h) && h.grace == Some(14_950)
    modifies h
    ensures !ok && up.pid !in h.procs && h.fs == old(h.fs) && h.servers == old(h.servers)
  {
    LateGraceEndsUnseen(h, h.clock);
    OccupiedRoot(h, env, up);
    AbspathOfAbsolute(env.cwd, root);
    ghost var at;
    ok, at := CommandDown(h, env, Absolute(root), true, up);
  }
}
