/**
 What a sandbox command may do to the host: for every call that destroys something, the
 observations of the same run that must come before it.
 */
module SandboxTrace {
  import opened Wrappers
  import opened TomlDocument
  import opened Manifest
  import opened Paths
  import FS = FileSystem
  import opened Validation
  import opened HostMachine
  import opened SandboxHouse

  function Sentinel(socket: string): string {
    socket + "-owner"
  }

  function ManifestPath(root: AbsPath): AbsPath { root + LEAF_PARTS[0] }

  function OwnerPath(root: AbsPath): AbsPath { root + LEAF_PARTS[1] }

  function PidPath(root: AbsPath): AbsPath { root + LEAF_PARTS[2] }

  function DbPath(root: AbsPath): AbsPath { root + LEAF_PARTS[3] }

  function OwnerLock(m: InstanceManifest): FS.Content {
    FS.Record(map[
      "owner_nonce" := FS.Word(m.ownerNonce),
      "root_device" := FS.Number(m.rootDevice),
      "root_inode" := FS.Number(m.rootInode)])
  }

  function Stamp(m: InstanceManifest): FS.Content {
    FS.Record(map["instance_id" := FS.Word(m.instanceId), "owner_nonce" := FS.Word(m.ownerNonce)])
  }

  function PidRecord(pid: nat, start: nat, nonce: string): FS.Content {
    FS.Record(map[
      "pid" := FS.Number(pid), "start_time" := FS.Number(start), "owner_nonce" := FS.Word(nonce)])
  }

  // ----- reading records back -----

  type Fields = map<string, FS.Field>

  function FieldOf(fields: Fields, key: string): Option<FS.Field> {
    if key in fields then Some(fields[key]) else None
  }

  /** `int(fields.get(key, default))`. */
  function IntField(env: Env, fields: Fields, key: string, default: int): Option<int> {
    match FieldOf(fields, key)
    case None => Some(default)
    case Some(Number(n)) => Some(n)
    case Some(Word(w)) => env.parseInt(w)
  }

  /** Python's `==` between a record's field and a manifest's value. */
  predicate SameValue(field: Option<FS.Field>, v: Value) {
    match (field, v)
    case (Some(Word(w)), Str(text)) => w == text
    case (Some(Number(n)), Int(k)) => n == k
    case (Some(Number(n)), Bool(b)) => n == if b then 1 else 0
    case _ => false
  }

  predicate SameNonce(fields: Fields, d: Dict) {
    "owner_nonce" in d && SameValue(FieldOf(fields, "owner_nonce"), d["owner_nonce"])
  }

  // ----- which calls are allowed when -----

  datatype Command = Up | Down(env: Env, root: AbsPath)

  /** What `command_up` must have seen before it may make the call `e`. */
  predicate UpJustified(before: seq<Event>, e: Event) {
    match e
    case RemovedTree(p) => Mkdir(p, true) in before
    case KilledServer(s) => ListedSessions(s, Some([Sentinel(s)])) in before
    case KilledSession(s, n) => n == Sentinel(s) && NewSession(s, n, true) in before
    case UnlinkedSocket(s) => |before| > 0 && before[|before| - 1] == ProbedServer(s, false)
    case Signalled(pid) => Spawned(pid) in before
    case Removed(_) => false
    case _ => true
  }

  /** An accepted manifest of the instance that owns the socket `s`. */
  predicate AdmittedFor(before: seq<Event>, root: AbsPath, d: Dict, s: string) {
    && Admitted(root, d) in before
    && "instance_id" in d && d["instance_id"].Str? && s == "cao-sbx-" + d["instance_id"].text
  }

  /** The pid record at the root carries the manifest's nonce, and `pid` runs since its start time. */
  ghost predicate OwnedProcess(env: Env, before: seq<Event>, root: AbsPath, d: Dict, fields: Fields, pid: nat) {
    && Admitted(root, d) in before && SameNonce(fields, d)
    && Read(PidPath(root), Some(FS.Record(fields))) in before
    && IntField(env, fields, "pid", 0) == Some(pid as int)
    && exists start: nat :: SawStart(pid, Some(start)) in before
         && IntField(env, fields, "start_time", -1) == Some(start as int)
  }

  /** The root's owner lock names the manifest's nonce and the directory that was just identified. */
  predicate OwnedRoot(before: seq<Event>, root: AbsPath, d: Dict, fields: Fields, device: nat, inode: nat) {
    && |before| > 0 && before[|before| - 1] == Identified(root, Some(FS.Dir(device, inode)))
    && Admitted(root, d) in before && SameNonce(fields, d)
    && Read(OwnerPath(root), Some(FS.Record(fields))) in before
    && FieldOf(fields, "root_device") == Some(FS.Number(device))
    && FieldOf(fields, "root_inode") == Some(FS.Number(inode))
  }

  /** What `command_down` on `root` must have seen before it may make the call `e`. */
  ghost predicate DownJustified(env: Env, root: AbsPath, before: seq<Event>, e: Event) {
    match e
    case Signalled(pid) => exists d, fields :: OwnedProcess(env, before, root, d, fields, pid)
    case KilledServer(s) =>
      HasSession(s, Sentinel(s), true) in before && exists d :: AdmittedFor(before, root, d, s)
    case UnlinkedSocket(s) => |before| > 0 && before[|before| - 1] == ProbedServer(s, false)
    case Removed(p) =>
      p == PidPath(root) && exists d, s :: AdmittedFor(before, root, d, s) && ProbedServer(s, false) in before
    case RemovedTree(p) =>
      p == root && exists d, fields, device, inode :: OwnedRoot(before, root, d, fields, device, inode)
    case Mkdir(_, _) => false
    case Wrote(_, _, _) => false
    case NewSession(_, _, _) => false
    case KilledSession(_, _) => false
    case Spawned(_) => false
    case _ => true
  }

  ghost predicate Justified(c: Command, before: seq<Event>, e: Event) {
    match c
    case Up => UpJustified(before, e)
    case Down(env, root) => DownJustified(env, root, before, e)
  }

  /** Every call of a run was justified by what the run had seen by then. */
  ghost predicate Safe(c: Command, log: seq<Event>) {
    forall i :: 0 <= i < |log| ==> Justified(c, log[..i], log[i])
  }

  // ----- what a log tells about making and unmaking -----

  /** The calls that make something or undo it, and what they were decided by. */
  predicate Telling(e: Event) {
    match e
    case Mkdir(_, ok) => ok
    case NewSession(_, _, ok) => ok
    case ListedSessions(_, _) => true
    case KilledSession(_, _) => true
    case KilledServer(_) => true
    case Spawned(_) => true
    case Polled(_, _) => true
    case Signalled(_) => true
    case RemovedTree(_) => true
    case _ => false
  }

  function Told(e: Event): seq<Event> {
    if Telling(e) then [e] else []
  }

  /** The telling events of a log, in order. */
  function Trail(log: seq<Event>): seq<Event> {
    if |log| == 0 then [] else Trail(log[..|log| - 1]) + Told(log[|log| - 1])
  }

  lemma {:induction false} TrailMembers(log: seq<Event>, e: Event)
    ensures e in Trail(log) <==> e in log && Telling(e)
  {
    if |log| > 0 {
      TrailMembers(log[..|log| - 1], e);
      assert log == log[..|log| - 1] + [log[|log| - 1]];
    }
  }

  lemma SafeAppend(c: Command, log: seq<Event>, e: Event)
    requires Safe(c, log) && Justified(c, log, e)
    ensures Safe(c, log + [e]) && Trail(log + [e]) == Trail(log) + Told(e)
  {
    var all := log + [e];
    assert all[..|log|] == log;
    forall i | 0 <= i < |all|
      ensures Justified(c, all[..i], all[i])
    {
      if i < |log| {
        assert all[..i] == log[..i];
      } else {
        assert all[..i] == log;
      }
    }
  }

  /** A call that only looks, or that `command_up` alone makes and may always make. */
  predicate Harmless(c: Command, e: Event) {
    || e.Began? || e.Located? || e.Read? || e.Identified? || e.Admitted?
    || e.ProbedServer? || e.ListedSessions? || e.HasSession? || e.SawStart? || e.Polled?
    || (c.Up? && (e.Mkdir? || e.Wrote? || e.NewSession? || e.Spawned?))
  }

  lemma HarmlessStep(c: Command, log: seq<Event>, e: Event)
    requires Safe(c, log) && Harmless(c, e)
    ensures Safe(c, log + [e]) && Trail(log + [e]) == Trail(log) + Told(e)
  {
    SafeAppend(c, log, e);
  }

  lemma StillIn(a: seq<Event>, b: seq<Event>, e: Event)
    requires a <= b && e in a
    ensures e in b
  {
  }

  // ----- the tmux socket -----

  /** A quiet host whose tree is the reserved one plus what this run added. */
  ghost predicate Calm(h: Host, start: FS.Fs, house: House)
    reads h
  {
    h.quiet && Foundation(start, house) && Housed(start, h.fs, house)
  }

  /** The two trees agree everywhere but at one path. */
  ghost predicate KeepsOthers(a: FS.Fs, b: FS.Fs, except: AbsPath) {
    forall p :: p != except ==> (p in a.nodes <==> p in b.nodes) && (p in a.nodes ==> b.nodes[p] == a.nodes[p])
  }

  lemma KeepsOthersChain(a: FS.Fs, b: FS.Fs, c: FS.Fs, except: AbsPath)
    requires KeepsOthers(a, b, except) && KeepsOthers(b, c, except)
    ensures KeepsOthers(a, c, except)
  {
  }

  lemma WithoutAbsent(fs: FS.Fs, p: AbsPath)
    requires p !in fs.nodes
    ensures Without(fs, p) == fs
  {
    assert Without(fs, p).nodes == fs.nodes;
  }

  /** `b` is `a` and what a safe run did since, which tells `told`. */
  ghost predicate Adds(c: Command, a: seq<Event>, b: seq<Event>, told: seq<Event>) {
    a <= b && Safe(c, b) && Trail(b) == Trail(a) + told
  }

  lemma AddsStep(c: Command, a: seq<Event>, b: seq<Event>, told: seq<Event>, e: Event)
    requires Adds(c, a, b, told) && Justified(c, b, e)
    ensures Adds(c, a, b + [e], told + Told(e))
  {
    SafeAppend(c, b, e);
    Regroup(Trail(a), told, Told(e));
  }

  lemma Regroup(a: seq<Event>, b: seq<Event>, c: seq<Event>)
    ensures (a + b) + c == a + (b + c)
  {
  }

  lemma AddsChain(c: Command, x: seq<Event>, y: seq<Event>, z: seq<Event>, one: seq<Event>, two: seq<Event>)
    requires Adds(c, x, y, one) && Adds(c, y, z, two)
    ensures Adds(c, x, z, one + two)
  {
    Regroup(Trail(x), one, two);
  }

  lemma AddsNothing(c: Command, a: seq<Event>, b: seq<Event>)
    ensures Adds(c, a, b, []) <==> Unheard(c, a, b)
  {
    assert Trail(a) + [] == Trail(a);
  }

  lemma ToldIsLogged(c: Command, a: seq<Event>, b: seq<Event>, told: seq<Event>, e: Event)
    requires Adds(c, a, b, told) && e in told
    ensures e in b
  {
    TrailMembers(b, e);
  }

  /** A telling call that rests on an event the run has told. */
  lemma ToldStep(c: Command, a: seq<Event>, b: seq<Event>, told: seq<Event>, seen: Event, e: Event)
    requires Adds(c, a, b, told) && seen in told && Telling(e) && (seen in b ==> Justified(c, b, e))
    ensures Adds(c, a, b + [e], told + [e])
  {
    ToldIsLogged(c, a, b, told, seen);
    AddsStep(c, a, b, told, e);
  }

  lemma QuietlyMore(c: Command, x: seq<Event>, y: seq<Event>, z: seq<Event>, one: seq<Event>)
    requires Adds(c, x, y, one) && Unheard(c, y, z)
    ensures Adds(c, x, z, one)
  {
  }

  lemma QuietlyBefore(c: Command, x: seq<Event>, y: seq<Event>, z: seq<Event>, one: seq<Event>)
    requires Unheard(c, x, y) && Adds(c, y, z, one)
    ensures Adds(c, x, z, one)
  {
  }

  /** `b` is `a` and what a safe run saw since, without making or undoing anything. */
  ghost predicate Unheard(c: Command, a: seq<Event>, b: seq<Event>) {
    a <= b && Safe(c, b) && Trail(b) == Trail(a)
  }

  lemma UnheardStep(c: Command, a: seq<Event>, b: seq<Event>, e: Event)
    requires Unheard(c, a, b) && Harmless(c, e) && !Telling(e)
    ensures Unheard(c, a, b + [e])
  {
    HarmlessStep(c, b, e);
  }

  method ProbeOnce(h: Host, ghost c: Command, socket: string, ghost from: seq<Event>) returns (alive: bool)
    requires Unheard(c, from, h.log)
    modifies h`fs, h`servers, h`procs, h`log
    ensures Unheard(c, from, h.log) && |h.log| > 0 && h.log[|h.log| - 1] == ProbedServer(socket, alive)
    ensures h.quiet ==> h.fs == old(h.fs) && h.servers == old(h.servers) && h.procs == old(h.procs)
    ensures h.quiet ==> alive == (socket in h.servers)
  {
    alive := h.ProbeServer(socket);
    UnheardStep(c, from, old(h.log), ProbedServer(socket, alive));
  }

  /** Probes the server until it is dead, for up to `settle`. */
  method AwaitDead(h: Host, ghost c: Command, socket: string, settle: nat) returns (dead: bool)
    requires Safe(c, h.log)
    modifies h`fs, h`servers, h`procs, h`clock, h`log
    ensures Unheard(c, old(h.log), h.log)
    ensures dead ==> |h.log| > 0 && h.log[|h.log| - 1] == ProbedServer(socket, false)
    ensures h.quiet ==> h.servers == old(h.servers) && h.fs == old(h.fs)
    ensures h.quiet && socket !in old(h.servers) ==> dead && h.procs == old(h.procs)
  {
    var deadline := h.clock + settle;
    var alive := ProbeOnce(h, c, socket, old(h.log));
    while alive && h.clock < deadline
      invariant Unheard(c, old(h.log), h.log)
      invariant |h.log| > 0 && h.log[|h.log| - 1] == ProbedServer(socket, alive)
      invariant h.quiet ==> h.servers == old(h.servers) && h.fs == old(h.fs)
      invariant h.quiet && socket !in old(h.servers) ==> !alive && h.procs == old(h.procs)
      decreases deadline - h.clock
    {
      alive := SleepAndProbe(h, c, socket, old(h.log));
    }
    dead := !alive;
  }

  method SleepAndProbe(h: Host, ghost c: Command, socket: string, ghost from: seq<Event>) returns (alive: bool)
    requires Unheard(c, from, h.log)
    modifies h`fs, h`servers, h`procs, h`clock, h`log
    ensures Unheard(c, from, h.log) && |h.log| > 0 && h.log[|h.log| - 1] == ProbedServer(socket, alive)
    ensures h.clock > old(h.clock)
    ensures h.quiet ==> h.fs == old(h.fs) && h.servers == old(h.servers) && alive == (socket in h.servers)
  {
    h.Sleep();
    alive := ProbeOnce(h, c, socket, from);
  }

  /** `lstat` and `unlink` of the socket of a server just seen dead. */
  method UnlinkIdle(h: Host, ghost c: Command, socket: string, ghost start: FS.Fs, ghost house: House)
    returns (ok: bool)
    requires Safe(c, h.log) && house.socket == h.SocketPath(socket)
    requires |h.log| > 0 && h.log[|h.log| - 1] == ProbedServer(socket, false)
    modifies h`fs, h`servers, h`procs, h`log
    ensures old(h.log) <= h.log && Safe(c, h.log) && Trail(h.log) == Trail(old(h.log))
    ensures h.quiet ==> h.servers == old(h.servers) && h.procs == old(h.procs)
    ensures old(Calm(h, start, house)) ==> ok && h.fs == Without(old(h.fs), house.socket) && Calm(h, start, house)
  {
    var path := h.SocketPath(socket);
    var fault := h.Interfere();
    if fault {
      return false;
    }
    if path !in h.fs.nodes {
      WithoutAbsent(h.fs, path);
      return true;
    }
    if !h.fs.nodes[path].Socket? {
      return false;
    }
    ok := h.UnlinkSocket(socket);
    SafeAppend(c, old(h.log), UnlinkedSocket(socket));
    if old(Calm(h, start, house)) {
      HousedWithout(start, old(h.fs), house, house.socket);
    }
  }

  lemma WithoutKeepsOthers(fs: FS.Fs, p: AbsPath)
    ensures KeepsOthers(fs, Without(fs, p), p) && KeepsOthers(fs, fs, p)
  {
  }

  /**
   `_unlink_dead_tmux_socket`: waits up to `settle` for the server to be dead, then removes
   the socket it left.  A false result stands for the exceptions it raises.
   */
  method UnlinkDeadSocket(h: Host, ghost c: Command, socket: string, settle: nat,
                          ghost start: FS.Fs, ghost house: House)
    returns (ok: bool)
    requires Safe(c, h.log) && house.socket == h.SocketPath(socket)
    modifies h
    ensures old(h.log) <= h.log && Safe(c, h.log) && Trail(h.log) == Trail(old(h.log))
    ensures h.quiet ==> h.servers == old(h.servers)
    ensures h.quiet && socket !in old(h.servers) ==> h.procs == old(h.procs)
    ensures old(Calm(h, start, house)) ==> Calm(h, start, house)
    ensures ok ==> ProbedServer(socket, false) in h.log
    ensures old(Calm(h, start, house)) && socket !in h.servers ==> ok && h.fs == Without(old(h.fs), house.socket)
    ensures old(Calm(h, start, house)) ==> KeepsOthers(old(h.fs), h.fs, house.socket)
  {
    ok := AwaitDead(h, c, socket, settle);
    WithoutKeepsOthers(old(h.fs), house.socket);
    if ok {
      ghost var probed := h.log;
      assert ProbedServer(socket, false) in probed;
      ok := UnlinkIdle(h, c, socket, start, house);
    }
  }
}
