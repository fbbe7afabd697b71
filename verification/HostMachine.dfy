/**
 The machine the sandbox commands run on: one file tree, the tmux servers by socket
 name, and the processes by pid with their start times.  Every call a command makes is
 recorded.  On a quiet host nothing else acts and no call fails for outside reasons: the
 only process that ends is the one the command stops, as long after SIGTERM as the host
 says.  On any other host another actor may change everything before a call, and any call
 may fail.
 */
module HostMachine {
  import opened Wrappers
  import opened Paths
  import FS = FileSystem
  import opened TomlDocument
  import opened Validation
  import opened Reservation

  datatype Event =
    | Began(at: nat)
    | Located(given: AbsPath, root: AbsPath)
    | Mkdir(path: AbsPath, ok: bool)
    | Wrote(path: AbsPath, content: FS.Content, ok: bool)
    | Read(path: AbsPath, found: Option<FS.Content>)
    | Identified(path: AbsPath, node: Option<FS.Node>)
    | Admitted(path: AbsPath, manifest: Dict)
    | Removed(path: AbsPath)
    | RemovedTree(path: AbsPath)
    | ProbedServer(socket: string, alive: bool)
    | ListedSessions(socket: string, sessions: Option<seq<string>>)
    | HasSession(socket: string, name: string, there: bool)
    | NewSession(socket: string, name: string, ok: bool)
    | KilledSession(socket: string, name: string)
    | KilledServer(socket: string)
    | UnlinkedSocket(socket: string)
    | Spawned(pid: nat)
    | SawStart(pid: nat, start: Option<nat>)
    | Polled(pid: nat, running: bool)
    | Signalled(pid: nat)

  /** `mkdir -p`: the tree with `p` and its missing ancestors, unless something is in the way. */
  function EnsureDir(fs: FS.Fs, p: AbsPath): Option<FS.Fs>
    decreases |p|
  {
    if p in fs.nodes then (if fs.nodes[p].Dir? then Some(fs) else None)
    else if p == [] then None
    else
      match EnsureDir(fs, Parent(p))
      case None => None
      case Some(made) => if CanCreate(made, p) then Some(WithDir(made, p, 0, 0)) else None
  }

  function WithFile(fs: FS.Fs, p: AbsPath, content: FS.Content): FS.Fs {
    fs.(nodes := fs.nodes[p := FS.File(0, 1, false, content)])
  }

  function Without(fs: FS.Fs, p: AbsPath): FS.Fs {
    FS.Fs(map q | q in fs.nodes && q != p :: fs.nodes[q])
  }

  function WithoutTree(fs: FS.Fs, p: AbsPath): FS.Fs {
    FS.Fs(map q | q in fs.nodes && !(p <= q) :: fs.nodes[q])
  }

  function ContentAt(fs: FS.Fs, p: AbsPath): Option<FS.Content> {
    if p in fs.nodes && fs.nodes[p].File? then Some(fs.nodes[p].content) else None
  }

  function DropName(names: seq<string>, name: string): seq<string> {
    if |names| == 0 then []
    else (if names[0] == name then [] else [names[0]]) + DropName(names[1..], name)
  }

  lemma DropOnly(names: seq<string>, name: string)
    requires names == [name]
    ensures DropName(names, name) == []
  {
    assert names[1..] == [];
  }

  /** Fifteen seconds, in the milliseconds of the clock. */
  const SETTLE: nat := 15_000

  class Host {
    const quiet: bool
    /** Whether tmux answers a request for the session names of a server that runs. */
    const listing: bool
    const socketDir: AbsPath
    /** How long a process lives after SIGTERM; without a value it lives until it is killed. */
    const grace: Option<nat>
    /** When a sleep that begins at some time is over. */
    const wake: nat -> nat
    var fs: FS.Fs
    var servers: map<string, seq<string>>
    var procs: map<nat, nat>
    var clock: nat
    /** The process the running command asked to stop, and when that process ends. */
    var stopping: Option<(nat, nat)>
    ghost var log: seq<Event>

    constructor (quiet: bool, listing: bool, socketDir: AbsPath, fs: FS.Fs, grace: Option<nat>, wake: nat -> nat)
      ensures this.quiet == quiet && this.listing == listing && this.socketDir == socketDir && this.fs == fs
      ensures this.grace == grace && this.wake == wake
      ensures servers == map[] && procs == map[] && log == []
    {
      this.quiet, this.listing, this.socketDir, this.fs := quiet, listing, socketDir, fs;
      this.grace, this.wake := grace, wake;
      servers, procs, clock, stopping, log := map[], map[], 0, None, [];
    }

    /** A command begins: it has seen nothing and asked no process to stop. */
    method Begin()
      modifies this`log, this`stopping
      ensures log == [Began(clock)] && stopping == None
    {
      log, stopping := [Began(clock)], None;
    }

    /** `_assert_clean_components(given)` and `_canonical(given)`. */
    method Locate(given: AbsPath) returns (root: Option<AbsPath>)
      modifies this`fs, this`servers, this`procs, this`log
      ensures log == if root.Some? then old(log) + [Located(given, root.value)] else old(log)
      ensures root.Some? ==> exists now :: root.value == FS.Realpath(FS.LinksOf(now), given)
      ensures quiet ==> fs == old(fs) && servers == old(servers) && procs == old(procs)
      ensures quiet ==>
        root == if FS.Clean(fs, given, false) then Some(FS.Realpath(FS.LinksOf(fs), given)) else None
    {
      var fault := Interfere();
      if fault || !FS.Clean(fs, given, false) {
        return None;
      }
      var _ := Interfere();
      root := Some(FS.Realpath(FS.LinksOf(fs), given));
      log := log + [Located(given, root.value)];
    }

    function SocketPath(socket: string): AbsPath {
      socketDir + [socket]
    }

    /** Another actor's turn, and whether the next call fails. */
    method Interfere() returns (fault: bool)
      modifies this`fs, this`servers, this`procs
      ensures quiet ==> !fault && fs == old(fs) && servers == old(servers) && procs == old(procs)
    {
      fault := false;
      if !quiet {
        fault := *;
        fs := *;
        servers := *;
        procs := *;
      }
    }

    method MakeDir(p: AbsPath, device: nat, inode: nat) returns (ok: bool)
      modifies this`fs, this`servers, this`procs, this`log
      ensures log == old(log) + [Mkdir(p, ok)]
      ensures quiet ==> servers == old(servers) && procs == old(procs)
      ensures quiet ==> ok == CanCreate(old(fs), p)
                        && fs == if ok then WithDir(old(fs), p, device, inode) else old(fs)
    {
      var fault := Interfere();
      ok := !fault && CanCreate(fs, p);
      if ok {
        fs := WithDir(fs, p, device, inode);
      }
      log := log + [Mkdir(p, ok)];
    }

    /** `mkdir(parents=True, exist_ok=True)`. */
    method MakeDirs(p: AbsPath) returns (ok: bool)
      modifies this`fs, this`servers, this`procs
      ensures quiet ==> servers == old(servers) && procs == old(procs)
      ensures quiet ==> ok == EnsureDir(old(fs), p).Some?
                        && fs == if ok then EnsureDir(old(fs), p).value else old(fs)
    {
      var fault := Interfere();
      var made := EnsureDir(fs, p);
      ok := !fault && made.Some?;
      if ok {
        fs := made.value;
      }
    }

    /** `_write_once`: exclusive creation; a failed write leaves no file. */
    method WriteOnce(p: AbsPath, content: FS.Content) returns (ok: bool)
      modifies this`fs, this`servers, this`procs, this`log
      ensures log == old(log) + [Wrote(p, content, ok)]
      ensures quiet ==> servers == old(servers) && procs == old(procs)
      ensures quiet ==> ok == CanCreate(old(fs), p)
                        && fs == if ok then WithFile(old(fs), p, content) else old(fs)
    {
      var fault := Interfere();
      ok := !fault && CanCreate(fs, p);
      if ok {
        fs := WithFile(fs, p, content);
      }
      log := log + [Wrote(p, content, ok)];
    }

    method ReadFile(p: AbsPath) returns (content: Option<FS.Content>)
      modifies this`fs, this`servers, this`procs, this`log
      ensures log == old(log) + [Read(p, content)]
      ensures quiet ==> fs == old(fs) && servers == old(servers) && procs == old(procs)
      ensures quiet ==> content == ContentAt(fs, p)
    {
      var fault := Interfere();
      content := if fault then None else ContentAt(fs, p);
      log := log + [Read(p, content)];
    }

    /** `validate_manifest` of a dictionary at the manifest path below `root`. */
    method Validate(env: Env, d: Dict, root: AbsPath) returns (ok: bool)
      modifies this`fs, this`servers, this`procs, this`log
      ensures log == if ok then old(log) + [Admitted(root, d)] else old(log)
      ensures ok ==> exists now :: ValidateManifest(env, now, d, Absolute(root + [MANIFEST_NAME])).Success?
      ensures quiet ==> fs == old(fs) && servers == old(servers) && procs == old(procs)
      ensures quiet ==> ok == ValidateManifest(env, fs, d, Absolute(root + [MANIFEST_NAME])).Success?
    {
      var fault := Interfere();
      ok := !fault && ValidateManifest(env, fs, d, Absolute(root + [MANIFEST_NAME])).Success?;
      if ok {
        log := log + [Admitted(root, d)];
      }
    }

    /** `path.stat()` of a directory. */
    method Identify(p: AbsPath) returns (node: Option<FS.Node>)
      modifies this`fs, this`servers, this`procs, this`log
      ensures log == old(log) + [Identified(p, node)]
      ensures quiet ==> fs == old(fs) && servers == old(servers) && procs == old(procs)
      ensures quiet ==> node == if FS.Stat(fs, p).Entry? then Some(FS.Stat(fs, p).node) else None
    {
      var fault := Interfere();
      node := if !fault && FS.Stat(fs, p).Entry? then Some(FS.Stat(fs, p).node) else None;
      log := log + [Identified(p, node)];
    }

    /** `unlink(missing_ok=True)`. */
    method Remove(p: AbsPath) returns (ok: bool)
      modifies this`fs, this`servers, this`procs, this`log
      ensures log == old(log) + [Removed(p)]
      ensures quiet ==> servers == old(servers) && procs == old(procs)
      ensures quiet ==> ok == !(p in old(fs).nodes && old(fs).nodes[p].Dir?)
                        && fs == if ok then Without(old(fs), p) else old(fs)
    {
      var fault := Interfere();
      ok := !fault && !(p in fs.nodes && fs.nodes[p].Dir?);
      if ok {
        fs := Without(fs, p);
      }
      log := log + [Removed(p)];
    }

    /** `shutil.rmtree`: on a host that is not quiet it may stop anywhere. */
    method RemoveTree(p: AbsPath) returns (ok: bool)
      modifies this`fs, this`servers, this`procs, this`log
      ensures log == old(log) + [RemovedTree(p)]
      ensures quiet ==> servers == old(servers) && procs == old(procs)
      ensures quiet ==> ok && fs == WithoutTree(old(fs), p)
    {
      var fault := Interfere();
      ok := !fault;
      if ok {
        fs := WithoutTree(fs, p);
      }
      log := log + [RemovedTree(p)];
    }

    /** `_tmux_server_live`: whether `tmux list-sessions` exits with 0. */
    method ProbeServer(socket: string) returns (alive: bool)
      modifies this`fs, this`servers, this`procs, this`log
      ensures log == old(log) + [ProbedServer(socket, alive)]
      ensures quiet ==> fs == old(fs) && servers == old(servers) && procs == old(procs)
      ensures quiet ==> alive == (socket in servers)
    {
      var fault := Interfere();
      alive := !fault && socket in servers;
      log := log + [ProbedServer(socket, alive)];
    }

    /** `tmux list-sessions -F`: the session names, or nothing when the call fails. */
    method ListSessions(socket: string) returns (sessions: Option<seq<string>>)
      modifies this`fs, this`servers, this`procs, this`log
      ensures log == old(log) + [ListedSessions(socket, sessions)]
      ensures quiet ==> fs == old(fs) && servers == old(servers) && procs == old(procs)
      ensures quiet ==> sessions == if listing && socket in servers then Some(servers[socket]) else None
    {
      var fault := Interfere();
      sessions := if !fault && listing && socket in servers then Some(servers[socket]) else None;
      log := log + [ListedSessions(socket, sessions)];
    }

    /** `tmux has-session -t name`. */
    method QuerySession(socket: string, name: string) returns (found: bool)
      modifies this`fs, this`servers, this`procs, this`log
      ensures log == old(log) + [HasSession(socket, name, found)]
      ensures quiet ==> fs == old(fs) && servers == old(servers) && procs == old(procs)
      ensures quiet ==> found == (socket in servers && name in servers[socket])
    {
      var fault := Interfere();
      found := !fault && socket in servers && name in servers[socket];
      log := log + [HasSession(socket, name, found)];
    }

    /** `tmux new-session`: starts the server and its socket when there is none. */
    method StartSession(socket: string, name: string) returns (ok: bool)
      modifies this`fs, this`servers, this`procs, this`log
      ensures log == old(log) + [NewSession(socket, name, ok)]
      ensures quiet ==> procs == old(procs)
      ensures quiet && socket !in old(servers) ==>
        var p := SocketPath(socket);
        && ok == CanCreate(old(fs), p)
        && servers == (if ok then old(servers)[socket := [name]] else old(servers))
        && fs == if ok then old(fs).(nodes := old(fs).nodes[p := FS.Socket(0)]) else old(fs)
    {
      var fault := Interfere();
      var p := SocketPath(socket);
      if socket in servers {
        ok := !fault && name !in servers[socket];
        if ok {
          servers := servers[socket := servers[socket] + [name]];
        }
      } else {
        ok := !fault && CanCreate(fs, p);
        if ok {
          servers := servers[socket := [name]];
          fs := fs.(nodes := fs.nodes[p := FS.Socket(0)]);
        }
      }
      log := log + [NewSession(socket, name, ok)];
    }

    /** `tmux kill-session -t name`: a server without sessions ends. */
    method KillSession(socket: string, name: string)
      modifies this`fs, this`servers, this`procs, this`log
      ensures log == old(log) + [KilledSession(socket, name)]
      ensures quiet ==> fs == old(fs) && procs == old(procs)
      ensures quiet && (socket !in old(servers) || old(servers)[socket] == [name]) ==>
        servers == old(servers) - {socket}
    {
      var fault := Interfere();
      if !fault && socket in servers {
        var left := DropName(servers[socket], name);
        if servers[socket] == [name] {
          DropOnly(servers[socket], name);
        }
        servers := if |left| == 0 then servers - {socket} else servers[socket := left];
      }
      log := log + [KilledSession(socket, name)];
    }

    /** `tmux kill-server`: the server dies and leaves its socket behind. */
    method KillServer(socket: string)
      modifies this`fs, this`servers, this`procs, this`log
      ensures log == old(log) + [KilledServer(socket)]
      ensures quiet ==> fs == old(fs) && procs == old(procs) && servers == old(servers) - {socket}
    {
      var fault := Interfere();
      if !fault {
        servers := servers - {socket};
      }
      log := log + [KilledServer(socket)];
    }

    /** The `unlink` of a socket already seen to be one; it may be gone by now. */
    method UnlinkSocket(socket: string) returns (ok: bool)
      modifies this`fs, this`servers, this`procs, this`log
      ensures log == old(log) + [UnlinkedSocket(socket)]
      ensures quiet ==> servers == old(servers) && procs == old(procs)
      ensures quiet ==> ok && fs == Without(old(fs), SocketPath(socket))
    {
      var fault := Interfere();
      ok := !fault;
      if ok {
        fs := Without(fs, SocketPath(socket));
      }
      log := log + [UnlinkedSocket(socket)];
    }

    /** `Popen`: a new process and its start time. */
    method Spawn() returns (pid: Option<nat>)
      modifies this`fs, this`servers, this`procs, this`log
      ensures log == if pid.Some? then old(log) + [Spawned(pid.value)] else old(log)
      ensures quiet ==> fs == old(fs) && servers == old(servers)
      ensures quiet ==> pid.Some? && pid.value !in old(procs) && pid.value in procs
                        && procs == old(procs)[pid.value := procs[pid.value]]
    {
      var fault := Interfere();
      if fault {
        pid := None;
      } else {
        var next := FreshPid();
        var start: nat := *;
        procs := procs[next := start];
        pid := Some(next);
        log := log + [Spawned(next)];
      }
    }

    method FreshPid() returns (pid: nat)
      ensures pid !in procs
    {
      var seen: set<nat> := procs.Keys;
      pid := 0;
      while pid in seen
        invariant forall q :: q in procs.Keys && q >= pid ==> q in seen
        decreases seen
      {
        seen := seen - {pid};
        pid := pid + 1;
      }
    }

    /** The start time in `/proc/<pid>/stat`, or nothing when there is no such process. */
    method ProcessStart(pid: nat) returns (start: Option<nat>)
      modifies this`fs, this`servers, this`procs, this`log
      ensures log == old(log) + [SawStart(pid, start)]
      ensures quiet ==> fs == old(fs) && servers == old(servers) && procs == old(procs)
      ensures quiet ==> start == if pid in procs then Some(procs[pid]) else None
    {
      var fault := Interfere();
      start := if !fault && pid in procs then Some(procs[pid]) else None;
      log := log + [SawStart(pid, start)];
    }

    /** `poll` of a child: whether it still runs. */
    method Poll(pid: nat) returns (running: bool)
      modifies this`fs, this`servers, this`procs, this`log
      ensures log == old(log) + [Polled(pid, running)]
      ensures quiet ==> fs == old(fs) && servers == old(servers) && procs == old(procs)
      ensures running == (pid in procs)
    {
      var _ := Interfere();
      running := pid in procs;
      log := log + [Polled(pid, running)];
    }

    /** `killpg` with SIGTERM: fails when the group is gone; the process ends when its grace is over. */
    method Terminate(pid: nat) returns (ok: bool)
      modifies this`fs, this`servers, this`procs, this`stopping, this`log
      ensures log == old(log) + [Signalled(pid)]
      ensures quiet ==> fs == old(fs) && servers == old(servers) && ok == (pid in old(procs))
      ensures quiet ==> procs == if ok && grace == Some(0) then old(procs) - {pid} else old(procs)
      ensures stopping == if ok && grace.Some? then Some((pid, clock + grace.value)) else old(stopping)
    {
      var fault := Interfere();
      ok := !fault && pid in procs;
      if ok && grace.Some? {
        stopping := Some((pid, clock + grace.value));
        if grace.value == 0 {
          procs := procs - {pid};
        }
      }
      log := log + [Signalled(pid)];
    }

    /** `killpg` with SIGKILL: fails when the group is gone; the process may still show for a while. */
    method Kill(pid: nat) returns (ok: bool)
      modifies this`fs, this`servers, this`procs, this`log
      ensures log == old(log) + [Signalled(pid)]
      ensures quiet ==> fs == old(fs) && servers == old(servers) && ok == (pid in old(procs))
      ensures quiet ==> procs == old(procs) || procs == old(procs) - {pid}
    {
      var fault := Interfere();
      ok := !fault && pid in procs;
      var ends: bool := *;
      if ok && ends {
        procs := procs - {pid};
      }
      log := log + [Signalled(pid)];
    }

    /** `os.kill(pid, 0)`. */
    method IsAlive(pid: nat) returns (alive: bool)
      modifies this`fs, this`servers, this`procs
      ensures quiet ==> fs == old(fs) && servers == old(servers) && procs == old(procs)
      ensures alive == (pid in procs)
    {
      var _ := Interfere();
      alive := pid in procs;
    }

    /** A sleep takes some time, however long. */
    function WakeAt(t: nat): (later: nat)
      ensures later > t
    {
      if wake(t) > t then wake(t) else t + 1
    }

    /** `time.sleep(0.1)`; a process whose grace ends meanwhile is gone afterwards. */
    method Sleep()
      modifies this`clock, this`procs
      ensures clock == WakeAt(old(clock))
      ensures procs ==
        if stopping.Some? && stopping.value.1 <= clock then old(procs) - {stopping.value.0} else old(procs)
    {
      clock := WakeAt(clock);
      if stopping.Some? && stopping.value.1 <= clock {
        procs := procs - {stopping.value.0};
      }
    }

    /** The last time before `deadline` at which a loop of sleeps that starts at `t` looks. */
    function LastProbe(t: nat, deadline: nat): (last: nat)
      requires t < deadline
      ensures t <= last < deadline <= WakeAt(last)
      decreases deadline - t
    {
      if WakeAt(t) >= deadline then t else LastProbe(WakeAt(t), deadline)
    }

    /**
     A process sent SIGTERM at `begin` ends unseen: after the last probe of the fifteen
     seconds it is given, and before the sleep that follows the probe is over.
     */
    predicate EndsUnseen(begin: nat) {
      && grace.Some?
      && LastProbe(begin, begin + SETTLE) < begin + grace.value <= WakeAt(LastProbe(begin, begin + SETTLE))
    }
  }
}
