/**
 What a run of `command_up` that fails cleans up, read from what it told: on any host the
 root it made and the child it started are seen to, and its tmux session exactly when the
 sessions could be listed.
 */
module SandboxCleanup {
  import opened Wrappers
  import opened Paths
  import FS = FileSystem
  import opened Validation
  import opened Reservation
  import opened HostMachine
  import opened SandboxTrace
  import opened SandboxUp

  /** The session started at `i` is killed later, by itself or with its server. */
  predicate SessionEnded(told: seq<Event>, i: nat)
    requires i < |told| && told[i].NewSession?
  {
    exists j | i < j < |told| ::
      told[j] == KilledSession(told[i].socket, told[i].name) || told[j] == KilledServer(told[i].socket)
  }

  /** The sessions were listed right after the one at `i` was started; it ends if that worked. */
  predicate SessionSeenTo(told: seq<Event>, i: nat)
    requires i < |told| && told[i].NewSession?
  {
    && told[i].name == Sentinel(told[i].socket)
    && i + 1 < |told| && told[i + 1].ListedSessions? && told[i + 1].socket == told[i].socket
    && (SessionEnded(told, i) <==> told[i + 1].sessions.Some?)
  }

  /** The process started at `i` is polled later, and then signalled if it still runs. */
  predicate ChildSeenTo(told: seq<Event>, i: nat)
    requires i < |told| && told[i].Spawned?
  {
    exists j | i < j < |told| :: told[j].Polled? && told[j].pid == told[i].pid
      && (told[j].running <==> Signalled(told[i].pid) in told[j..])
  }

  /** The directory made at `i` lies in the tree that is removed at the end. */
  predicate RootSeenTo(told: seq<Event>, i: nat)
    requires i < |told| && told[i].Mkdir?
  {
    var last := told[|told| - 1];
    last.RemovedTree? && last.path <= told[i].path
  }

  predicate SeenTo(told: seq<Event>, i: nat)
    requires i < |told|
  {
    match told[i]
    case Mkdir(_, _) => RootSeenTo(told, i)
    case NewSession(_, _, _) => SessionSeenTo(told, i)
    case Spawned(_) => ChildSeenTo(told, i)
    case _ => true
  }

  /** No session is started in this part. */
  predicate Apart(part: seq<Event>) {
    forall i | 0 <= i < |part| :: !part[i].NewSession?
  }

  // ----- the session -----

  /** What ends the session before the launch. */
  function EndTrail(socket: string, sessions: Option<seq<string>>): seq<Event> {
    if sessions.Some? && !Claims(socket, Some(sessions)) then [KilledSession(socket, Sentinel(socket))] else []
  }

  /** What a refused run tells after it listed the sessions. */
  function AfterListing(socket: string, root: AbsPath, sessions: Option<seq<string>>, child: Option<nat>, alive: bool)
    : seq<Event>
  {
    EndTrail(socket, sessions) + LaunchTrail(child)
    + RetreatTrail(socket, root, Claims(socket, Some(sessions)), child, alive)
  }

  lemma RefusedParts(root: AbsPath, r: Request, sessions: Option<seq<string>>, child: Option<nat>, alive: bool)
    ensures var socket := "cao-sbx-" + r.instanceId;
      RefusedTrail(root, r, Some(sessions), child, alive)
      == MadeTrail(root, r.variant.Some?) + StartTrail(socket, sessions)
         + AfterListing(socket, root, sessions, child, alive)
  {
    var socket := "cao-sbx-" + r.instanceId;
    Reassociate(MadeTrail(root, r.variant.Some?), StartTrail(socket, sessions), EndTrail(socket, sessions),
      LaunchTrail(child), RetreatTrail(socket, root, Claims(socket, Some(sessions)), child, alive));
  }

  lemma Reassociate(a: seq<Event>, b: seq<Event>, c: seq<Event>, d: seq<Event>, e: seq<Event>)
    ensures (a + ((b + c) + d)) + e == (a + b) + ((c + d) + e)
  {
  }

  lemma RetreatMembers(socket: string, root: AbsPath, claimed: bool, child: Option<nat>, alive: bool)
    ensures var told := RetreatTrail(socket, root, claimed, child, alive);
      && Apart(told)
      && (forall e <- told :: !e.KilledSession? && (e.KilledServer? ==> claimed && e == KilledServer(socket)))
      && (claimed ==> KilledServer(socket) in told)
  {
    var told := RetreatTrail(socket, root, claimed, child, alive);
    if claimed {
      assert told[|ChildTrail(child, alive)|] == KilledServer(socket);
    }
  }

  /** After the listing the session is killed, or its server is, exactly when there was a list. */
  lemma ListedIsEnded(socket: string, root: AbsPath, sessions: Option<seq<string>>, child: Option<nat>, alive: bool)
    ensures var after := AfterListing(socket, root, sessions, child, alive);
      && Apart(after)
      && (KilledSession(socket, Sentinel(socket)) in after || KilledServer(socket) in after <==> sessions.Some?)
  {
    var claims := Claims(socket, Some(sessions));
    RetreatMembers(socket, root, claims, child, alive);
    InParts(EndTrail(socket, sessions), LaunchTrail(child), RetreatTrail(socket, root, claims, child, alive),
      KilledSession(socket, Sentinel(socket)));
    InParts(EndTrail(socket, sessions), LaunchTrail(child), RetreatTrail(socket, root, claims, child, alive),
      KilledServer(socket));
    assert sessions.Some? && !claims ==> EndTrail(socket, sessions)[0] == KilledSession(socket, Sentinel(socket));
  }

  lemma InParts(a: seq<Event>, b: seq<Event>, c: seq<Event>, e: Event)
    ensures e in a + b + c <==> e in a || e in b || e in c
    ensures Apart(a) && Apart(b) && Apart(c) ==> Apart(a + b + c)
  {
  }

  /** A session started once, and listed at once. */
  lemma StartedOnce(before: seq<Event>, socket: string, sessions: Option<seq<string>>, after: seq<Event>, i: nat)
    requires var told := before + StartTrail(socket, sessions) + after; i < |told| && told[i].NewSession?
    requires Apart(before) && Apart(after)
    requires KilledSession(socket, Sentinel(socket)) in after || KilledServer(socket) in after <==> sessions.Some?
    ensures SessionSeenTo(before + StartTrail(socket, sessions) + after, i)
  {
    var told := before + StartTrail(socket, sessions) + after;
    assert i == |before| && told[i] == NewSession(socket, Sentinel(socket), true);
    assert told[i + 1] == ListedSessions(socket, sessions);
    assert told[i + 2..] == after;
    if sessions.Some? {
      var j :| 0 <= j < |after|
        && (after[j] == KilledSession(socket, Sentinel(socket)) || after[j] == KilledServer(socket));
      assert told[i + 2 + j] == after[j];
    } else {
      forall j | i < j < |told|
        ensures told[j] != KilledSession(socket, Sentinel(socket)) && told[j] != KilledServer(socket)
      {
        assert j > i + 1 ==> told[j] == after[j - i - 2];
      }
    }
  }

  /** Every session of a refused run is seen to. */
  lemma RefusedSessions(root: AbsPath, r: Request, seen: Option<Option<seq<string>>>, child: Option<nat>, alive: bool,
                        i: nat)
    requires child.Some? ==> Claims("cao-sbx-" + r.instanceId, seen)
    requires var told := RefusedTrail(root, r, seen, child, alive); i < |told| && told[i].NewSession?
    ensures SessionSeenTo(RefusedTrail(root, r, seen, child, alive), i)
  {
    var socket := "cao-sbx-" + r.instanceId;
    if seen.Some? {
      RefusedParts(root, r, seen.value, child, alive);
      ListedIsEnded(socket, root, seen.value, child, alive);
      StartedOnce(MadeTrail(root, r.variant.Some?), socket, seen.value,
        AfterListing(socket, root, seen.value, child, alive), i);
    } else {
      RetreatMembers(socket, root, false, None, alive);
      InParts(MadeTrail(root, r.variant.Some?), ClaimTrail(socket, seen) + LaunchTrail(child),
        RetreatTrail(socket, root, false, None, alive), RefusedTrail(root, r, seen, child, alive)[i]);
      assert false;
    }
  }

  // ----- the child -----

  predicate Childless(part: seq<Event>) {
    forall i | 0 <= i < |part| :: !part[i].Spawned?
  }

  /** A child started once, polled later, and signalled if it runs. */
  lemma StoppedOnce(before: seq<Event>, pid: nat, alive: bool, after: seq<Event>, i: nat)
    requires var told := before + [Spawned(pid)] + (ChildTrail(Some(pid), alive) + after);
      i < |told| && told[i].Spawned?
    requires Childless(before) && Childless(after) && Signalled(pid) !in after
    ensures ChildSeenTo(before + [Spawned(pid)] + (ChildTrail(Some(pid), alive) + after), i)
  {
    var told := before + [Spawned(pid)] + (ChildTrail(Some(pid), alive) + after);
    assert i == |before|;
    assert told[i + 1] == Polled(pid, alive);
    assert told[i + 1..] == ChildTrail(Some(pid), alive) + after;
    if alive {
      assert told[i + 1..][1] == Signalled(pid);
    }
  }

  lemma Around(a: seq<Event>, b: seq<Event>, c: seq<Event>, d: seq<Event>, e: seq<Event>, f: seq<Event>)
    ensures (a + (b + c)) + ((d + e) + f) == ((a + b) + c) + (d + (e + f))
  {
  }

  lemma RefusedChild(root: AbsPath, r: Request, seen: Option<Option<seq<string>>>, child: Option<nat>, alive: bool,
                     i: nat)
    requires var told := RefusedTrail(root, r, seen, child, alive); i < |told| && told[i].Spawned?
    ensures ChildSeenTo(RefusedTrail(root, r, seen, child, alive), i)
  {
    var socket := "cao-sbx-" + r.instanceId;
    var before := MadeTrail(root, r.variant.Some?) + ClaimTrail(socket, seen);
    var after := DropTrail(socket, Claims(socket, seen)) + [RemovedTree(root)];
    var told := RefusedTrail(root, r, seen, child, alive);
    Around(MadeTrail(root, r.variant.Some?), ClaimTrail(socket, seen), LaunchTrail(child), ChildTrail(child, alive),
      DropTrail(socket, Claims(socket, seen)), [RemovedTree(root)]);
    if child.Some? {
      StoppedOnce(before, child.value, alive, after, i);
    }
  }

  // ----- the root -----

  /** Only the reservation makes directories. */
  predicate Rootless(part: seq<Event>) {
    forall i | 0 <= i < |part| :: !part[i].Mkdir?
  }

  /** What is made first is removed last. */
  lemma RemovedLast(root: AbsPath, fixture: bool, middle: seq<Event>, rest: seq<Event>, i: nat)
    requires var told := MadeTrail(root, fixture) + middle + (rest + [RemovedTree(root)]); i < |told| && told[i].Mkdir?
    requires Rootless(middle) && Rootless(rest)
    ensures RootSeenTo(MadeTrail(root, fixture) + middle + (rest + [RemovedTree(root)]), i)
  {
    var told := MadeTrail(root, fixture) + middle + (rest + [RemovedTree(root)]);
    assert told[|told| - 1] == RemovedTree(root);
    assert root <= StateDir(root);
    assert i < |MadeTrail(root, fixture)|;
  }

  lemma RefusedRoot(root: AbsPath, r: Request, seen: Option<Option<seq<string>>>, child: Option<nat>, alive: bool,
                    i: nat)
    requires var told := RefusedTrail(root, r, seen, child, alive); i < |told| && told[i].Mkdir?
    ensures RootSeenTo(RefusedTrail(root, r, seen, child, alive), i)
  {
    var socket := "cao-sbx-" + r.instanceId;
    var middle := ClaimTrail(socket, seen) + LaunchTrail(child);
    var rest := ChildTrail(child, alive) + DropTrail(socket, Claims(socket, seen));
    RemovedLast(root, r.variant.Some?, middle, rest, i);
  }

  // ----- whole runs -----

  lemma RefusedIsSeenTo(told: seq<Event>, r: Request, root: AbsPath, i: nat)
    requires RefusedWith(told, r, root) && i < |told|
    ensures SeenTo(told, i)
  {
    var seen, child, alive :| told == RefusedTrail(root, r, seen, child, alive)
      && (child.Some? ==> Claims("cao-sbx-" + r.instanceId, seen));
    match told[i]
    case Mkdir(_, _) => RefusedRoot(root, r, seen, child, alive, i);
    case NewSession(_, _, _) => RefusedSessions(root, r, seen, child, alive, i);
    case Spawned(_) => RefusedChild(root, r, seen, child, alive, i);
    case _ =>
  }

  /**
   On any host, a run that does not get healthy sees to everything it made: it tries to remove
   the root at the end, signals the child exactly when the poll finds it running, and kills
   its session or server exactly when the sessions could be listed.
   */
  lemma FailedUpCleansUp(told: seq<Event>, r: Request, outcome: UpOutcome)
    requires UpTrail(told, r, outcome) && !outcome.Healthy?
    ensures forall i | 0 <= i < |told| :: SeenTo(told, i)
  {
    forall i | 0 <= i < |told|
      ensures SeenTo(told, i)
    {
      if root :| RefusedWith(told, r, root) {
        RefusedIsSeenTo(told, r, root, i);
      }
    }
  }

  /** A healthy run made its root, claimed its socket, started its child, and undid nothing. */
  lemma HealthyUpUndoesNothing(told: seq<Event>, r: Request, outcome: UpOutcome)
    requires UpTrail(told, r, outcome) && outcome.Healthy?
    ensures var socket := "cao-sbx-" + r.instanceId;
      && Mkdir(outcome.root, true) in told && Spawned(outcome.pid) in told
      && ListedSessions(socket, Some([Sentinel(socket)])) in told
    ensures forall e <- told ::
      !e.RemovedTree? && !e.KilledSession? && !e.KilledServer? && !e.Polled? && !e.Signalled?
  {
    var socket := "cao-sbx-" + r.instanceId;
    RaisedTells(outcome.root, r.variant.Some?, socket, Some(Some([Sentinel(socket)])), Some(outcome.pid));
  }

  /**
   The concrete leak: the run reaches the claim, starts its sentinel, and cannot list the
   sessions.  It is refused, and the sentinel's server, which nothing of this run will stop,
   is there where no server was.
   */
  method LeakingUp(h: Host, env: Env, r: Request, healthy: bool) returns (outcome: UpOutcome)
    requires h.quiet && !h.listing && Setting(env, WithParent(env, h.fs, r), h, r)
    requires ReachesClaim(env, h.fs, h.servers, r, false)
    modifies h
    ensures outcome.Refused?
    ensures var socket := "cao-sbx-" + r.instanceId;
      socket !in old(h.servers) && h.servers == old(h.servers)[socket := [Sentinel(socket)]]
    ensures Restored(h, WithParent(env, old(h.fs), r), r)
  {
    outcome := CommandUp(h, env, r, false, healthy);
  }
}
