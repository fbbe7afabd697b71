/**
 Booting and stopping the worker-truth runtime: which tasks run, when the legacy hooks are
 armed, and in what order the status monitor is handed the projection and loses it.
 */
module BootWiring {
  import opened Wrappers

  datatype Task = DeliveryTick | Retention | Sweep | Probe

  /** The places where a boot can fail. */
  datatype Point =
    | ResolvePath | OpenQueue | InstallDelivery | BuildTick | TickStart
    | ResolveStatus | BuildStores | RetentionStart | SweepStart | BuildProbe | ProbeStart | InstallProducers | Arm

  /** The switches, and which steps raise. */
  datatype Config = Config(migrated: bool, pooled: bool, enabled: bool, cutover: bool, faults: set<Point>)

  /** What the module keeps of a boot: the tasks it will stop, and whether there is a pool to close. */
  datatype Runtime = Runtime(ingesting: bool, tasks: set<Task>, pool: bool)

  /** The wiring steps guarded by one handler, in order. */
  const WIRING: seq<Point> :=
    [BuildStores, RetentionStart, SweepStart, BuildProbe, ProbeStart, InstallProducers]

  function TaskOf(p: Point): set<Task> {
    match p
    case RetentionStart => {Retention}
    case SweepStart => {Sweep}
    case ProbeStart => {Probe}
    case _ => {}
  }

  /** The tasks the wiring starts before its first failing step. */
  function WiredTasks(steps: seq<Point>, faults: set<Point>): set<Task> {
    if |steps| == 0 || steps[0] in faults then {}
    else TaskOf(steps[0]) + WiredTasks(steps[1..], faults)
  }

  predicate WiringSucceeds(c: Config) {
    forall p <- WIRING :: p !in c.faults
  }

  predicate Migrates(c: Config) {
    ResolvePath !in c.faults && c.migrated && c.pooled
  }

  predicate QueueOpens(c: Config) {
    Migrates(c) && OpenQueue !in c.faults
  }

  /** Two of the calls outside every handler belong to the delivery. */
  predicate DeliveryRaises(c: Config) {
    && QueueOpens(c)
    && (InstallDelivery in c.faults || (BuildTick !in c.faults && TickStart in c.faults))
  }

  /** The third resolves the status cutover, when the tick may already run. */
  predicate BootRaises(c: Config) {
    DeliveryRaises(c) || (Migrates(c) && ResolveStatus in c.faults)
  }

  predicate TickRuns(c: Config) {
    QueueOpens(c) && InstallDelivery !in c.faults && BuildTick !in c.faults && TickStart !in c.faults
  }

  /** The boot reaches its last line with ingestion on. */
  predicate Completes(c: Config) {
    Migrates(c) && !BootRaises(c) && c.enabled && WiringSucceeds(c)
  }

  function TickTasks(c: Config): set<Task> {
    if TickRuns(c) then {DeliveryTick} else {}
  }

  /** The tasks running after a boot, whether or not it raised or the wiring failed. */
  function TasksAfterBoot(c: Config): set<Task> {
    if !Migrates(c) || DeliveryRaises(c) then {}
    else if c.enabled && !BootRaises(c) then TickTasks(c) + WiredTasks(WIRING, c.faults)
    else TickTasks(c)
  }

  /** The runtime a boot leaves behind, when it does not raise. */
  function RuntimeAfter(c: Config): Runtime {
    if ResolvePath in c.faults then Runtime(false, {}, false)
    else if !Migrates(c) then Runtime(false, {}, c.pooled)
    else if Completes(c) then Runtime(true, TickTasks(c) + {Retention, Sweep, Probe}, true)
    else Runtime(false, TickTasks(c), true)
  }

  /** A moment of the process: the monitor's projection and the producers. */
  datatype Moment = Moment(armed: bool, producing: bool)

  class Server {
    var running: set<Task>
    var producing: bool
    var armed: bool
    var delivering: bool
    var runtime: Option<Runtime>
    ghost var moments: seq<Moment>
    ghost var stops: seq<Task>

    constructor ()
      ensures running == {} && !producing && !armed && !delivering && runtime == None
      ensures moments == [] && stops == []
    {
      running, producing, armed, delivering, runtime := {}, false, false, false, None;
      moments, stops := [], [];
    }

    /** No moment so far had the projection armed without producers. */
    ghost predicate Fed()
      reads this
    {
      && (armed ==> producing)
      && forall m <- moments :: m.armed ==> m.producing
    }

    method SetProducers(on: bool)
      modifies `producing, `moments
      ensures producing == on && moments == old(moments) + [Moment(armed, on)]
    {
      producing := on;
      moments := moments + [Moment(armed, on)];
    }

    method SetArmed(on: bool)
      modifies `armed, `moments
      ensures armed == on && moments == old(moments) + [Moment(on, producing)]
    {
      armed := on;
      moments := moments + [Moment(on, producing)];
    }

    /** The guarded wiring: stops at the first failing step; the tasks started before it keep running. */
    method Wire(steps: seq<Point>, faults: set<Point>) returns (ok: bool)
      requires !producing && !armed && Fed()
      modifies `running, `producing, `moments
      ensures ok <==> forall p <- steps :: p !in faults
      ensures running == old(running) + WiredTasks(steps, faults)
      ensures ok && InstallProducers in steps ==> producing
      ensures Fed()
    {
      for i := 0 to |steps|
        invariant forall p <- steps[..i] :: p !in faults
        invariant old(running) + WiredTasks(steps, faults) == running + WiredTasks(steps[i..], faults)
        invariant Fed() && (InstallProducers in steps[..i] ==> producing)
      {
        if steps[i] in faults {
          assert steps[i] in steps;
          return false;
        }
        assert steps[i..][1..] == steps[i + 1..] && steps[..i + 1] == steps[..i] + [steps[i]];
        running := running + TaskOf(steps[i]);
        if steps[i] == InstallProducers {
          SetProducers(true);
        }
      }
      assert steps[..|steps|] == steps;
      ok := true;
    }

    /** `_start_delivery` and the start of its tick; a false result is an exception that escapes. */
    method StartDelivery(c: Config) returns (ok: bool)
      requires Migrates(c) && running == {}
      modifies `running, `delivering
      ensures ok <==> !DeliveryRaises(c)
      ensures running == if ok then TickTasks(c) else {}
      ensures delivering == (old(delivering) || (QueueOpens(c) && InstallDelivery !in c.faults))
    {
      if OpenQueue in c.faults {
        return true;
      }
      if InstallDelivery in c.faults {
        return false;
      }
      delivering := true;
      if BuildTick in c.faults {
        return true;
      }
      if TickStart in c.faults {
        return false;
      }
      running := running + {DeliveryTick};
      ok := true;
    }

    /** `start_worker_truth`, on a fresh process. */
    method Start(c: Config) returns (ok: bool)
      requires running == {} && !producing && !armed && runtime == None && Fed()
      modifies this
      ensures ok <==> !BootRaises(c)
      ensures runtime == if ok then Some(RuntimeAfter(c)) else None
      ensures running == TasksAfterBoot(c)
      ensures producing == Completes(c)
      ensures armed == (Completes(c) && c.cutover && Arm !in c.faults)
      ensures Fed() && stops == old(stops)
    {
      if ResolvePath in c.faults {
        runtime := Some(Runtime(false, {}, false));
        return true;
      }
      if !c.migrated || !c.pooled {
        delivering := false;
        runtime := Some(Runtime(false, {}, c.pooled));
        return true;
      }
      ok := StartDelivery(c);
      if !ok {
        return;
      }
      var tick := running;
      if ResolveStatus in c.faults {
        return false;
      }
      if !c.enabled {
        runtime := Some(Runtime(false, tick, true));
        return;
      }
      var wired := Wire(WIRING, c.faults);
      assert WIRING[5] == InstallProducers;
      if wired {
        if c.cutover && Arm !in c.faults {
          SetArmed(true);
        }
        WholeWiring(WIRING, c.faults);
        runtime := Some(Runtime(true, tick + {Retention, Sweep, Probe}, true));
      } else {
        SetProducers(false);
        runtime := Some(Runtime(false, tick, true));
      }
    }

    /** Stops one task of the runtime; a failing stop leaves it running and is swallowed. */
    method StopTask(task: Task, held: set<Task>, stuck: set<Task>)
      modifies `running, `stops
      ensures stops == if task in held then old(stops) + [task] else old(stops)
      ensures running == if task in held && task !in stuck then old(running) - {task} else old(running)
    {
      if task in held {
        stops := stops + [task];
        if task !in stuck {
          running := running - {task};
        }
      }
    }

    /** `shutdown_worker_truth`: `disarms` and `stuck` say which calls fail. */
    method Shutdown(disarms: bool, stuck: set<Task>, closes: bool) returns (ok: bool)
      requires Fed()
      modifies this
      ensures !producing && !delivering && runtime == None
      ensures armed == (old(armed) && !disarms)
      ensures (forall m <- moments :: m.armed ==> m.producing) <==> !(old(armed) && !disarms)
      ensures stops == old(stops) + if old(runtime).Some? then Attempts(old(runtime).value.tasks) else []
      ensures running == old(running) - if old(runtime).Some? then old(runtime).value.tasks - stuck else {}
      ensures ok <==> old(runtime).None? || !old(runtime).value.pool || closes
    {
      var held := runtime;
      runtime := None;
      Disarm(disarms);
      delivering := false;
      if held.None? {
        return true;
      }
      StopAll(held.value.tasks, stuck);
      ok := !held.value.pool || closes;
    }

    /** The monitor loses the projection before the producers go, unless that call fails. */
    method Disarm(disarms: bool)
      requires Fed()
      modifies `armed, `producing, `moments
      ensures !producing && armed == (old(armed) && !disarms)
      ensures (forall m <- moments :: m.armed ==> m.producing) <==> !(old(armed) && !disarms)
    {
      if disarms {
        SetArmed(false);
      }
      SetProducers(false);
      assert moments[|moments| - 1] == Moment(armed, false);
    }

    /** Every task held is attempted, whichever stops fail. */
    method StopAll(tasks: set<Task>, stuck: set<Task>)
      modifies `running, `stops
      ensures stops == old(stops) + Attempts(tasks)
      ensures running == old(running) - (tasks - stuck)
    {
      StopTask(DeliveryTick, tasks, stuck);
      StopTask(Probe, tasks, stuck);
      StopTask(Sweep, tasks, stuck);
      StopTask(Retention, tasks, stuck);
      AllTasks(tasks);
    }
  }

  /** The order in which a shutdown tries to stop the tasks it holds. */
  function Attempts(tasks: set<Task>): seq<Task> {
    (if DeliveryTick in tasks then [DeliveryTick] else [])
    + (if Probe in tasks then [Probe] else [])
    + (if Sweep in tasks then [Sweep] else [])
    + (if Retention in tasks then [Retention] else [])
  }

  lemma AllTasks(tasks: set<Task>)
    ensures tasks <= {DeliveryTick, Probe, Sweep, Retention}
  {
    forall t | t in tasks
      ensures t in {DeliveryTick, Probe, Sweep, Retention}
    {
      assert t.DeliveryTick? || t.Probe? || t.Sweep? || t.Retention?;
    }
  }

  lemma AttemptsEach(tasks: set<Task>, t: Task)
    ensures t in Attempts(tasks) <==> t in tasks
  {
  }

  lemma WholeWiring(steps: seq<Point>, faults: set<Point>)
    requires steps == WIRING && forall p <- WIRING :: p !in faults
    ensures WiredTasks(steps, faults) == {Retention, Sweep, Probe}
  {
    assert steps[1] == RetentionStart && steps[2] == SweepStart && steps[4] == ProbeStart;
    assert RetentionStart in steps && SweepStart in steps && ProbeStart in steps;
    forall t
      ensures t in WiredTasks(steps, faults) <==> t in {Retention, Sweep, Probe}
    {
      WiredMembers(steps, faults, t);
      assert Retention in TaskOf(RetentionStart) && Sweep in TaskOf(SweepStart) && Probe in TaskOf(ProbeStart);
    }
  }

  /** Without a fault the wiring starts the task of every step. */
  lemma {:induction false} WiredMembers(steps: seq<Point>, faults: set<Point>, t: Task)
    requires forall p <- steps :: p !in faults
    ensures t in WiredTasks(steps, faults) <==> exists p <- steps :: t in TaskOf(p)
  {
    if |steps| > 0 {
      assert steps == [steps[0]] + steps[1..];
      WiredMembers(steps[1..], faults, t);
    }
  }

  /**
   One boot and one shutdown, failing wherever it likes: the projection was armed without
   producers at some moment exactly when the boot armed it and the disarm failed; after a
   completed boot every task is attempted; after a failed wiring the tasks it had started are
   left running, and after a boot that raised so is the delivery tick.
   */
  method OneLife(c: Config, disarms: bool, stuck: set<Task>, closes: bool) returns (server: Server, booted: bool)
    ensures fresh(server)
    ensures (forall m <- server.moments :: m.armed ==> m.producing)
      <==> !(Completes(c) && c.cutover && Arm !in c.faults && !disarms)
    ensures disarms ==> !server.armed
    ensures Completes(c) ==> forall t: Task :: t in server.stops <==> (t.DeliveryTick? ==> TickRuns(c))
    ensures server.running == TasksAfterBoot(c) - if booted then RuntimeAfter(c).tasks - stuck else {}
    ensures booted && c.enabled && Migrates(c) && !WiringSucceeds(c) ==>
      WiredTasks(WIRING, c.faults) <= server.running
    ensures !booted ==> server.running == if TickRuns(c) then {DeliveryTick} else {}
  {
    server := new Server();
    booted := server.Start(c);
    ghost var tasks := server.running;
    var _ := server.Shutdown(disarms, stuck, closes);
    WiredAreNotTick(WIRING, c.faults);
    if Completes(c) {
      forall t: Task
        ensures t in server.stops <==> (t.DeliveryTick? ==> TickRuns(c))
      {
        AttemptsEach(RuntimeAfter(c).tasks, t);
        assert t.DeliveryTick? || t.Probe? || t.Sweep? || t.Retention?;
      }
    }
  }

  lemma {:induction false} WiredAreNotTick(steps: seq<Point>, faults: set<Point>)
    ensures DeliveryTick !in WiredTasks(steps, faults)
  {
    if |steps| > 0 {
      WiredAreNotTick(steps[1..], faults);
    }
  }
}
