/**
 * The `Process` supervisor: it forks the service, routes the analytics packets the child
 * sends over IPC to the engine, and restarts the child after a crash when configured to.
 * The child process and the timer queue are abstract: `fork` is given as the handle it
 * returns, and a `setTimeout` is a pending delay that the environment fires later.
 */
module Supervisor {
  import opened Basics
  import opened Packets
  import opened Engine

  /** `ProcessConfig`: every option may be absent. */
  datatype ProcessConfig = ProcessConfig(
    shouldRestart: Option<bool>, restartDelay: Option<int>, suppressConsole: Option<bool>)

  /** `restart_delay ?? 5000`: an explicit 0 is kept. */
  function RestartDelay(config: ProcessConfig): int {
    config.restartDelay.OrElse(5000)
  }

  /** `!this.#config.should_restart` negated: present and true. */
  predicate ShouldRestart(config: ProcessConfig) {
    config.shouldRestart == Some(true)
  }

  datatype ProcessInfo = ProcessInfo(path: string, name: string, version: string)

  /** The `name` and `version` fields of the child's parsed `package.json`. */
  datatype PackageJson = PackageJson(name: Option<string>, version: Option<string>)

  /** `#resolveProcessInfo`: `name` and `version` default to `'unknown'`. */
  function ResolveProcessInfo(processPath: string, pkg: PackageJson): (info: ProcessInfo)
    ensures info.path == processPath
    ensures pkg.name.None? ==> info.name == "unknown"
    ensures pkg.name.Some? ==> info.name == pkg.name.value
    ensures pkg.version.None? ==> info.version == "unknown"
    ensures pkg.version.Some? ==> info.version == pkg.version.value
  {
    ProcessInfo(processPath, pkg.name.OrElse("unknown"), pkg.version.OrElse("unknown"))
  }

  /** An IPC message: without a `type` field, or an analytics packet of some type. */
  datatype Message = Untyped | Typed(packet: Packet)

  /** What `#onreceiveData` does with a message. */
  datatype Route = Forward(packet: Packet) | LogToConsole

  /** Only a `MultipartNetworkRequest` packet goes to the engine; everything else is logged. */
  function Classify(m: Message): (r: Route)
    ensures r.Forward? <==> m.Typed? && m.packet.MultipartNetworkRequest?
    ensures r.Forward? ==> r.packet == m.packet
  {
    match m
    case Untyped => LogToConsole
    case Typed(p) => if p.MultipartNetworkRequest? then Forward(p) else LogToConsole
  }

  /** A forked child, by identity. */
  type Handle = nat

  /**
   * The state of the supervisor: `process`, `info`, `active`, the respawns scheduled with
   * `setTimeout` (their delays), and the handles `kill()` was sent to.
   */
  datatype ProcState = ProcState(
    process: Option<Handle>, info: Option<ProcessInfo>, active: bool,
    timers: seq<int>, killed: seq<Handle>)

  function InitialProc(): ProcState {
    ProcState(None, None, false, [], [])
  }

  /**
   * `spawnProcess`, `fork` returning `child`. `pkg` is the parsed `package.json`, `None`
   * when reading or parsing it throws: that happens before any field is assigned, so the
   * state is left as it was.
   */
  function Spawned(st: ProcState, processPath: string, pkg: Option<PackageJson>, child: Handle): ProcState {
    match pkg
    case None => st
    case Some(p) => st.(info := Some(ResolveProcessInfo(processPath, p)), process := Some(child), active := true)
  }

  /** `killProcess`: `kill()` goes to the current handle, if any. */
  function Killed(st: ProcState): ProcState {
    st.(killed := st.killed + (if st.process.Some? then [st.process.value] else []),
        process := None, active := false)
  }

  /** `#respawnProcess`: kill, then one `setTimeout` with the restart delay. */
  function Respawning(st: ProcState, config: ProcessConfig): ProcState {
    var k := Killed(st);
    k.(timers := k.timers + [RestartDelay(config)])
  }

  /** `#onClose(code)`. */
  function Closed(st: ProcState, config: ProcessConfig, code: int): ProcState {
    var st' := st.(active := false);
    if code == 1 && ShouldRestart(config) then Respawning(st', config) else st'
  }

  /** The `i`-th pending timer fires: it is gone, and `spawnProcess` runs. */
  function TimerFired(st: ProcState, i: nat, processPath: string, pkg: Option<PackageJson>, child: Handle): ProcState
    requires i < |st.timers|
  {
    Spawned(st.(timers := st.timers[..i] + st.timers[i + 1..]), processPath, pkg, child)
  }

  /**
   * After a spawn there is a running child, described by its package; a `package.json`
   * that cannot be read changes nothing.
   */
  lemma SpawnStarts(st: ProcState, processPath: string, pkg: Option<PackageJson>, child: Handle)
    ensures pkg.Some? ==> Spawned(st, processPath, pkg, child).process == Some(child)
    ensures pkg.Some? ==> Spawned(st, processPath, pkg, child).active
    ensures pkg.Some? ==> Spawned(st, processPath, pkg, child).info == Some(ResolveProcessInfo(processPath, pkg.value))
    ensures Spawned(st, processPath, pkg, child).timers == st.timers
    ensures pkg.None? ==> Spawned(st, processPath, pkg, child) == st
  {
  }

  /** Killing leaves no child and nothing active; a second kill changes nothing. */
  lemma KillIdempotent(st: ProcState)
    ensures Killed(st).process.None? && !Killed(st).active
    ensures st.process.None? ==> Killed(st) == st.(active := false)
    ensures Killed(Killed(st)) == Killed(st)
  {
  }

  /**
   * Every exit code leaves the supervisor inactive. A clean exit and any code other than 1
   * schedule nothing and keep the handle; a crash schedules exactly one respawn, after the
   * restart delay, when and only when restarting is configured.
   */
  lemma CloseEffects(st: ProcState, config: ProcessConfig, code: int)
    ensures !Closed(st, config, code).active
    ensures code != 1 ==> Closed(st, config, code) == st.(active := false)
    ensures code == 1 && !ShouldRestart(config) ==> Closed(st, config, code) == st.(active := false)
    ensures code == 1 && ShouldRestart(config) ==>
      && Closed(st, config, code).process.None?
      && Closed(st, config, code).timers == st.timers + [RestartDelay(config)]
    ensures |Closed(st, config, code).timers| ==
      |st.timers| + (if code == 1 && ShouldRestart(config) then 1 else 0)
  {
  }

  /**
   * A crash with restarting configured keeps the supervisor inactive until its timer fires,
   * and the firing starts the new child with the timers as they were before the crash.
   * When `package.json` cannot be read at that moment the timer is spent and no child is
   * ever started again.
   */
  lemma CrashRestartCycle(st: ProcState, config: ProcessConfig, processPath: string, pkg: Option<PackageJson>, child: Handle)
    requires ShouldRestart(config)
    ensures |Closed(st, config, 1).timers| == |st.timers| + 1
    ensures !Closed(st, config, 1).active
    ensures pkg.Some? ==> TimerFired(Closed(st, config, 1), |st.timers|, processPath, pkg, child).active
    ensures pkg.Some? ==> TimerFired(Closed(st, config, 1), |st.timers|, processPath, pkg, child).process == Some(child)
    ensures pkg.None? ==> !TimerFired(Closed(st, config, 1), |st.timers|, processPath, pkg, child).active
    ensures pkg.None? ==> TimerFired(Closed(st, config, 1), |st.timers|, processPath, pkg, child).process.None?
    ensures TimerFired(Closed(st, config, 1), |st.timers|, processPath, pkg, child).timers == st.timers
  {
    var c := Closed(st, config, 1);
    assert c.timers == st.timers + [RestartDelay(config)];
    assert c.timers[..|st.timers|] + c.timers[|st.timers| + 1..] == st.timers;
  }

  class Process {
    var process: Option<Handle>
    var info: Option<ProcessInfo>
    var active: bool
    const analytics: AnalyticsEngine
    const config: ProcessConfig
    /** `process_path` from the configuration file. */
    const processPath: string
    /** The respawns scheduled with `setTimeout` and not yet fired, as their delays. */
    var timers: seq<int>
    /** The handles `kill()` was sent to, in order. */
    var killed: seq<Handle>

    function Snap(): ProcState
      reads this
    {
      ProcState(process, info, active, timers, killed)
    }

    ghost predicate Valid()
      reads this, analytics, analytics.Repr
    {
      analytics.Valid()
    }

    constructor(config: ProcessConfig, processPath: string)
      ensures Valid() && Snap() == InitialProc()
      ensures fresh(analytics)
      ensures this.config == config && this.processPath == processPath
      ensures analytics.Abs() == InitialState()
    {
      this.config := config;
      this.processPath := processPath;
      analytics := new AnalyticsEngine();
      process, info, active, timers, killed := None, None, false, [], [];
    }

    /**
     * `spawnProcess`, with `fork` returning `child` and `package.json` read as `pkg`. When
     * it cannot be read the call throws, returning nothing and changing nothing.
     */
    method SpawnProcess(pkg: Option<PackageJson>, child: Handle) returns (engine: Option<AnalyticsEngine>)
      modifies this
      ensures Snap() == Spawned(old(Snap()), processPath, pkg, child)
      ensures engine.Some? <==> pkg.Some?
      ensures engine.Some? ==> engine.value == analytics
    {
      if pkg.None? {
        return None;
      }
      info := Some(ResolveProcessInfo(processPath, pkg.value));
      process := Some(child);
      active := true;
      engine := Some(analytics);
    }

    method KillProcess()
      modifies this
      ensures Snap() == Killed(old(Snap()))
    {
      if process.Some? {
        killed := killed + [process.value];
      }
      process := None;
      active := false;
    }

    method RespawnProcess()
      modifies this
      ensures Snap() == Respawning(old(Snap()), config)
    {
      KillProcess();
      timers := timers + [RestartDelay(config)];
    }

    /** The `close` event of the child. */
    method OnClose(code: int)
      modifies this
      ensures Snap() == Closed(old(Snap()), config, code)
    {
      active := false;
      if code == 0 {
        // clean exit: logged only
      } else if code == 1 {
        if ShouldRestart(config) {
          RespawnProcess();
        }
      }
    }

    /** The `i`-th pending restart timer fires. */
    method OnRestartTimer(i: nat, pkg: Option<PackageJson>, child: Handle)
      requires i < |timers|
      modifies this
      ensures Snap() == TimerFired(old(Snap()), i, processPath, pkg, child)
    {
      timers := timers[..i] + timers[i + 1..];
      var _ := SpawnProcess(pkg, child);
    }

    /** `#onreceiveData`: a multipart packet reaches the engine once; anything else is logged. */
    method OnReceiveData(m: Message)
      requires Valid()
      modifies analytics
      ensures Valid()
      ensures analytics.Abs() == match Classify(m)
        case Forward(p) => Request(old(analytics.Abs()), p)
        case LogToConsole => old(analytics.Abs())
    {
      var route := Classify(m);
      if route.Forward? {
        analytics.OnRequest(route.packet);
      }
    }
  }
}
