/** The rules of the tunnel orchestrator, stated on values: what starting, stopping,
    verifying, detecting and adopting tunnels does to the registry, the state file, the
    kubectl context and the set of launched and signalled processes.

    Everything the orchestrator asks of the operating system is a field of `Host`: the
    interface commands, the configured kubectl and kubeconfig paths, the environment
    handed to kubectl, process launch, kill, the per-pid liveness check, the `ps`
    listing, and whether reading or switching the kubectl context fails. */
module ForwardSpec {
  import opened Wrappers
  import opened Strings
  import opened Types
  import opened CommandBuilder
  import opened ProcessDetector
  import opened Interface
  import opened Registry
  import CC = ConfigCache

  /** One process launch: program, arguments and the environment entries set for it. */
  datatype Launch = Launch(program: string, args: seq<string>, env: seq<EnvVar>)

  /** The operating system and the stored settings as the orchestrator sees them. */
  datatype Host = Host(
    platform: Platform,
    run: Command -> CommandOutcome,
    windowsEnsure: string -> Result<(), AppError>,
    kubectlPath: Result<string, AppError>,
    kubeconfigPath: Result<Option<string>, AppError>,
    pathValue: string,
    ambient: map<string, string>,
    spawn: Launch -> Result<Pid, string>,
    kill: Pid -> Result<(), AppError>,
    isRunning: Pid -> Result<bool, AppError>,
    listing: Result<string, string>,
    readContextFault: Option<AppError>,
    setContextFault: string -> Option<AppError>)

  /** What the orchestrator changes: the registry entries, the file system, kubectl's
      current context, and the processes it launched and signalled, in order. */
  datatype World = World(
    processes: map<string, ProcessInfo>,
    disk: map<string, StateFile>,
    kubeContext: string,
    spawned: seq<Launch>,
    killed: seq<Pid>)

  // ---------------------------------------------------------------------------
  // Pieces of a start

  /** Whether saving the registry fails: only with a state path, and then exactly when
      one of the two file operations fails. */
  predicate SaveFails(statePath: Option<string>, io: SaveIo) {
    statePath.Some? && !(io.write.IoOk? && io.rename.IoOk?)
  }

  /** `save_state` on values: the result and the disk afterwards. */
  function Save(statePath: Option<string>, disk: map<string, StateFile>,
                processes: map<string, ProcessInfo>, io: SaveIo): (r: (Result<(), AppError>, map<string, StateFile>))
    ensures r.0.Err? <==> SaveFails(statePath, io)
    ensures statePath.None? ==> r.1 == disk
    ensures r.0.Ok? && statePath.Some? ==>
              statePath.value in r.1 && r.1[statePath.value] == Parsed(Snapshot(processes))
  {
    if statePath.None? then (Ok(()), disk)
    else Persist(disk, statePath.value, Snapshot(processes), io)
  }

  /** The interface step of a start: nothing without a local interface, otherwise the
      outcome of `ensure_interface_exists`. */
  function InterfaceReady(config: PortForwardConfig, host: Host): Result<(), AppError> {
    match config.localInterface
    case None => Ok(())
    case Some(iface) => SystemEnsure(host.platform, iface, host.run, host.windowsEnsure).result
  }

  /** `load_kubectl_path().unwrap_or_else(|_| "kubectl")`. */
  function KubectlPathOr(stored: Result<string, AppError>): string {
    match stored
    case Ok(p) => p
    case Err(_) => "kubectl"
  }

  /** `load_kubeconfig_path().ok().flatten()`. */
  function KubeconfigOr(stored: Result<Option<string>, AppError>): Option<string> {
    match stored
    case Ok(p) => p
    case Err(_) => None
  }

  /** The environment the kubectl builder sets. */
  function KubectlEnv(kubeconfig: Option<string>, host: Host): seq<EnvVar> {
    match kubeconfig
    case Some(k) => CredentialEnv(host.pathValue, host.ambient) + [("KUBECONFIG", k)]
    case None => CredentialEnv(host.pathValue, host.ambient)
  }

  /** The process a start launches for a definition. */
  function LaunchFor(config: PortForwardConfig, host: Host): (l: Launch)
    ensures config.forwardType == Kubectl ==>
              l.program == KubectlPathOr(host.kubectlPath) && l.args == KubectlArgs(config)
              && |l.env| >= 1 && l.env[0] == ("PATH", host.pathValue)
    ensures config.forwardType == Ssh ==> l == Launch("ssh", SshArgs(config), [])
  {
    if config.forwardType == Kubectl then
      Launch(KubectlPathOr(host.kubectlPath), KubectlArgs(config), KubectlEnv(KubeconfigOr(host.kubeconfigPath), host))
    else
      Launch("ssh", SshArgs(config), [])
  }

  /** The error a failed launch is reported as. */
  function SpawnError(t: ForwardType, e: string): AppError {
    match t
    case Kubectl => PortForwardError(e)
    case Ssh => PortForwardError("Failed to start SSH: " + e)
  }

  /** The message of a successful start. */
  function StartedMessage(config: PortForwardConfig, pid: Pid): string {
    var kind := if config.forwardType == Kubectl then " kubectl port forwarding started with PID: "
                else " SSH port forwarding started with PID: ";
    config.name + kind + NatToString(pid)
  }

  function AlreadyRunning(name: string): AppError {
    PortForwardError(name + " port forwarding is already running")
  }

  function NotRunning(name: string): AppError {
    NotFound(name + " port forwarding is not running")
  }

  /** `execute_kubectl_port_forward` / `execute_ssh_port_forward`: the interface, then
      the launch, then the registration and its save. */
  function Execute(config: PortForwardConfig, host: Host, w: World, statePath: Option<string>,
                   now: Instant, io: SaveIo): (Result<string, AppError>, World)
  {
    var ready := InterfaceReady(config, host);
    if ready.Err? then (Err(ready.error), w)
    else
      var launch := LaunchFor(config, host);
      var w1 := w.(spawned := w.spawned + [launch]);
      match host.spawn(launch)
      case Err(e) => (Err(SpawnError(config.forwardType, e)), w1)
      case Ok(pid) =>
        var ps := w.processes[config.name := ProcessInfo(pid, config, now)];
        var (saved, disk) := Save(statePath, w.disk, ps, io);
        (if saved.Err? then Err(saved.error) else Ok(StartedMessage(config, pid)),
         w1.(processes := ps, disk := disk))
  }

  /** `start_port_forward_generic`: a name already registered is refused; a kubectl
      tunnel switches to its context for the launch and switches back afterwards. */
  function StartSpec(config: PortForwardConfig, host: Host, w: World, statePath: Option<string>,
                     now: Instant, io: SaveIo): (Result<string, AppError>, World)
  {
    if config.name in w.processes then (Err(AlreadyRunning(config.name)), w)
    else if config.forwardType == Kubectl then
      if host.readContextFault.Some? then (Err(host.readContextFault.value), w)
      else if host.setContextFault(config.context).Some? then (Err(host.setContextFault(config.context).value), w)
      else
        var (result, w1) := Execute(config, host, w.(kubeContext := config.context), statePath, now, io);
        (result, if host.setContextFault(w.kubeContext).None? then w1.(kubeContext := w.kubeContext) else w1)
    else
      Execute(config, host, w, statePath, now, io)
  }

  /** The checks of a start before its execution phase succeed: the name is free and,
      for kubectl, the context is read and switched. */
  predicate PassesChecks(config: PortForwardConfig, host: Host, w: World) {
    && config.name !in w.processes
    && (config.forwardType == Kubectl ==>
          host.readContextFault.None? && host.setContextFault(config.context).None?)
  }

  /** The steps of a start before the launch all succeed. */
  predicate ReachesLaunch(config: PortForwardConfig, host: Host, w: World) {
    PassesChecks(config, host, w) && InterfaceReady(config, host).Ok?
  }

  // ---------------------------------------------------------------------------
  // Properties of a start

  /** The execution phase: the interface step decides whether anything is launched,
      the launch whether anything is registered; the context and the kills are never
      touched. */
  lemma ExecuteSteps(config: PortForwardConfig, host: Host, w: World, statePath: Option<string>,
                     now: Instant, io: SaveIo)
    ensures var r := Execute(config, host, w, statePath, now, io);
            && r.1.kubeContext == w.kubeContext && r.1.killed == w.killed
            && (InterfaceReady(config, host).Err? ==> r == (Err(InterfaceReady(config, host).error), w))
            && (InterfaceReady(config, host).Ok? ==> r.1.spawned == w.spawned + [LaunchFor(config, host)])
            && (InterfaceReady(config, host).Ok? && host.spawn(LaunchFor(config, host)).Err? ==>
                  r.0 == Err(SpawnError(config.forwardType, host.spawn(LaunchFor(config, host)).error))
                  && r.1.processes == w.processes && r.1.disk == w.disk)
            && (InterfaceReady(config, host).Ok? && host.spawn(LaunchFor(config, host)).Ok? ==>
                  var pid := host.spawn(LaunchFor(config, host)).value;
                  && r.1.processes == w.processes[config.name := ProcessInfo(pid, config, now)]
                  && (r.0.Ok? <==> !SaveFails(statePath, io))
                  && (r.0.Ok? ==> r.0.value == StartedMessage(config, pid))
                  && r.1.disk == Save(statePath, w.disk, r.1.processes, io).1)
  {
  }

  /** The world a start works on once it has switched context. */
  function Switched(config: PortForwardConfig, w: World): World {
    if config.forwardType == Kubectl then w.(kubeContext := config.context) else w
  }

  /** When every step before the launch succeeds, a start is its execution phase, up to
      the context. */
  lemma StartIsExecute(config: PortForwardConfig, host: Host, w: World, statePath: Option<string>,
                       now: Instant, io: SaveIo)
    requires PassesChecks(config, host, w)
    ensures var r := StartSpec(config, host, w, statePath, now, io);
            var e := Execute(config, host, Switched(config, w), statePath, now, io);
            r.0 == e.0 && r.1.(kubeContext := e.1.kubeContext) == e.1
  {
  }

  /** A name already registered is refused and nothing changes. */
  lemma StartRejectsRegistered(config: PortForwardConfig, host: Host, w: World, statePath: Option<string>,
                               now: Instant, io: SaveIo)
    requires config.name in w.processes
    ensures StartSpec(config, host, w, statePath, now, io) == (Err(AlreadyRunning(config.name)), w)
  {
  }

  /** An ssh tunnel never touches the kubectl context; a kubectl tunnel leaves the
      original context in place whether or not the start succeeds, unless switching
      back itself fails. */
  lemma StartRestoresContext(config: PortForwardConfig, host: Host, w: World, statePath: Option<string>,
                             now: Instant, io: SaveIo)
    ensures config.forwardType == Ssh ==> StartSpec(config, host, w, statePath, now, io).1.kubeContext == w.kubeContext
    ensures host.setContextFault(w.kubeContext).None? ==>
              StartSpec(config, host, w, statePath, now, io).1.kubeContext == w.kubeContext
  {
  }

  /** Nothing is launched, registered or saved unless every step before the launch
      succeeds; in particular a failing interface step comes before any launch. */
  lemma StartLaunchesOnlyWhenReady(config: PortForwardConfig, host: Host, w: World, statePath: Option<string>,
                                   now: Instant, io: SaveIo)
    ensures var r := StartSpec(config, host, w, statePath, now, io);
            !ReachesLaunch(config, host, w) ==>
              r.0.Err? && r.1.spawned == w.spawned && r.1.processes == w.processes && r.1.disk == w.disk
    ensures var r := StartSpec(config, host, w, statePath, now, io);
            ReachesLaunch(config, host, w) ==> r.1.spawned == w.spawned + [LaunchFor(config, host)]
    ensures config.name !in w.processes && config.forwardType == Ssh && InterfaceReady(config, host).Err? ==>
              StartSpec(config, host, w, statePath, now, io).0 == Err(InterfaceReady(config, host).error)
  {
    if PassesChecks(config, host, w) {
      ExecuteSteps(config, host, Switched(config, w), statePath, now, io);
      StartIsExecute(config, host, w, statePath, now, io);
    }
  }

  /** A failed launch registers nothing and reports the launch error. */
  lemma StartSpawnFailure(config: PortForwardConfig, host: Host, w: World, statePath: Option<string>,
                          now: Instant, io: SaveIo)
    requires ReachesLaunch(config, host, w)
    requires host.spawn(LaunchFor(config, host)).Err?
    ensures var r := StartSpec(config, host, w, statePath, now, io);
            r.0 == Err(SpawnError(config.forwardType, host.spawn(LaunchFor(config, host)).error))
            && r.1.processes == w.processes && r.1.disk == w.disk
  {
    ExecuteSteps(config, host, Switched(config, w), statePath, now, io);
    StartIsExecute(config, host, w, statePath, now, io);
  }

  /** A successful launch registers the name with the launched pid and the definition,
      saves the registry, and touches no other entry. If the save fails the start is
      reported as failed although the entry stays registered in memory. */
  lemma StartRegisters(config: PortForwardConfig, host: Host, w: World, statePath: Option<string>,
                       now: Instant, io: SaveIo)
    requires ReachesLaunch(config, host, w)
    requires host.spawn(LaunchFor(config, host)).Ok?
    ensures var r := StartSpec(config, host, w, statePath, now, io);
            var pid := host.spawn(LaunchFor(config, host)).value;
            && r.1.processes == w.processes[config.name := ProcessInfo(pid, config, now)]
            && (r.0.Ok? <==> !SaveFails(statePath, io))
            && (r.0.Ok? ==> r.0.value == StartedMessage(config, pid))
            && (r.0.Ok? && statePath.Some? ==>
                  statePath.value in r.1.disk && r.1.disk[statePath.value] == Parsed(Snapshot(r.1.processes)))
  {
    ExecuteSteps(config, host, Switched(config, w), statePath, now, io);
    StartIsExecute(config, host, w, statePath, now, io);
  }

  /** A start only ever changes the entry under its own name. */
  lemma StartTouchesOnlyItsName(config: PortForwardConfig, host: Host, w: World, statePath: Option<string>,
                                now: Instant, io: SaveIo, n: string)
    requires n != config.name
    ensures var ps := StartSpec(config, host, w, statePath, now, io).1.processes;
            (n in ps <==> n in w.processes) && (n in ps ==> ps[n] == w.processes[n])
  {
    if ReachesLaunch(config, host, w) {
      ExecuteSteps(config, host, Switched(config, w), statePath, now, io);
      StartIsExecute(config, host, w, statePath, now, io);
    } else {
      StartLaunchesOnlyWhenReady(config, host, w, statePath, now, io);
    }
  }

  // ---------------------------------------------------------------------------
  // Stop

  /** `stop_port_forward`: the entry is removed (and the registry saved) first; then an
      absent name is `NotFound`, and otherwise the process is killed. */
  function StopSpec(name: string, host: Host, w: World, statePath: Option<string>, io: SaveIo)
    : (Result<string, AppError>, World)
  {
    var ps := w.processes - {name};
    var (saved, disk) := Save(statePath, w.disk, ps, io);
    var w1 := w.(processes := ps, disk := disk);
    if saved.Err? then (Err(saved.error), w1)
    else if name !in w.processes then (Err(NotRunning(name)), w1)
    else
      var pid := w.processes[name].pid;
      var w2 := w1.(killed := w.killed + [pid]);
      match host.kill(pid)
      case Err(e) => (Err(e), w2)
      case Ok(_) => (Ok("Stopped " + name + " port forwarding (PID: " + NatToString(pid) + ")"), w2)
  }

  /** After a stop the name is never registered, whatever else happens, and no other
      entry changes. */
  lemma StopRemovesFirst(name: string, host: Host, w: World, statePath: Option<string>, io: SaveIo)
    ensures StopSpec(name, host, w, statePath, io).1.processes == w.processes - {name}
    ensures name !in StopSpec(name, host, w, statePath, io).1.processes
  {
  }

  /** Stopping a name that is not registered is `NotFound` and signals nothing. */
  lemma StopNotRunning(name: string, host: Host, w: World, statePath: Option<string>, io: SaveIo)
    requires name !in w.processes && !SaveFails(statePath, io)
    ensures StopSpec(name, host, w, statePath, io).0 == Err(NotRunning(name))
    ensures StopSpec(name, host, w, statePath, io).1.killed == w.killed
  {
  }

  /** A registered name is killed by its pid; a kill failure is reported but the entry
      stays removed. */
  lemma StopKills(name: string, host: Host, w: World, statePath: Option<string>, io: SaveIo)
    requires name in w.processes && !SaveFails(statePath, io)
    ensures var r := StopSpec(name, host, w, statePath, io);
            && r.1.killed == w.killed + [w.processes[name].pid]
            && (r.0.Ok? <==> host.kill(w.processes[name].pid).Ok?)
            && (r.0.Err? ==> r.0.error == host.kill(w.processes[name].pid).error)
  {
  }

  /** When the save after the removal fails, the stop reports the save error and the
      process is not signalled, although its entry is gone from the registry. */
  lemma StopSaveFailureSkipsKill(name: string, host: Host, w: World, statePath: Option<string>, io: SaveIo)
    requires SaveFails(statePath, io)
    ensures var r := StopSpec(name, host, w, statePath, io);
            r.0.Err? && r.1.killed == w.killed && name !in r.1.processes
  {
  }

  // ---------------------------------------------------------------------------
  // Verification of registered pids

  /** The registry after pruning: the entries whose pid is not reported dead. */
  function Pruned(processes: map<string, ProcessInfo>, isRunning: Pid -> Result<bool, AppError>)
    : (m: map<string, ProcessInfo>)
    ensures forall n :: n in m <==> n in processes && isRunning(processes[n].pid) != Ok(false)
    ensures forall n :: n in m ==> m[n] == processes[n]
  {
    map n | n in processes && isRunning(processes[n].pid) != Ok(false) :: processes[n]
  }

  /** Pruning twice is pruning once. */
  lemma PrunedIdempotent(processes: map<string, ProcessInfo>, isRunning: Pid -> Result<bool, AppError>)
    ensures Pruned(Pruned(processes, isRunning), isRunning) == Pruned(processes, isRunning)
  {
  }

  /** The name column of a verification. */
  function ResultNames(results: seq<(string, bool)>): (names: seq<string>)
    ensures |names| == |results|
    ensures forall i :: 0 <= i < |results| ==> names[i] == results[i].0
  {
    seq(|results|, i requires 0 <= i < |results| => results[i].0)
  }

  /** `results` reports every entry of `processes` exactly once with whether its pid runs. */
  predicate IsVerification(results: seq<(string, bool)>, processes: map<string, ProcessInfo>,
                           isRunning: Pid -> Result<bool, AppError>)
  {
    && |results| == |processes|
    && (forall i, j :: 0 <= i < j < |results| ==> results[i].0 != results[j].0)
    && (forall i :: 0 <= i < |results| ==>
          results[i].0 in processes && results[i].1 == (isRunning(processes[results[i].0].pid) == Ok(true)))
    && (forall n :: n in processes ==> n in ResultNames(results))
  }

  /** The names a verification reports as not running, in order
      (`verify_and_update_port_forwards`). */
  function StoppedNames(results: seq<(string, bool)>): (names: seq<string>)
    ensures forall n :: n in names <==> (n, false) in results
    ensures |names| <= |results|
  {
    if results == [] then []
    else
      var last := results[|results| - 1];
      var init := StoppedNames(results[..|results| - 1]);
      assert results == results[..|results| - 1] + [last];
      init + (if last.1 then [] else [last.0])
  }

  /** Every name a verification reports as stopped is registered and its pid is not
      reported running. */
  lemma StoppedOnlyDead(results: seq<(string, bool)>, processes: map<string, ProcessInfo>,
                        isRunning: Pid -> Result<bool, AppError>, n: string)
    requires IsVerification(results, processes, isRunning)
    requires n in StoppedNames(results)
    ensures n in processes && isRunning(processes[n].pid) != Ok(true)
  {
    assert (n, false) in results;
    var i :| 0 <= i < |results| && results[i] == (n, false);
    assert results[i].0 in processes;
  }

  /** Every registered name whose pid is reported dead is reported as stopped. */
  lemma StoppedIncludesDead(results: seq<(string, bool)>, processes: map<string, ProcessInfo>,
                            isRunning: Pid -> Result<bool, AppError>, n: string)
    requires IsVerification(results, processes, isRunning)
    requires n in processes && isRunning(processes[n].pid) == Ok(false)
    ensures n in StoppedNames(results)
  {
    assert n in ResultNames(results);
    var i :| 0 <= i < |results| && ResultNames(results)[i] == n;
    assert results[i].0 == n;
    assert results[i] == (n, false);
  }

  /** When every probe answered, a verification names as stopped exactly the registered
      tunnels whose pid is reported dead. */
  lemma StoppedAreDead(results: seq<(string, bool)>, processes: map<string, ProcessInfo>,
                       isRunning: Pid -> Result<bool, AppError>, n: string)
    requires IsVerification(results, processes, isRunning)
    requires n in processes ==> isRunning(processes[n].pid).Ok?
    ensures n in StoppedNames(results) <==> n in processes && isRunning(processes[n].pid) == Ok(false)
  {
    if n in StoppedNames(results) {
      StoppedOnlyDead(results, processes, isRunning, n);
      var v := isRunning(processes[n].pid);
      assert v.Ok? && v.value != true;
      assert v == Ok(false);
    }
    if n in processes && isRunning(processes[n].pid) == Ok(false) {
      StoppedIncludesDead(results, processes, isRunning, n);
    }
  }

  /** A listing whose dead entries were removed leaves exactly the pruned registry. */
  lemma PrunedFromListing(entries: seq<(string, Pid)>, initial: map<string, ProcessInfo>,
                          current: map<string, ProcessInfo>, isRunning: Pid -> Result<bool, AppError>)
    requires IsListing(entries, initial)
    requires forall j :: 0 <= j < |entries| ==> (entries[j].0 in current <==> isRunning(entries[j].1) != Ok(false))
    requires forall n :: n in current ==> n in initial && current[n] == initial[n]
    ensures current == Pruned(initial, isRunning)
  {
    forall n | n in initial
      ensures n in current <==> isRunning(initial[n].pid) != Ok(false)
    {
      assert n in Names(entries);
      var j :| 0 <= j < |entries| && Names(entries)[j] == n;
    }
  }

  // ---------------------------------------------------------------------------
  // Detection and adoption of tunnels started elsewhere

  /** The names of the definitions whose kubectl process is seen in the listing and
      that are not registered, in definition order. */
  function DetectedNames(cs: seq<PortForwardConfig>, listing: Result<string, string>, registered: set<string>)
    : (names: seq<string>)
    ensures |names| <= |cs|
  {
    Unregistered(cs, SeenIn(listing), registered)
  }

  /** The names of the definitions `seen` picks that are not registered, in definition
      order. */
  function Unregistered(cs: seq<PortForwardConfig>, seen: PortForwardConfig -> bool, registered: set<string>)
    : (names: seq<string>)
    ensures |names| <= |cs|
  {
    if cs == [] then []
    else
      var last := cs[|cs| - 1];
      Unregistered(cs[..|cs| - 1], seen, registered)
      + (if seen(last) && last.name !in registered then [last.name] else [])
  }

  /** Detection fails exactly when the listing fails and some definition is a kubectl
      one (ssh definitions never consult it). */
  predicate DetectFails(cs: seq<PortForwardConfig>, listing: Result<string, string>) {
    listing.Err? && exists i :: 0 <= i < |cs| && cs[i].forwardType == Kubectl
  }

  /** Whether the detector sees a definition's kubectl process in the listing. */
  predicate SeenRunning(c: PortForwardConfig, listing: Result<string, string>) {
    IsKubectlProcessRunning(c, listing) == Ok(true)
  }

  /** `SeenRunning` for one listing, as a test on definitions. */
  function SeenIn(listing: Result<string, string>): PortForwardConfig -> bool {
    c => SeenRunning(c, listing)
  }

  /** A picked name is unregistered and belongs to a definition `seen` picks. */
  lemma {:induction false} DetectedOnlyRunning(cs: seq<PortForwardConfig>, seen: PortForwardConfig -> bool,
                                               registered: set<string>, n: string)
    requires n in Unregistered(cs, seen, registered)
    ensures n !in registered
    ensures exists i :: 0 <= i < |cs| && cs[i].name == n && seen(cs[i])
  {
    var init := cs[..|cs| - 1];
    if n in Unregistered(init, seen, registered) {
      DetectedOnlyRunning(init, seen, registered, n);
      var i :| 0 <= i < |init| && init[i].name == n && seen(init[i]);
      assert cs[i] == init[i];
    } else {
      assert cs[|cs| - 1].name == n;
    }
  }

  /** An unregistered name of a definition `seen` picks is picked. */
  lemma {:induction false} DetectedAllRunning(cs: seq<PortForwardConfig>, seen: PortForwardConfig -> bool,
                                              registered: set<string>, i: nat)
    requires i < |cs| && seen(cs[i]) && cs[i].name !in registered
    ensures cs[i].name in Unregistered(cs, seen, registered)
  {
    var init := cs[..|cs| - 1];
    if i < |cs| - 1 {
      assert init[i] == cs[i];
      DetectedAllRunning(init, seen, registered, i);
    }
  }

  /** A name is detected iff it is unregistered and some definition with that name is
      seen running; a detected name therefore comes with a successful listing. */
  lemma DetectedExactly(cs: seq<PortForwardConfig>, listing: Result<string, string>,
                        registered: set<string>, n: string)
    ensures n in DetectedNames(cs, listing, registered) <==>
              n !in registered && exists i :: 0 <= i < |cs| && cs[i].name == n && SeenRunning(cs[i], listing)
    ensures n in DetectedNames(cs, listing, registered) ==> listing.Ok?
  {
    var seen := SeenIn(listing);
    assert forall c :: seen(c) == SeenRunning(c, listing);
    if n in DetectedNames(cs, listing, registered) {
      DetectedOnlyRunning(cs, seen, registered, n);
    } else if n !in registered {
      forall i | 0 <= i < |cs| && cs[i].name == n
        ensures !SeenRunning(cs[i], listing)
      {
        if SeenRunning(cs[i], listing) {
          DetectedAllRunning(cs, seen, registered, i);
        }
      }
    }
  }

  /** One adoption: the name, the pid found for it and its definition. */
  type Adoption = (string, Pid, PortForwardConfig)

  /** The pid the detector reads for a definition from one listing. */
  function PidIn(listing: Result<string, string>): PortForwardConfig -> Result<Option<Pid>, AppError> {
    c => FindKubectlProcessPid(c, listing)
  }

  /** The adoption of one detected name: its first definition and the pid `pidOf` reads
      for that definition, when both exist. */
  function AdoptionFor(name: string, cs: seq<PortForwardConfig>, pidOf: PortForwardConfig -> Result<Option<Pid>, AppError>)
    : (a: seq<Adoption>)
    ensures |a| <= 1
    ensures |a| == 1 ==> a[0].0 == name && CC.Find(cs, name) == Some(a[0].2) && pidOf(a[0].2) == Ok(Some(a[0].1))
  {
    match CC.Find(cs, name)
    case None => []
    case Some(c) =>
      match pidOf(c)
      case Ok(Some(pid)) => [(name, pid, c)]
      case _ => []
  }

  /** `AdoptionFor` for one definition list, as a function of the name. */
  function AdoptIn(cs: seq<PortForwardConfig>, pidOf: PortForwardConfig -> Result<Option<Pid>, AppError>)
    : string -> seq<Adoption>
  {
    n => AdoptionFor(n, cs, pidOf)
  }

  /** The adoptions `adopt` makes for the names, in order. */
  function Plan(names: seq<string>, adopt: string -> seq<Adoption>): seq<Adoption> {
    if names == [] then []
    else adopt(names[0]) + Plan(names[1..], adopt)
  }

  /** `sync_with_existing_processes` after detection: the adoptions of the detected names,
      in order, with the pids `pidOf` reads (the detector on one listing, `PidIn`). */
  function SyncPlan(names: seq<string>, cs: seq<PortForwardConfig>, pidOf: PortForwardConfig -> Result<Option<Pid>, AppError>)
    : seq<Adoption>
  {
    Plan(names, AdoptIn(cs, pidOf))
  }

  /** Every adoption of a plan is one `adopt` makes for one of the names. */
  lemma {:induction false} PlanFromNames(names: seq<string>, adopt: string -> seq<Adoption>, k: nat)
    requires k < |Plan(names, adopt)|
    ensures exists j :: 0 <= j < |names| && Plan(names, adopt)[k] in adopt(names[j])
  {
    var first := adopt(names[0]);
    var plan := Plan(names, adopt);
    if k < |first| {
      assert plan[k] == first[k];
    } else {
      PlanFromNames(names[1..], adopt, k - |first|);
      var j :| 0 <= j < |names[1..]| && Plan(names[1..], adopt)[k - |first|] in adopt(names[1..][j]);
      assert plan[k] == Plan(names[1..], adopt)[k - |first|];
      assert names[1..][j] == names[j + 1];
    }
  }

  /** Every adoption of a plan is for one of the names, with the name's first
      definition and the pid read for it. */
  lemma SyncPlanSound(names: seq<string>, cs: seq<PortForwardConfig>,
                      pidOf: PortForwardConfig -> Result<Option<Pid>, AppError>, k: nat)
    requires k < |SyncPlan(names, cs, pidOf)|
    ensures var a := SyncPlan(names, cs, pidOf)[k];
            a.0 in names && CC.Find(cs, a.0) == Some(a.2) && pidOf(a.2) == Ok(Some(a.1))
  {
    var a := SyncPlan(names, cs, pidOf)[k];
    var adopt := AdoptIn(cs, pidOf);
    PlanFromNames(names, adopt, k);
    var j :| 0 <= j < |names| && a in adopt(names[j]);
    var found := AdoptionFor(names[j], cs, pidOf);
    assert adopt(names[j]) == found;
    assert |found| == 1 && a == found[0];
  }

  /** The names of a plan. */
  function PlanNames(plan: seq<Adoption>): (names: seq<string>)
    ensures |names| == |plan|
    ensures forall k :: 0 <= k < |plan| ==> names[k] == plan[k].0
  {
    seq(|plan|, k requires 0 <= k < |plan| => plan[k].0)
  }

  /** The registry after registering a plan's adoptions in order (`add_process` each). */
  function Apply(processes: map<string, ProcessInfo>, plan: seq<Adoption>, now: Instant)
    : (m: map<string, ProcessInfo>)
    ensures forall n :: n in m <==> n in processes || n in PlanNames(plan)
  {
    if plan == [] then processes
    else
      var last := plan[|plan| - 1];
      var init := plan[..|plan| - 1];
      assert PlanNames(plan) == PlanNames(init) + [last.0];
      Apply(processes, init, now)[last.0 := ProcessInfo(last.1, last.2, now)]
  }

  /** Adoption never overwrites a tunnel that was already registered: a plan built from
      detected names, which are all unregistered, leaves every old entry as it was. */
  lemma {:induction false} ApplyKeepsRegistered(processes: map<string, ProcessInfo>, plan: seq<Adoption>,
                                                now: Instant, n: string)
    requires forall k :: 0 <= k < |plan| ==> plan[k].0 !in processes
    requires n in processes
    ensures n in Apply(processes, plan, now) && Apply(processes, plan, now)[n] == processes[n]
  {
    if plan != [] {
      ApplyKeepsRegistered(processes, plan[..|plan| - 1], now, n);
      assert plan[|plan| - 1].0 != n;
    }
  }

  /** Every name of a sync plan was detected, so none was registered before. */
  lemma SyncPlanUnregistered(cs: seq<PortForwardConfig>, listing: Result<string, string>,
                             processes: map<string, ProcessInfo>, k: nat)
    requires k < |SyncPlan(DetectedNames(cs, listing, processes.Keys), cs, PidIn(listing))|
    ensures SyncPlan(DetectedNames(cs, listing, processes.Keys), cs, PidIn(listing))[k].0 !in processes
  {
    var names := DetectedNames(cs, listing, processes.Keys);
    var n := SyncPlan(names, cs, PidIn(listing))[k].0;
    SyncPlanSound(names, cs, PidIn(listing), k);
    DetectedExactly(cs, listing, processes.Keys, n);
  }

  // ---------------------------------------------------------------------------
  // Renaming

  /** `update_process_name` on the entries: the entry moves to the new name and its
      definition takes that name. */
  function Renamed(processes: map<string, ProcessInfo>, oldName: string, newName: string)
    : (m: map<string, ProcessInfo>)
    ensures oldName !in processes ==> m == processes
    ensures oldName in processes ==> newName in m && m[newName].pid == processes[oldName].pid
                                     && m[newName].config.name == newName
    ensures oldName in processes && oldName != newName ==> oldName !in m
  {
    if oldName in processes then
      var info := processes[oldName];
      (processes - {oldName})[newName := info.(config := info.config.(name := newName))]
    else processes
  }
}
