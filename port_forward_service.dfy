/** `PortForwardService`: the tunnel orchestrator as an object over a process registry
    and a config cache. Each operation is proved against the value-level rules of
    `ForwardSpec`: the method's outcome and the new state are exactly what the rule
    computes from the old state, and the rule's properties are lemmas there.

    kubectl's current context, the launches and the kill signals are fields of the
    service, so that a start or a stop can be stated as a change of `State()`. */
module ForwardService {
  import opened Wrappers
  import opened Strings
  import opened Types
  import opened CommandBuilder
  import opened ProcessDetector
  import opened Registry
  import opened ForwardSpec
  import CC = ConfigCache

  class PortForwardService {
    /** The process registry shared with the rest of the application. */
    const registry: ProcessManager
    /** The cached config list. */
    const cache: CC.ConfigCache
    /** kubectl's current context. */
    var kubeContext: string
    /** Every process launched, in order. */
    var spawned: seq<Launch>
    /** Every pid signalled, in order. */
    var killed: seq<Pid>

    ghost predicate Valid()
      reads this, cache
    {
      cache.Valid()
    }

    /** The orchestrator's world as `ForwardSpec` sees it. */
    function State(): World
      reads this, registry
    {
      World(registry.processes, registry.disk, kubeContext, spawned, killed)
    }

    /** `new`: a service over a registry, with a fresh cache over the stored list. */
    constructor New(processManager: ProcessManager, store: seq<PortForwardConfig>, context: string)
      ensures Valid()
      ensures registry == processManager && cache.stored == store && fresh(cache)
      ensures kubeContext == context && spawned == [] && killed == []
    {
      registry := processManager;
      cache := new CC.ConfigCache.New(store);
      kubeContext := context;
      spawned := [];
      killed := [];
    }

    // -------------------------------------------------------------------------
    // kubectl's context

    /** `get_current_context`. */
    method GetCurrentContext(host: Host) returns (r: Result<string, AppError>)
      ensures host.readContextFault.Some? ==> r == Err(host.readContextFault.value)
      ensures host.readContextFault.None? ==> r == Ok(kubeContext)
    {
      if host.readContextFault.Some? {
        return Err(host.readContextFault.value);
      }
      return Ok(kubeContext);
    }

    /** `set_context`: switches kubectl's context unless the switch fails. */
    method SetContext(context: string, host: Host) returns (r: Result<(), AppError>)
      modifies this`kubeContext
      ensures host.setContextFault(context).Some? ==>
                r == Err(host.setContextFault(context).value) && kubeContext == old(kubeContext)
      ensures host.setContextFault(context).None? ==> r == Ok(()) && kubeContext == context
    {
      if host.setContextFault(context).Some? {
        return Err(host.setContextFault(context).value);
      }
      kubeContext := context;
      return Ok(());
    }

    // -------------------------------------------------------------------------
    // Start

    /** `execute_kubectl_port_forward`. */
    method ExecuteKubectl(config: PortForwardConfig, host: Host, now: Instant, io: SaveIo)
      returns (r: Result<string, AppError>)
      requires config.forwardType == Kubectl
      modifies this`spawned, registry
      ensures (r, State()) == Execute(config, host, old(State()), registry.statePath, now, io)
    {
      var ready := InterfaceReady(config, host);
      if ready.Err? {
        return Err(ready.error);
      }
      var builder := KubectlCommandBuilder(KubectlPathOr(host.kubectlPath), KubeconfigOr(host.kubeconfigPath));
      var program, args, env := builder.BuildPortForwardCommand(config, host.pathValue, host.ambient);
      var launch := Launch(program, args, env);
      assert launch == LaunchFor(config, host);
      spawned := spawned + [launch];
      var child := host.spawn(launch);
      if child.Err? {
        return Err(PortForwardError(child.error));
      }
      var added := registry.AddProcess(config.name, child.value, config, now, io);
      if added.Err? {
        return Err(added.error);
      }
      return Ok(config.name + " kubectl port forwarding started with PID: " + NatToString(child.value));
    }

    /** `execute_ssh_port_forward`. */
    method ExecuteSsh(config: PortForwardConfig, host: Host, now: Instant, io: SaveIo)
      returns (r: Result<string, AppError>)
      requires config.forwardType == Ssh
      modifies this`spawned, registry
      ensures (r, State()) == Execute(config, host, old(State()), registry.statePath, now, io)
    {
      var ready := InterfaceReady(config, host);
      if ready.Err? {
        return Err(ready.error);
      }
      var program, args := BuildSshCommand(config);
      var launch := Launch(program, args, []);
      spawned := spawned + [launch];
      var child := host.spawn(launch);
      if child.Err? {
        return Err(PortForwardError("Failed to start SSH: " + child.error));
      }
      var added := registry.AddProcess(config.name, child.value, config, now, io);
      if added.Err? {
        return Err(added.error);
      }
      return Ok(config.name + " SSH port forwarding started with PID: " + NatToString(child.value));
    }

    /** `start_port_forward_generic`. */
    method StartPortForward(config: PortForwardConfig, host: Host, now: Instant, io: SaveIo)
      returns (r: Result<string, AppError>)
      modifies this`spawned, this`kubeContext, registry
      ensures (r, State()) == StartSpec(config, host, old(State()), registry.statePath, now, io)
    {
      var running := registry.ContainsProcess(config.name);
      if running {
        return Err(AlreadyRunning(config.name));
      }
      var original: Option<string> := None;
      if config.forwardType == Kubectl {
        var current := GetCurrentContext(host);
        if current.Err? {
          return Err(current.error);
        }
        var switched := SetContext(config.context, host);
        if switched.Err? {
          return Err(switched.error);
        }
        original := Some(current.value);
      }
      if config.forwardType == Kubectl {
        r := ExecuteKubectl(config, host, now, io);
      } else {
        r := ExecuteSsh(config, host, now, io);
      }
      if original.Some? {
        var restored := SetContext(original.value, host);
      }
    }

    /** `start_port_forward_by_key`: the first config with the key, started; an unknown
        key is `NotFound`. */
    method StartPortForwardByKey(key: string, host: Host, now: Instant, loadFault: Option<AppError>, io: SaveIo)
      returns (r: Result<string, AppError>)
      requires Valid()
      modifies this`spawned, this`kubeContext, registry, cache`configs, cache`lastUpdated
      ensures Valid() && cache.stored == old(cache.stored)
      ensures old(cache.LoadFails(now, loadFault)) ==> r == Err(loadFault.value) && State() == old(State())
      ensures !old(cache.LoadFails(now, loadFault)) && CC.Find(cache.stored, key).None? ==>
                r == Err(NotFound("Configuration not found for service: " + key)) && State() == old(State())
      ensures !old(cache.LoadFails(now, loadFault)) && CC.Find(cache.stored, key).Some? ==>
                (r, State()) == StartSpec(CC.Find(cache.stored, key).value, host, old(State()), registry.statePath, now, io)
    {
      var found := cache.FindConfig(key, now, loadFault);
      if found.Err? {
        return Err(found.error);
      }
      if found.value.None? {
        return Err(NotFound("Configuration not found for service: " + key));
      }
      r := StartPortForward(found.value.value, host, now, io);
    }

    // -------------------------------------------------------------------------
    // Stop and cleanup

    /** `stop_port_forward`. */
    method StopPortForward(name: string, host: Host, io: SaveIo) returns (r: Result<string, AppError>)
      modifies this`killed, registry
      ensures (r, State()) == StopSpec(name, host, old(State()), registry.statePath, io)
    {
      var removed := registry.RemoveProcess(name, io);
      if removed.Err? {
        return Err(removed.error);
      }
      if removed.value.None? {
        return Err(NotRunning(name));
      }
      var pid := removed.value.value;
      killed := killed + [pid];
      var signalled := host.kill(pid);
      if signalled.Err? {
        return Err(signalled.error);
      }
      return Ok("Stopped " + name + " port forwarding (PID: " + NatToString(pid) + ")");
    }

    /** `cleanup_all_port_forwards`: the registry is emptied and saved, then every pid it
        held is signalled once, kill failures ignored; a failed save signals nothing. */
    method CleanupAllPortForwards(host: Host, io: SaveIo) returns (r: Result<(), AppError>)
      modifies this`killed, registry
      ensures registry.processes == map[]
      ensures registry.disk == Save(registry.statePath, old(registry.disk), map[], io).1
      ensures r.Err? <==> SaveFails(registry.statePath, io)
      ensures r.Err? ==> killed == old(killed)
      ensures r.Ok? ==> exists entries :: IsListing(entries, old(registry.processes))
                                          && killed == old(killed) + Pids(entries)
    {
      var pids := registry.CleanupAll(io);
      if pids.Err? {
        return Err(pids.error);
      }
      KillAll(host, pids.value);
      return Ok(());
    }

    /** The loop of `cleanup_all_port_forwards`: every pid is signalled once, in order,
        whatever the signal returns. */
    method KillAll(host: Host, ps: seq<Pid>)
      modifies this`killed
      ensures killed == old(killed) + ps
    {
      for i := 0 to |ps|
        invariant killed == old(killed) + ps[..i]
      {
        var ignored := host.kill(ps[i]);
        killed := killed + [ps[i]];
      }
      assert ps[..|ps|] == ps;
    }

    // -------------------------------------------------------------------------
    // Verification

    /** `verify_port_forwards`: every registered pid is probed, in listing order, and the
        entries reported dead are removed. The first probe error aborts, leaving the
        removals made so far. */
    method VerifyPortForwards(host: Host, io: SaveIo) returns (r: Result<seq<(string, bool)>, AppError>)
      modifies registry
      ensures r.Ok? ==> IsVerification(r.value, old(registry.processes), host.isRunning)
      ensures r.Ok? ==> registry.processes == Pruned(old(registry.processes), host.isRunning)
      ensures r.Ok? ==> forall n :: n in old(registry.processes) ==> host.isRunning(old(registry.processes)[n].pid).Ok?
      ensures r.Err? ==> exists n :: n in old(registry.processes) && host.isRunning(old(registry.processes)[n].pid) == Err(r.error)
      ensures forall n :: n in registry.processes ==> n in old(registry.processes) && registry.processes[n] == old(registry.processes)[n]
      ensures forall n :: n in old(registry.processes) && host.isRunning(old(registry.processes)[n].pid) != Ok(false) ==>
                n in registry.processes
      ensures registry.processes == old(registry.processes) ==> registry.disk == old(registry.disk)
      ensures registry.processes != old(registry.processes) && registry.statePath.Some? && !SaveFails(registry.statePath, io) ==>
                registry.statePath.value in registry.disk
                && registry.disk[registry.statePath.value] == Parsed(Snapshot(registry.processes))
    {
      var entries := registry.GetRunningServicesWithPids();
      ghost var initial := registry.processes;
      var results: seq<(string, bool)> := [];
      var i := 0;
      while i < |entries|
        invariant VerifyProgress(entries, initial, registry.processes, results, i, host.isRunning)
        invariant registry.processes == initial ==> registry.disk == old(registry.disk)
        invariant registry.processes != initial && registry.statePath.Some? && !SaveFails(registry.statePath, io) ==>
                    registry.statePath.value in registry.disk
                    && registry.disk[registry.statePath.value] == Parsed(Snapshot(registry.processes))
        decreases |entries| - i
      {
        var (name, pid) := entries[i];
        var alive := host.isRunning(pid);
        if alive.Err? {
          VerifyAbort(entries, initial, registry.processes, results, i, host.isRunning);
          return Err(alive.error);
        }
        VerifyStep(entries, initial, registry.processes, results, i, host.isRunning);
        if !alive.value {
          var ignored := registry.RemoveProcess(name, io);
        }
        results := results + [(name, alive.value)];
        i := i + 1;
      }
      VerifyDone(entries, initial, registry.processes, results, host.isRunning);
      return Ok(results);
    }

    /** `verify_and_update_port_forwards`: the names a verification reports as not
        running. */
    method VerifyAndUpdatePortForwards(host: Host, io: SaveIo) returns (r: Result<seq<string>, AppError>)
      modifies registry
      ensures r.Ok? ==> forall n :: n in r.value <==>
                          n in old(registry.processes) && host.isRunning(old(registry.processes)[n].pid) == Ok(false)
      ensures r.Ok? ==> forall n :: n in r.value ==> n !in registry.processes
      ensures r.Ok? ==> registry.processes == Pruned(old(registry.processes), host.isRunning)
      ensures r.Err? ==> exists n :: n in old(registry.processes) && host.isRunning(old(registry.processes)[n].pid) == Err(r.error)
    {
      ghost var initial := registry.processes;
      var verified := VerifyPortForwards(host, io);
      if verified.Err? {
        return Err(verified.error);
      }
      var results := verified.value;
      var stopped: seq<string> := [];
      for i := 0 to |results|
        modifies {}
        invariant stopped == StoppedNames(results[..i])
      {
        assert results[..i + 1][..i] == results[..i];
        if !results[i].1 {
          stopped := stopped + [results[i].0];
        }
      }
      assert results[..|results|] == results;
      forall n
        ensures n in stopped <==> n in initial && host.isRunning(initial[n].pid) == Ok(false)
      {
        StoppedAreDead(results, initial, host.isRunning, n);
      }
      return Ok(stopped);
    }

    // -------------------------------------------------------------------------
    // Detection and adoption

    /** `detect_existing_port_forwards`. */
    method DetectExistingPortForwards(host: Host, now: Instant, loadFault: Option<AppError>)
      returns (r: Result<seq<string>, AppError>)
      requires Valid()
      modifies cache`configs, cache`lastUpdated
      ensures Valid() && cache.stored == old(cache.stored)
      ensures r.Err? <==> old(cache.LoadFails(now, loadFault)) || DetectFails(cache.stored, host.listing)
      ensures old(cache.LoadFails(now, loadFault)) ==> r == Err(loadFault.value)
      ensures !old(cache.LoadFails(now, loadFault)) ==> !cache.LoadFails(now, loadFault)
      ensures r.Err? && !old(cache.LoadFails(now, loadFault)) ==> r.error == ListingError(host.listing.error)
      ensures r.Ok? ==> r.value == DetectedNames(cache.stored, host.listing, registry.processes.Keys)
    {
      var loaded := cache.GetConfigs(now, loadFault);
      if loaded.Err? {
        return Err(loaded.error);
      }
      var cs := loaded.value;
      var detected: seq<string> := [];
      for i := 0 to |cs|
        modifies {}
        invariant detected == DetectedNames(cs[..i], host.listing, registry.processes.Keys)
        invariant !DetectFails(cs[..i], host.listing)
      {
        var running := IsKubectlProcessRunning(cs[i], host.listing);
        if running.Err? {
          DetectAbort(cs, host.listing, i);
          return Err(running.error);
        }
        DetectStep(cs, host.listing, registry.processes.Keys, i);
        var registered := registry.ContainsProcess(cs[i].name);
        if running.value && !registered {
          detected := detected + [cs[i].name];
        }
      }
      assert cs[..|cs|] == cs;
      return Ok(detected);
    }

    /** The body of the sync loop for one detected name: its first config is looked up
        and, when the detector reads a pid for it, the name is registered with that pid.
        The result says whether the name was registered. */
    method AdoptDetected(name: string, host: Host, now: Instant, loadFault: Option<AppError>, io: SaveIo)
      returns (r: Result<bool, AppError>)
      requires Valid() && !cache.LoadFails(now, loadFault) && host.listing.Ok?
      modifies registry, cache`configs, cache`lastUpdated
      ensures Valid() && !cache.LoadFails(now, loadFault) && cache.stored == old(cache.stored)
      ensures var a := AdoptionFor(name, cache.stored, PidIn(host.listing));
              && registry.processes == (if a == [] then old(registry.processes)
                                        else old(registry.processes)[name := ProcessInfo(a[0].1, a[0].2, now)])
              && (r.Ok? ==> r.value == (a != []))
              && (r.Err? ==> a != [] && SaveFails(registry.statePath, io))
              && (a == [] ==> registry.disk == old(registry.disk))
    {
      var found := cache.FindConfig(name, now, loadFault);
      assert found.Ok?;
      if found.value.None? {
        return Ok(false);
      }
      var config := found.value.value;
      var pid := FindKubectlProcessPid(config, host.listing);
      assert pid.Ok?;
      if pid.value.None? {
        return Ok(false);
      }
      var added := registry.AddProcess(name, pid.value.value, config, now, io);
      if added.Err? {
        return Err(added.error);
      }
      return Ok(true);
    }

    /** `sync_with_existing_processes`: each detected name is registered with the pid the
        detector reads for its first config, in order; the first failed save aborts. */
    method SyncWithExistingProcesses(host: Host, now: Instant, loadFault: Option<AppError>, io: SaveIo)
      returns (r: Result<seq<string>, AppError>)
      requires Valid()
      modifies registry, cache`configs, cache`lastUpdated
      ensures Valid() && cache.stored == old(cache.stored)
      ensures var plan := SyncPlan(DetectedNames(cache.stored, host.listing, old(registry.processes).Keys),
                                   cache.stored, PidIn(host.listing));
              r.Ok? ==> registry.processes == Apply(old(registry.processes), plan, now) && r.value == PlanNames(plan)
      ensures var plan := SyncPlan(DetectedNames(cache.stored, host.listing, old(registry.processes).Keys),
                                   cache.stored, PidIn(host.listing));
              r.Err? ==> AppliedPrefix(old(registry.processes), registry.processes, plan, now)
      ensures r.Err? ==> old(cache.LoadFails(now, loadFault)) || DetectFails(cache.stored, host.listing)
                         || SaveFails(registry.statePath, io)
      ensures forall n :: n in old(registry.processes) ==>
                n in registry.processes && registry.processes[n] == old(registry.processes)[n]
      ensures registry.processes == old(registry.processes) ==> registry.disk == old(registry.disk)
    {
      var detected := DetectExistingPortForwards(host, now, loadFault);
      if detected.Err? {
        NothingApplied(registry.processes, SyncPlan(DetectedNames(cache.stored, host.listing, registry.processes.Keys), cache.stored, PidIn(host.listing)), now);
        return Err(detected.error);
      }
      DetectedFacts(cache.stored, host.listing, registry.processes.Keys);
      assert !cache.LoadFails(now, loadFault);
      assert Valid();
      r := AdoptAll(detected.value, host, now, loadFault, io);
    }

    /** The loop of `sync_with_existing_processes`: the detected names are registered in
        order, and the first failed save stops the loop. */
    method AdoptAll(names: seq<string>, host: Host, now: Instant, loadFault: Option<AppError>, io: SaveIo)
      returns (r: Result<seq<string>, AppError>)
      requires Valid() && !cache.LoadFails(now, loadFault)
      requires forall k :: 0 <= k < |names| ==> names[k] !in registry.processes && host.listing.Ok?
      modifies registry, cache`configs, cache`lastUpdated
      ensures Valid() && cache.stored == old(cache.stored)
      ensures r.Ok? ==> registry.processes == Apply(old(registry.processes), SyncPlan(names, cache.stored, PidIn(host.listing)), now)
                        && r.value == PlanNames(SyncPlan(names, cache.stored, PidIn(host.listing)))
      ensures r.Err? ==> AppliedPrefix(old(registry.processes), registry.processes, SyncPlan(names, cache.stored, PidIn(host.listing)), now)
                         && SaveFails(registry.statePath, io)
      ensures forall n :: n in old(registry.processes) ==>
                n in registry.processes && registry.processes[n] == old(registry.processes)[n]
      ensures registry.processes == old(registry.processes) ==> registry.disk == old(registry.disk)
    {
      ghost var initial := registry.processes;
      ghost var done: seq<Adoption> := [];
      var synced: seq<string> := [];
      SyncStart(names, cache.stored, PidIn(host.listing), initial, now);
      for i := 0 to |names|
        invariant SyncProgress(names, cache.stored, PidIn(host.listing), initial, registry.processes, done, i, now)
        invariant synced == PlanNames(done)
        invariant Valid() && !cache.LoadFails(now, loadFault) && cache.stored == old(cache.stored)
        invariant done == [] ==> registry.disk == old(registry.disk)
      {
        var adopted;
        assert names[i] !in old(registry.processes) && host.listing.Ok?;
        adopted, done := AdoptNext(names, i, host, now, loadFault, io, initial, done);
        if adopted.Err? {
          SyncAbort(names, cache.stored, PidIn(host.listing), initial, done, i + 1, now);
          return Err(adopted.error);
        }
        if adopted.value {
          synced := synced + [names[i]];
        }
      }
      SyncDone(names, cache.stored, PidIn(host.listing), initial, registry.processes, done, now);
      return Ok(synced);
    }

    /** One turn of the loop of `sync_with_existing_processes`: the next detected name
        is adopted, or skipped, and the adoptions so far stay the plan's prefix. */
    method AdoptNext(names: seq<string>, i: nat, host: Host, now: Instant, loadFault: Option<AppError>,
                     io: SaveIo, ghost initial: map<string, ProcessInfo>, ghost done: seq<Adoption>)
      returns (adopted: Result<bool, AppError>, ghost next: seq<Adoption>)
      requires Valid() && !cache.LoadFails(now, loadFault) && i < |names| && host.listing.Ok?
      requires SyncProgress(names, cache.stored, PidIn(host.listing), initial, registry.processes, done, i, now)
      modifies registry, cache`configs, cache`lastUpdated
      ensures Valid() && !cache.LoadFails(now, loadFault) && cache.stored == old(cache.stored)
      ensures next == done + AdoptionFor(names[i], cache.stored, PidIn(host.listing))
      ensures SyncProgress(names, cache.stored, PidIn(host.listing), initial, registry.processes, next, i + 1, now)
      ensures adopted.Ok? ==> PlanNames(next) == PlanNames(done) + (if adopted.value then [names[i]] else [])
      ensures adopted.Err? ==> SaveFails(registry.statePath, io)
      ensures next == done ==> registry.disk == old(registry.disk)
    {
      SyncStep(names, cache.stored, PidIn(host.listing), initial, registry.processes, done, i, now);
      ghost var a := AdoptionFor(names[i], cache.stored, PidIn(host.listing));
      adopted := AdoptDetected(names[i], host, now, loadFault, io);
      next := done + a;
      if a != [] {
        ApplySnoc(initial, done, a[0], now);
        assert next == done + [a[0]];
      } else {
        assert next == done;
      }
    }

    // -------------------------------------------------------------------------
    // Editing a config

    /** `update_config`: a change of name renames the registry entry first (a failed save
        of the registry aborts before the list is touched); then the config list is
        updated. */
    method UpdateConfig(oldName: string, newConfig: PortForwardConfig, now: Instant,
                        loadFault: Option<AppError>, saveFault: Option<AppError>, io: SaveIo)
      returns (r: Result<(), AppError>)
      requires Valid()
      modifies registry, cache
      ensures Valid()
      ensures oldName != newConfig.name ==> registry.processes == Renamed(old(registry.processes), oldName, newConfig.name)
      ensures oldName == newConfig.name ==> registry.processes == old(registry.processes) && registry.disk == old(registry.disk)
      ensures oldName != newConfig.name && SaveFails(registry.statePath, io) ==> r.Err? && cache.stored == old(cache.stored)
      ensures !(oldName != newConfig.name && SaveFails(registry.statePath, io)) ==>
                var index := CC.Position(old(cache.stored), oldName);
                && (old(cache.LoadFails(now, loadFault)) ==> r.Err? && cache.stored == old(cache.stored))
                && (!old(cache.LoadFails(now, loadFault)) && index.None? ==>
                      r == Err(NotFound("Configuration not found for service: " + oldName))
                      && cache.stored == old(cache.stored))
                && (!old(cache.LoadFails(now, loadFault)) && index.Some? ==>
                      (r.Err? <==> saveFault.Some?)
                      && cache.stored == if r.Ok? then old(cache.stored)[index.value := newConfig] else old(cache.stored))
    {
      if oldName != newConfig.name {
        var renamed := registry.UpdateProcessName(oldName, newConfig.name, io);
        if renamed.Err? {
          return Err(renamed.error);
        }
      }
      r := cache.UpdateConfig(oldName, newConfig, now, loadFault, saveFault);
    }
  }

  /** The loop state of a verification after probing the first `i` entries of a
      listing: each probe answered, the results so far are those probes, the entries
      probed dead are gone and nothing else changed. */
  ghost predicate VerifyProgress(entries: seq<(string, Pid)>, initial: map<string, ProcessInfo>,
                                 current: map<string, ProcessInfo>, results: seq<(string, bool)>, i: int,
                                 isRunning: Pid -> Result<bool, AppError>)
  {
    && 0 <= i <= |entries|
    && IsListing(entries, initial)
    && |results| == i
    && (forall j :: 0 <= j < i ==>
          isRunning(entries[j].1).Ok? && results[j] == (entries[j].0, isRunning(entries[j].1) == Ok(true)))
    && (forall j :: 0 <= j < |entries| ==>
          (entries[j].0 in current <==> j >= i || isRunning(entries[j].1) != Ok(false)))
    && (forall n :: n in current ==> n in initial && current[n] == initial[n])
  }

  /** One probe that answers extends the loop state; a dead entry is still registered
      when it is removed, so its removal changes the registry. */
  lemma VerifyStep(entries: seq<(string, Pid)>, initial: map<string, ProcessInfo>,
                   current: map<string, ProcessInfo>, results: seq<(string, bool)>, i: int,
                   isRunning: Pid -> Result<bool, AppError>)
    requires VerifyProgress(entries, initial, current, results, i, isRunning)
    requires i < |entries| && isRunning(entries[i].1).Ok?
    ensures var alive := isRunning(entries[i].1).value;
            var next := if alive then current else current - {entries[i].0};
            && VerifyProgress(entries, initial, next, results + [(entries[i].0, alive)], i + 1, isRunning)
            && (!alive ==> next != initial)
  {
    var name := entries[i].0;
    var alive := isRunning(entries[i].1).value;
    var next := if alive then current else current - {name};
    assert name in current;
    forall j | 0 <= j < |entries|
      ensures entries[j].0 in next <==> j >= i + 1 || isRunning(entries[j].1) != Ok(false)
    {
      if j != i {
        assert entries[j].0 != name;
      }
    }
    if !alive {
      assert name in initial && name !in next;
    }
  }

  /** A probe error is the probe of some registered pid. */
  lemma VerifyAbort(entries: seq<(string, Pid)>, initial: map<string, ProcessInfo>,
                    current: map<string, ProcessInfo>, results: seq<(string, bool)>, i: int,
                    isRunning: Pid -> Result<bool, AppError>)
    requires VerifyProgress(entries, initial, current, results, i, isRunning)
    requires i < |entries| && isRunning(entries[i].1).Err?
    ensures exists n :: n in initial && isRunning(initial[n].pid) == isRunning(entries[i].1)
    ensures forall n :: n in initial && isRunning(initial[n].pid) != Ok(false) ==> n in current
  {
    assert entries[i].0 in initial;
    VerifyKeepsLive(entries, initial, current, results, i, isRunning);
  }

  /** Throughout a verification, no entry whose pid is not reported dead is removed. */
  lemma VerifyKeepsLive(entries: seq<(string, Pid)>, initial: map<string, ProcessInfo>,
                        current: map<string, ProcessInfo>, results: seq<(string, bool)>, i: int,
                        isRunning: Pid -> Result<bool, AppError>)
    requires VerifyProgress(entries, initial, current, results, i, isRunning)
    ensures forall n :: n in initial && isRunning(initial[n].pid) != Ok(false) ==> n in current
  {
    forall n | n in initial && isRunning(initial[n].pid) != Ok(false)
      ensures n in current
    {
      assert n in Names(entries);
      var j :| 0 <= j < |entries| && Names(entries)[j] == n;
    }
  }

  /** A finished verification reports the registry it started from, every probe
      answered, and exactly the pruned registry remains. */
  lemma VerifyDone(entries: seq<(string, Pid)>, initial: map<string, ProcessInfo>,
                   current: map<string, ProcessInfo>, results: seq<(string, bool)>,
                   isRunning: Pid -> Result<bool, AppError>)
    requires VerifyProgress(entries, initial, current, results, |entries|, isRunning)
    ensures IsVerification(results, initial, isRunning)
    ensures current == Pruned(initial, isRunning)
    ensures forall n :: n in initial ==> isRunning(initial[n].pid).Ok?
    ensures forall n :: n in initial && isRunning(initial[n].pid) != Ok(false) ==> n in current
  {
    PrunedFromListing(entries, initial, current, isRunning);
    assert ResultNames(results) == Names(entries);
    forall n | n in initial
      ensures isRunning(initial[n].pid).Ok?
    {
      assert n in Names(entries);
      var j :| 0 <= j < |entries| && Names(entries)[j] == n;
    }
  }

  /** One more definition whose probe answers extends the detection of a prefix. */
  lemma DetectStep(cs: seq<PortForwardConfig>, listing: Result<string, string>, registered: set<string>, i: nat)
    requires i < |cs| && !DetectFails(cs[..i], listing) && IsKubectlProcessRunning(cs[i], listing).Ok?
    ensures DetectedNames(cs[..i + 1], listing, registered)
            == DetectedNames(cs[..i], listing, registered)
               + (if IsKubectlProcessRunning(cs[i], listing) == Ok(true) && cs[i].name !in registered
                  then [cs[i].name] else [])
    ensures !DetectFails(cs[..i + 1], listing)
  {
    assert cs[..i + 1][..i] == cs[..i];
    if listing.Err? {
      var longer := cs[..i + 1];
      forall j | 0 <= j < |longer|
        ensures longer[j].forwardType != Kubectl
      {
        if j < i {
          assert longer[j] == cs[..i][j];
        }
      }
    }
  }

  /** A probe that fails makes the whole detection fail, with the listing's error. */
  lemma DetectAbort(cs: seq<PortForwardConfig>, listing: Result<string, string>, i: nat)
    requires i < |cs| && IsKubectlProcessRunning(cs[i], listing).Err?
    ensures DetectFails(cs, listing)
    ensures IsKubectlProcessRunning(cs[i], listing).error == ListingError(listing.error)
  {
  }

  /** Every detected name is unregistered, and detecting any name means the listing
      was read. */
  lemma DetectedFacts(cs: seq<PortForwardConfig>, listing: Result<string, string>, registered: set<string>)
    ensures var names := DetectedNames(cs, listing, registered);
            forall k :: 0 <= k < |names| ==> names[k] !in registered && listing.Ok?
  {
    var names := DetectedNames(cs, listing, registered);
    forall k | 0 <= k < |names|
      ensures names[k] !in registered && listing.Ok?
    {
      DetectedExactly(cs, listing, registered, names[k]);
    }
  }

  /** The loop state of a sync after the first `i` detected names: the adoptions made
      so far are a prefix of the plan and are all that changed in the registry. */
  ghost predicate SyncProgress(names: seq<string>, cs: seq<PortForwardConfig>, pidOf: PortForwardConfig -> Result<Option<Pid>, AppError>,
                               initial: map<string, ProcessInfo>, current: map<string, ProcessInfo>,
                               done: seq<Adoption>, i: int, now: Instant)
  {
    && 0 <= i <= |names|
    && (forall k :: 0 <= k < |names| ==> names[k] !in initial)
    && SyncPlan(names, cs, pidOf) == done + SyncPlan(names[i..], cs, pidOf)
    && current == Apply(initial, done, now)
    && (forall n :: n in initial ==> n in current && current[n] == initial[n])
    && (done != [] ==> current != initial)
  }

  /** Before the loop nothing is adopted and the whole plan lies ahead. */
  lemma SyncStart(names: seq<string>, cs: seq<PortForwardConfig>, pidOf: PortForwardConfig -> Result<Option<Pid>, AppError>,
                  initial: map<string, ProcessInfo>, now: Instant)
    requires forall k :: 0 <= k < |names| ==> names[k] !in initial
    ensures SyncProgress(names, cs, pidOf, initial, initial, [], 0, now)
  {
    assert names[0..] == names;
  }

  /** One detected name: its adoption, if any, is the next piece of the plan, and
      registering it keeps every old entry. */
  lemma SyncStep(names: seq<string>, cs: seq<PortForwardConfig>, pidOf: PortForwardConfig -> Result<Option<Pid>, AppError>,
                 initial: map<string, ProcessInfo>, current: map<string, ProcessInfo>,
                 done: seq<Adoption>, i: int, now: Instant)
    requires SyncProgress(names, cs, pidOf, initial, current, done, i, now)
    requires i < |names|
    ensures names[i] !in initial
    ensures var a := AdoptionFor(names[i], cs, pidOf);
            var next := if a == [] then current else current[a[0].0 := ProcessInfo(a[0].1, a[0].2, now)];
            SyncProgress(names, cs, pidOf, initial, next, done + a, i + 1, now)
  {
    var a := AdoptionFor(names[i], cs, pidOf);
    var next := if a == [] then current else current[a[0].0 := ProcessInfo(a[0].1, a[0].2, now)];
    assert names[i..][0] == names[i] && names[i..][1..] == names[i + 1..];
    assert SyncPlan(names[i..], cs, pidOf) == a + SyncPlan(names[i + 1..], cs, pidOf);
    AppendAssoc(done, a, SyncPlan(names[i + 1..], cs, pidOf));
    if a == [] {
      assert done + a == done;
    } else {
      ApplySnoc(initial, done, a[0], now);
      assert done + a == done + [a[0]];
      assert next == Apply(initial, done + a, now);
      assert a[0].0 == names[i] && names[i] !in initial;
      forall n | n in initial
        ensures n in next && next[n] == initial[n]
      {
        assert n != a[0].0;
      }
      assert names[i] in next;
    }
  }

  /** `current` is the registry after registering some prefix of `plan`. */
  ghost predicate AppliedPrefix(initial: map<string, ProcessInfo>, current: map<string, ProcessInfo>,
                                plan: seq<Adoption>, now: Instant)
  {
    exists k :: 0 <= k <= |plan| && current == Apply(initial, plan[..k], now)
  }

  /** Registering nothing is registering the empty prefix. */
  lemma NothingApplied(initial: map<string, ProcessInfo>, plan: seq<Adoption>, now: Instant)
    ensures AppliedPrefix(initial, initial, plan, now)
  {
    assert plan[..0] == [];
    assert initial == Apply(initial, plan[..0], now);
  }

  /** A failed save stops a sync after a prefix of its plan. */
  lemma SyncAbort(names: seq<string>, cs: seq<PortForwardConfig>, pidOf: PortForwardConfig -> Result<Option<Pid>, AppError>,
                  initial: map<string, ProcessInfo>, done: seq<Adoption>, i: int, now: Instant)
    requires SyncProgress(names, cs, pidOf, initial, Apply(initial, done, now), done, i, now)
    ensures AppliedPrefix(initial, Apply(initial, done, now), SyncPlan(names, cs, pidOf), now)
  {
    var plan := SyncPlan(names, cs, pidOf);
    assert plan[..|done|] == done;
    assert 0 <= |done| <= |plan| && Apply(initial, done, now) == Apply(initial, plan[..|done|], now);
  }

  /** A finished sync has applied its whole plan. */
  lemma SyncDone(names: seq<string>, cs: seq<PortForwardConfig>, pidOf: PortForwardConfig -> Result<Option<Pid>, AppError>,
                 initial: map<string, ProcessInfo>, current: map<string, ProcessInfo>,
                 done: seq<Adoption>, now: Instant)
    requires SyncProgress(names, cs, pidOf, initial, current, done, |names|, now)
    ensures done == SyncPlan(names, cs, pidOf)
  {
    assert names[|names|..] == [];
  }

  /** Concatenation is associative. */
  lemma AppendAssoc<T>(x: seq<T>, y: seq<T>, z: seq<T>)
    ensures (x + y) + z == x + (y + z)
  {
  }

  /** Registering one more adoption is applying the longer plan. */
  lemma ApplySnoc(processes: map<string, ProcessInfo>, plan: seq<Adoption>, a: Adoption, now: Instant)
    ensures Apply(processes, plan + [a], now) == Apply(processes, plan, now)[a.0 := ProcessInfo(a.1, a.2, now)]
    ensures PlanNames(plan + [a]) == PlanNames(plan) + [a.0]
  {
    assert (plan + [a])[..|plan|] == plan;
  }
}
