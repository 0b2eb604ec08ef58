/** Starting and stopping tunnels from the terminal interface: the privileged-port
    check, the command it launches, the bookkeeping in `App` and the registry, and the
    reader that turns a tunnel's process events into log lines. */
module TerminalForward {
  import opened Wrappers
  import opened Strings
  import opened Types
  import opened CommandBuilder
  import opened Registry
  import opened ForwardSpec
  import opened TerminalApp

  // ---------------------------------------------------------------------------
  // Privileged ports

  /** `parse_local_port`: the text before the first `:` read as a 16-bit port. */
  function ParseLocalPort(mapping: string): (r: Option<nat>)
    ensures r.Some? ==> r.value <= U16Max
  {
    ParseU16(Split(mapping, ':')[0])
  }

  /** A mapping `local:remote`, or a bare `local`, has the local port `local`. */
  lemma ParseLocalPortOfMapping(port: nat, remote: string)
    requires port <= U16Max
    ensures ParseLocalPort(NatToString(port) + ":" + remote) == Some(port)
    ensures ParseLocalPort(NatToString(port)) == Some(port)
  {
    var digits := NatToString(port);
    assert digits + ":" + remote == digits + [':'] + remote;
    SplitAtSeparator(digits, ':', remote);
    SplitNoSeparator(digits, ':');
    ParseNatToString(port, U16Max);
  }

  /** Whether a mapping asks for a privileged local port. */
  predicate IsPrivileged(mapping: string) {
    ParseLocalPort(mapping).Some? && ParseLocalPort(mapping).value < 1024
  }

  /** The privileged local port of one mapping, if it has one. */
  function PrivilegedPort(mapping: string): (r: seq<nat>)
    ensures r == [] <==> !IsPrivileged(mapping)
    ensures r != [] ==> r == [ParseLocalPort(mapping).value] && r[0] < 1024
  {
    if IsPrivileged(mapping) then [ParseLocalPort(mapping).value] else []
  }

  /** `find_privileged_ports`: the local ports below 1024, in mapping order; mappings
      without a readable local port are skipped. */
  function FindPrivilegedPorts(ports: seq<string>): (r: seq<nat>)
    ensures |r| <= |ports|
  {
    Collect(ports, PrivilegedPort)
  }

  /** The outputs of `f` for each mapping, one after the other. */
  function Collect(xs: seq<string>, f: string -> seq<nat>): (r: seq<nat>)
    ensures (forall x :: |f(x)| <= 1) ==> |r| <= |xs|
  {
    if xs == [] then []
    else Collect(xs[..|xs| - 1], f) + f(xs[|xs| - 1])
  }

  /** The privileged ports of a list are those of its parts, in order. */
  lemma {:induction false} CollectAppend(a: seq<string>, b: seq<string>, f: string -> seq<nat>)
    ensures Collect(a + b, f) == Collect(a, f) + Collect(b, f)
    decreases |b|
  {
    if b == [] {
      assert a + b == a;
    } else {
      var ab := a + b;
      assert ab[..|ab| - 1] == a + b[..|b| - 1];
      assert ab[|ab| - 1] == b[|b| - 1];
      CollectAppend(a, b[..|b| - 1], f);
    }
  }

  /** A value is collected exactly when some element's output holds it. */
  lemma {:induction false} CollectMembers(xs: seq<string>, f: string -> seq<nat>, p: nat)
    ensures p in Collect(xs, f) <==> exists i :: 0 <= i < |xs| && p in f(xs[i])
    decreases |xs|
  {
    if xs != [] {
      var init := xs[..|xs| - 1];
      CollectMembers(init, f, p);
      if exists i :: 0 <= i < |xs| && p in f(xs[i]) {
        var i :| 0 <= i < |xs| && p in f(xs[i]);
        if i < |init| {
          assert init[i] == xs[i];
        }
      }
      if p in Collect(init, f) {
        var i :| 0 <= i < |init| && p in f(init[i]);
        assert xs[i] == init[i];
      }
    }
  }

  /** Nothing is collected exactly when every output is empty. */
  lemma {:induction false} CollectEmpty(xs: seq<string>, f: string -> seq<nat>)
    ensures Collect(xs, f) == [] <==> forall i :: 0 <= i < |xs| ==> f(xs[i]) == []
    decreases |xs|
  {
    if xs != [] {
      var init := xs[..|xs| - 1];
      CollectEmpty(init, f);
      assert forall i :: 0 <= i < |init| ==> init[i] == xs[i];
    }
  }

  /** Only privileged ports are reported, in mapping order: those of a list are those
      of its parts. */
  lemma FindPrivilegedOrder(a: seq<string>, b: seq<string>)
    ensures FindPrivilegedPorts(a + b) == FindPrivilegedPorts(a) + FindPrivilegedPorts(b)
    ensures forall k :: 0 <= k < |FindPrivilegedPorts(a)| ==> FindPrivilegedPorts(a)[k] < 1024
  {
    CollectAppend(a, b, PrivilegedPort);
    forall k | 0 <= k < |FindPrivilegedPorts(a)|
      ensures FindPrivilegedPorts(a)[k] < 1024
    {
      CollectMembers(a, PrivilegedPort, FindPrivilegedPorts(a)[k]);
    }
  }

  /** A port is reported exactly when some mapping asks for it as a privileged port. */
  lemma FindPrivilegedMembers(ports: seq<string>, p: nat)
    ensures p in FindPrivilegedPorts(ports) <==>
              exists i :: 0 <= i < |ports| && IsPrivileged(ports[i]) && ParseLocalPort(ports[i]).value == p
  {
    CollectMembers(ports, PrivilegedPort, p);
  }

  /** No privileged ports are found exactly when no mapping asks for one. */
  lemma NoPrivilegedPorts(ports: seq<string>)
    ensures FindPrivilegedPorts(ports) == [] <==> forall i :: 0 <= i < |ports| ==> !IsPrivileged(ports[i])
  {
    CollectEmpty(ports, PrivilegedPort);
  }

  /** The status and log line shown when privileged ports are asked for without root. */
  function PrivilegedWarning(ports: seq<nat>): string {
    var shown := seq(|ports|, k requires 0 <= k < |ports| => NatToString(ports[k]));
    "Warning: Port(s) " + Join(shown, ", ") + " require root privileges." + " Run with sudo or use ports >= 1024."
  }

  /** `check_privileged_ports`: the start may go ahead when no privileged port is asked
      for or the interface runs as root; otherwise the warning becomes the status and a
      stderr line of the tunnel's log. */
  method CheckPrivilegedPorts(app: App, config: PortForwardConfig, isRoot: bool)
    returns (proceed: bool, sent: seq<(string, LogEntry)>)
    modifies app`statusMessage
    ensures proceed <==> isRoot || forall i :: 0 <= i < |config.ports| ==> !IsPrivileged(config.ports[i])
    ensures proceed ==> app.statusMessage == old(app.statusMessage) && sent == []
    ensures !proceed ==>
              var warning := PrivilegedWarning(FindPrivilegedPorts(config.ports));
              app.statusMessage == Some(warning) && sent == [(config.name, LogEntry(warning, true))]
  {
    var privileged := FindPrivilegedPorts(config.ports);
    NoPrivilegedPorts(config.ports);
    if privileged == [] || isRoot {
      return true, [];
    }
    var warning := PrivilegedWarning(privileged);
    app.statusMessage := Some(warning);
    return false, [(config.name, LogEntry(warning, true))];
  }

  // ---------------------------------------------------------------------------
  // Starting and stopping

  /** `build_command`: ssh tunnels run `ssh` with no extra environment; kubectl tunnels
      run the stored kubectl (or `kubectl`) with the stored kubeconfig, if one reads. The
      terminal launches exactly what the desktop orchestrator launches. */
  method BuildCommand(config: PortForwardConfig, host: Host) returns (launch: Launch)
    ensures launch == LaunchFor(config, host)
  {
    match config.forwardType {
      case Ssh =>
        var program, args := BuildSshCommand(config);
        launch := Launch(program, args, []);
      case Kubectl =>
        var kubectlPath := match host.kubectlPath case Ok(p) => p case Err(_) => "kubectl";
        var kubeconfig := match host.kubeconfigPath case Ok(k) => k case Err(_) => None;
        var builder := KubectlCommandBuilder(kubectlPath, kubeconfig);
        var program, args, env := builder.BuildPortForwardCommand(config, host.pathValue, host.ambient);
        launch := Launch(program, args, env);
    }
  }

  /** The status after a start. */
  function StartedStatus(name: string, pid: Pid): string {
    "Started " + name + " (pid " + NatToString(pid) + ")"
  }

  /** The error of a launch the operating system refuses. */
  function SpawnFailure(program: string, e: string): AppError {
    ProcessError("Failed to spawn " + program + ": " + e)
  }

  /** Every tunnel the interface shows as running is in the registry with the same pid. */
  predicate RegistryAgrees(app: App)
    reads app, app.processManager
  {
    forall n :: n in app.runningServices ==>
      n in app.processManager.processes && app.processManager.processes[n].pid == app.runningServices[n]
  }

  /** `start_port_forward`: after the privileged-port check, launches the tunnel and
      records its pid in the interface and in the registry; a failed save of the registry
      is ignored. */
  method StartPortForward(app: App, config: PortForwardConfig, isRoot: bool, host: Host, now: Instant, io: SaveIo)
    returns (r: Result<(), AppError>, sent: seq<(string, LogEntry)>)
    modifies app`statusMessage, app`runningServices, app.processManager
    ensures RegistryAgrees(app) <== old(RegistryAgrees(app))
    ensures var launch := LaunchFor(config, host);
            var blocked := !(isRoot || forall i :: 0 <= i < |config.ports| ==> !IsPrivileged(config.ports[i]));
            && (blocked || host.spawn(launch).Err? ==>
                  app.runningServices == old(app.runningServices)
                  && app.processManager.processes == old(app.processManager.processes)
                  && app.processManager.disk == old(app.processManager.disk))
            && (blocked ==>
                  r == Ok(())
                  && app.statusMessage == Some(PrivilegedWarning(FindPrivilegedPorts(config.ports)))
                  && sent == [(config.name, LogEntry(PrivilegedWarning(FindPrivilegedPorts(config.ports)), true))])
            && (!blocked && host.spawn(launch).Err? ==>
                  r == Err(SpawnFailure(launch.program, host.spawn(launch).error))
                  && app.statusMessage == old(app.statusMessage) && sent == [])
            && (!blocked && host.spawn(launch).Ok? ==>
                  var pid := host.spawn(launch).value;
                  && r == Ok(()) && sent == []
                  && app.runningServices == old(app.runningServices)[config.name := pid]
                  && app.processManager.processes == old(app.processManager.processes)[config.name := ProcessInfo(pid, config, now)]
                  && app.processManager.disk == DiskAfterSave(old(app.processManager.disk), app.processManager.statePath,
                                                              app.processManager.processes, io)
                  && app.statusMessage == Some(StartedStatus(config.name, pid)))
  {
    var proceed;
    proceed, sent := CheckPrivilegedPorts(app, config, isRoot);
    if !proceed {
      return Ok(()), sent;
    }
    var launch := BuildCommand(config, host);
    var spawned := host.spawn(launch);
    if spawned.Err? {
      return Err(SpawnFailure(launch.program, spawned.error)), sent;
    }
    RecordStart(app, config, spawned.value, now, io);
    r := Ok(());
  }

  /** The bookkeeping of a launched tunnel: its pid in the interface and in the registry,
      and the status line. */
  method RecordStart(app: App, config: PortForwardConfig, pid: Pid, now: Instant, io: SaveIo)
    modifies app`statusMessage, app`runningServices, app.processManager
    ensures RegistryAgrees(app) <== old(RegistryAgrees(app))
    ensures app.runningServices == old(app.runningServices)[config.name := pid]
    ensures app.processManager.processes == old(app.processManager.processes)[config.name := ProcessInfo(pid, config, now)]
    ensures app.processManager.disk == DiskAfterSave(old(app.processManager.disk), app.processManager.statePath,
                                                     app.processManager.processes, io)
    ensures app.statusMessage == Some(StartedStatus(config.name, pid))
  {
    app.runningServices := app.runningServices[config.name := pid];
    var _ := app.processManager.AddProcess(config.name, pid, config, now, io);
    app.statusMessage := Some(StartedStatus(config.name, pid));
  }

  /** `stop_port_forward`: a tunnel the interface shows as running is dropped from the
      interface, its process is signalled and it is removed from the registry; a failed
      signal or save is ignored, and an unknown name changes nothing. */
  method StopPortForward(app: App, name: string, io: SaveIo) returns (r: Result<(), AppError>, signalled: Option<Pid>)
    modifies app`runningServices, app.processManager
    ensures r == Ok(())
    ensures RegistryAgrees(app) <== old(RegistryAgrees(app))
    ensures name !in app.runningServices && name !in old(app.runningServices) ==> name !in app.processManager.processes || name in old(app.processManager.processes)
    ensures name in old(app.runningServices) ==>
              && signalled == Some(old(app.runningServices)[name])
              && app.runningServices == old(app.runningServices) - {name}
              && app.processManager.processes == old(app.processManager.processes) - {name}
              && app.processManager.disk == DiskAfterSave(old(app.processManager.disk), app.processManager.statePath,
                                                          app.processManager.processes, io)
    ensures name !in old(app.runningServices) ==>
              && signalled.None?
              && app.runningServices == old(app.runningServices)
              && app.processManager.processes == old(app.processManager.processes)
              && app.processManager.disk == old(app.processManager.disk)
  {
    signalled := None;
    if name in app.runningServices {
      var pid := app.runningServices[name];
      app.runningServices := app.runningServices - {name};
      signalled := Some(pid);
      var _ := app.processManager.RemoveProcess(name, io);
    }
    r := Ok(());
  }

  // ---------------------------------------------------------------------------
  // The output reader

  /** What a tunnel's process reports: a line on stdout or stderr, its exit with the exit
      code (none when it was killed by a signal), or a read error. */
  datatype ProcessEvent = Stdout(line: string) | Stderr(line: string) | Terminated(code: Option<int>) | Error(message: string)

  /** `format!("Process exited with code {:?}", code)`. */
  function ExitMessage(code: Option<int>): string {
    "Process exited with code "
    + match code
      case Some(c) => "Some(" + IntToString(c) + ")"
      case None => "None"
  }

  /** `handle_process_event`: the log line an event becomes, and whether reading stops. */
  function HandleProcessEvent(e: ProcessEvent): (r: (bool, LogEntry))
    ensures r.0 <==> e.Terminated?
    ensures r.1.isStderr <==> !e.Stdout?
    ensures e.Stdout? || e.Stderr? ==> r.1.line == e.line
    ensures e.Error? ==> r.1.line == e.message
  {
    match e
    case Stdout(line) => (false, LogEntry(line, false))
    case Stderr(line) => (false, LogEntry(line, true))
    case Terminated(code) => (true, LogEntry(ExitMessage(code), true))
    case Error(message) => (false, LogEntry(message, true))
  }

  /** The log lines sent for a stream of events: one per event up to and including the
      first exit. */
  function LogFor(name: string, events: seq<ProcessEvent>): (log: seq<(string, LogEntry)>)
    ensures |log| <= |events|
    ensures forall k :: 0 <= k < |log| ==> log[k].0 == name && log[k].1 == HandleProcessEvent(events[k]).1
  {
    if events == [] then []
    else
      var (stop, entry) := HandleProcessEvent(events[0]);
      [(name, entry)] + (if stop then [] else LogFor(name, events[1..]))
  }

  /** Every event before the first exit is logged, the exit is logged last, and nothing
      after it. */
  lemma {:induction false} LogStopsAtExit(name: string, before: seq<ProcessEvent>, code: Option<int>, after: seq<ProcessEvent>)
    requires forall k :: 0 <= k < |before| ==> !before[k].Terminated?
    ensures LogFor(name, before + [Terminated(code)] + after)
         == LogFor(name, before) + [(name, LogEntry(ExitMessage(code), true))]
    decreases |before|
  {
    var events := before + [Terminated(code)] + after;
    if before == [] {
      assert events[0] == Terminated(code);
    } else {
      assert events[0] == before[0];
      assert events[1..] == before[1..] + [Terminated(code)] + after;
      LogStopsAtExit(name, before[1..], code, after);
    }
  }

  /** Without an exit every event is logged. */
  lemma {:induction false} LogWithoutExit(name: string, events: seq<ProcessEvent>)
    requires forall k :: 0 <= k < |events| ==> !events[k].Terminated?
    ensures |LogFor(name, events)| == |events|
    decreases |events|
  {
    if events != [] {
      LogWithoutExit(name, events[1..]);
    }
  }

  /** `spawn_output_reader`'s loop: receives events until the first exit or until the
      channel closes, sending one log line per event. */
  method ReadOutput(name: string, events: seq<ProcessEvent>) returns (sent: seq<(string, LogEntry)>)
    ensures sent == LogFor(name, events)
  {
    sent := [];
    var i := 0;
    while i < |events|
      invariant i <= |events|
      invariant sent + LogFor(name, events[i..]) == LogFor(name, events)
    {
      var (stop, entry) := HandleProcessEvent(events[i]);
      LogAdvance(name, events, i, sent);
      sent := sent + [(name, entry)];
      if stop {
        return;
      }
      i := i + 1;
    }
    LogEnd(name, events, sent);
  }

  /** One more event read: its line is sent, and either reading stops with the whole log
      sent or the rest of the log is still to come. */
  lemma LogAdvance(name: string, events: seq<ProcessEvent>, i: nat, sent: seq<(string, LogEntry)>)
    requires i < |events|
    requires sent + LogFor(name, events[i..]) == LogFor(name, events)
    ensures var (stop, entry) := HandleProcessEvent(events[i]);
            && (stop ==> sent + [(name, entry)] == LogFor(name, events))
            && (!stop ==> sent + [(name, entry)] + LogFor(name, events[i + 1..]) == LogFor(name, events))
  {
    assert events[i..][0] == events[i];
    assert events[i..][1..] == events[i + 1..];
  }

  /** With every event read, the whole log was sent. */
  lemma LogEnd(name: string, events: seq<ProcessEvent>, sent: seq<(string, LogEntry)>)
    requires sent + LogFor(name, events[|events|..]) == LogFor(name, events)
    ensures sent == LogFor(name, events)
  {
    assert events[|events|..] == [];
  }
}
