/** The registry of running tunnels: a map from tunnel name to pid, definition and start
    time, persisted to a state file after every change and reloaded at start-up keeping
    only the entries whose process is still alive.

    The file system is the field `disk`, which maps paths to what a read would find
    there. Saving writes the snapshot to a temporary path and renames it over the state
    file, so the state file never holds a half-written snapshot. The clock, the
    liveness probe and the outcome of each file operation are parameters. */
module Registry {
  import opened Wrappers
  import opened Strings
  import opened Types

  /** What reading a path finds: a state that parses, a file that cannot be read, or
      content that does not parse. */
  datatype StateFile = Parsed(state: ProcessManagerState) | Unreadable | Malformed

  /** The outcome of one file-system operation. */
  datatype IoOutcome = IoOk | IoFailed(reason: string)

  /** The outcomes of the two steps of a save: writing the temporary file, then renaming it. */
  datatype SaveIo = SaveIo(write: IoOutcome, rename: IoOutcome)

  /** The liveness probe: `Ok(alive)` or the error of the probe itself. */
  type LivenessProbe = Pid -> Result<bool, AppError>

  // ---------------------------------------------------------------------------
  // Specification functions

  /** The persisted form of a registry: the same names, each without its start time. */
  function Snapshot(processes: map<string, ProcessInfo>): (s: ProcessManagerState)
    ensures s.processes.Keys == processes.Keys
    ensures forall n :: n in processes ==>
              s.processes[n].pid == processes[n].pid && s.processes[n].config == processes[n].config
  {
    ProcessManagerState(map n | n in processes :: ToSerializable(processes[n]))
  }

  /** A probe error counts as a dead process. */
  predicate IsAlive(isAlive: LivenessProbe, pid: Pid) {
    match isAlive(pid)
    case Ok(alive) => alive
    case Err(_) => false
  }

  /** The entries of a saved state whose process is alive, stamped with `now`. */
  function LiveEntries(state: ProcessManagerState, isAlive: LivenessProbe, now: Instant): (m: map<string, ProcessInfo>)
    ensures forall n :: n in m <==> n in state.processes && IsAlive(isAlive, state.processes[n].pid)
    ensures forall n :: n in m ==> m[n] == FromSerializable(state.processes[n], now)
  {
    map n | n in state.processes && IsAlive(isAlive, state.processes[n].pid)
          :: FromSerializable(state.processes[n], now)
  }

  /** Every entry of a registry, stamped with `now`. */
  function Restamp(processes: map<string, ProcessInfo>, now: Instant): (m: map<string, ProcessInfo>)
    ensures m.Keys == processes.Keys
    ensures forall n :: n in m ==> m[n] == processes[n].(startedAt := now)
  {
    map n | n in processes :: processes[n].(startedAt := now)
  }

  /** Reloading a saved registry while all its processes are alive gives back every
      entry with the same pid and definition; only the start times are new. */
  lemma ReloadAllAlive(processes: map<string, ProcessInfo>, isAlive: LivenessProbe, now: Instant)
    requires forall n :: n in processes ==> isAlive(processes[n].pid) == Ok(true)
    ensures LiveEntries(Snapshot(processes), isAlive, now) == Restamp(processes, now)
  {
    var loaded := LiveEntries(Snapshot(processes), isAlive, now);
    var expected := Restamp(processes, now);
    forall n | n in processes
      ensures n in loaded && loaded[n] == expected[n]
    {
      assert IsAlive(isAlive, Snapshot(processes).processes[n].pid);
    }
  }

  /** Reloading keeps exactly the live entries: dead processes and failed probes drop out. */
  lemma ReloadDropsDead(processes: map<string, ProcessInfo>, isAlive: LivenessProbe, now: Instant, n: string)
    requires n in processes
    ensures n in LiveEntries(Snapshot(processes), isAlive, now) <==> isAlive(processes[n].pid) == Ok(true)
  {
  }

  // ---------------------------------------------------------------------------
  // The temporary path

  /** `Path::with_extension("tmp")`: the extension of the last path component (the text
      after its last dot, unless that dot starts the component) becomes `tmp`. */
  function TempPath(path: string): string {
    var (dir, name) := match RSplitOnce(path, '/')
                       case Some((d, n)) => (d + "/", n)
                       case None => ([], path);
    if name == [] then path
    else
      var stem := match RSplitOnce(name, '.')
                  case Some((s, _)) => if s == [] then name else s
                  case None => name;
      dir + stem + ".tmp"
  }

  /** A state file `DIR/STEM.json` is staged at `DIR/STEM.tmp`, a different path. */
  lemma TempPathOfJson(dir: string, stem: string)
    requires stem != [] && '/' !in stem
    ensures TempPath(dir + "/" + stem + ".json") == dir + "/" + stem + ".tmp"
    ensures TempPath(dir + "/" + stem + ".json") != dir + "/" + stem + ".json"
  {
    var name := stem + ".json";
    assert '/' !in name by {
      assert name == stem + ['.', 'j', 's', 'o', 'n'];
    }
    assert dir + "/" + stem + ".json" == dir + ['/'] + name;
    RSplitOnceAt(dir, '/', name);
    assert name == stem + ['.'] + "json";
    RSplitOnceAt(stem, '.', "json");
    var p := dir + "/" + stem + ".json";
    var t := dir + "/" + stem + ".tmp";
    assert p[|p| - 1] == 'n' && t[|t| - 1] == 'p';
  }

  // ---------------------------------------------------------------------------
  // Persistence

  /** The disk and the result after saving `state` to `path`: write the temporary file,
      then rename it over the state file; each step can fail. */
  function Persist(disk: map<string, StateFile>, path: string, state: ProcessManagerState, io: SaveIo)
    : (r: (Result<(), AppError>, map<string, StateFile>))
    // success puts the new state at the path
    ensures r.0.Ok? <==> io.write.IoOk? && io.rename.IoOk?
    ensures r.0.Ok? ==> path in r.1 && r.1[path] == Parsed(state)
    // a failure leaves the state file as it was
    ensures r.0.Err? && TempPath(path) != path ==>
              (path in r.1 <==> path in disk) && (path in disk ==> r.1[path] == disk[path])
    ensures io.write.IoFailed? ==>
              r == (Err(SystemError("Failed to write temp state file: " + io.write.reason)), disk)
    ensures io.write.IoOk? && io.rename.IoFailed? ==>
              r.0 == Err(SystemError("Failed to rename state file: " + io.rename.reason))
  {
    var temp := TempPath(path);
    match io.write
    case IoFailed(e) => (Err(SystemError("Failed to write temp state file: " + e)), disk)
    case IoOk =>
      var written := disk[temp := Parsed(state)];
      match io.rename
      case IoFailed(e) => (Err(SystemError("Failed to rename state file: " + e)), written)
      case IoOk => (Ok(()), (written - {temp})[path := Parsed(state)])
  }

  /** The disk once the registry has saved `processes`: as it was without a state path,
      otherwise as the save leaves it, whether or not the save succeeded. */
  function DiskAfterSave(disk: map<string, StateFile>, statePath: Option<string>,
                         processes: map<string, ProcessInfo>, io: SaveIo): map<string, StateFile> {
    if statePath.None? then disk else Persist(disk, statePath.value, Snapshot(processes), io).1
  }

  // ---------------------------------------------------------------------------
  // The registry

  /** `ProcessManager`. */
  class ProcessManager {
    /** The registered tunnels by name. */
    var processes: map<string, ProcessInfo>
    /** Where the registry is persisted, if anywhere. */
    const statePath: Option<string>
    /** The file system as far as the registry sees it. */
    var disk: map<string, StateFile>

    /** `ProcessManager::new`: an empty registry that is never persisted. */
    constructor New(fs: map<string, StateFile>)
      ensures processes == map[] && statePath == None && disk == fs
    {
      processes := map[];
      statePath := None;
      disk := fs;
    }

    /** `ProcessManager::with_state_file`: an empty registry persisted at `path`, filled
        from the state file's live entries. A missing, unreadable or malformed state file
        leaves it empty. */
    constructor WithStateFile(path: string, fs: map<string, StateFile>, isAlive: LivenessProbe, now: Instant)
      ensures statePath == Some(path) && disk == fs
      ensures path in fs && fs[path].Parsed? ==> processes == LiveEntries(fs[path].state, isAlive, now)
      ensures !(path in fs && fs[path].Parsed?) ==> processes == map[]
    {
      statePath := Some(path);
      disk := fs;
      processes := map[];
      new;
      var _, _, _ := LoadState(isAlive, now);
    }

    /** `load_state`: the live entries of the state file are added to the registry and
        counted; a missing file is not an error. */
    method LoadState(isAlive: LivenessProbe, now: Instant) returns (r: Result<(), AppError>, loaded: nat, skipped: nat)
      modifies this
      ensures disk == old(disk)
      ensures statePath.None? || statePath.value !in disk ==> r == Ok(()) && processes == old(processes)
      ensures statePath.Some? && statePath.value in disk && disk[statePath.value] == Unreadable ==>
                r.Err? && processes == old(processes)
      ensures statePath.Some? && statePath.value in disk && disk[statePath.value] == Malformed ==>
                r.Err? && processes == old(processes)
      ensures statePath.Some? && statePath.value in disk && disk[statePath.value].Parsed? ==>
                var state := disk[statePath.value].state;
                var live := LiveEntries(state, isAlive, now);
                r == Ok(()) && processes == old(processes) + live
                && loaded == |live| && loaded + skipped == |state.processes|
    {
      loaded, skipped := 0, 0;
      if statePath.None? || statePath.value !in disk {
        return Ok(()), loaded, skipped;
      }
      match disk[statePath.value]
      case Unreadable =>
        return Err(SystemError("Failed to read state file")), loaded, skipped;
      case Malformed =>
        return Err(SystemError("Failed to deserialize state")), loaded, skipped;
      case Parsed(state) =>
        loaded, skipped := InsertLive(state, isAlive, now);
        return Ok(()), loaded, skipped;
    }

    /** The loop of `load_state`: each saved entry whose process is alive is inserted,
        stamped with `now`; the others are skipped. */
    method InsertLive(state: ProcessManagerState, isAlive: LivenessProbe, now: Instant) returns (loaded: nat, skipped: nat)
      modifies this`processes
      ensures processes == old(processes) + LiveEntries(state, isAlive, now)
      ensures loaded == |LiveEntries(state, isAlive, now)|
      ensures loaded + skipped == |state.processes|
    {
      var current := processes;
      ghost var initial := processes;
      loaded, skipped := 0, 0;
      var remaining := state.processes.Keys;
      ghost var added: map<string, ProcessInfo> := map[];
      ghost var dead: set<string> := {};
      while remaining != {}
        invariant LoadProgress(state, isAlive, now, remaining, added, dead)
        invariant current == initial + added
        invariant loaded == |added.Keys| && skipped == |dead|
        decreases remaining
      {
        var name :| name in remaining;
        var info := state.processes[name];
        var alive := match isAlive(info.pid) case Ok(b) => b case Err(_) => false;
        if alive {
          var entry := FromSerializable(info, now);
          LoadStepAlive(state, isAlive, now, remaining, added, dead, name);
          MergeUpdate(initial, added, name, entry);
          current := current[name := entry];
          added := added[name := entry];
          loaded := loaded + 1;
        } else {
          LoadStepDead(state, isAlive, now, remaining, added, dead, name);
          dead := dead + {name};
          skipped := skipped + 1;
        }
        remaining := remaining - {name};
      }
      LoadDone(state, isAlive, now, added, dead);
      processes := current;
    }

    /** `save_state`: nothing happens without a state path; otherwise the snapshot of the
        registry is persisted through the temporary file. */
    method SaveState(io: SaveIo) returns (r: Result<(), AppError>)
      modifies this`disk
      ensures statePath.None? ==> r == Ok(()) && disk == old(disk)
      ensures statePath.Some? ==> (r, disk) == Persist(old(disk), statePath.value, Snapshot(processes), io)
    {
      if statePath.None? {
        return Ok(());
      }
      var outcome := Persist(disk, statePath.value, Snapshot(processes), io);
      r := outcome.0;
      disk := outcome.1;
    }

    /** `add_process`: inserts or overwrites the entry, then persists. */
    method AddProcess(name: string, pid: Pid, config: PortForwardConfig, now: Instant, io: SaveIo)
      returns (r: Result<(), AppError>)
      modifies this
      ensures processes == old(processes)[name := ProcessInfo(pid, config, now)]
      ensures statePath.None? ==> r == Ok(()) && disk == old(disk)
      ensures statePath.Some? ==> (r, disk) == Persist(old(disk), statePath.value, Snapshot(processes), io)
    {
      processes := processes[name := ProcessInfo(pid, config, now)];
      r := SaveState(io);
    }

    /** `remove_process`: removes the entry and persists in every case; the result is the
        removed pid, or the save error. */
    method RemoveProcess(name: string, io: SaveIo) returns (r: Result<Option<Pid>, AppError>)
      modifies this
      ensures processes == old(processes) - {name}
      ensures statePath.None? ==> disk == old(disk)
      ensures statePath.Some? ==> disk == Persist(old(disk), statePath.value, Snapshot(processes), io).1
      ensures r.Err? <==> statePath.Some? && Persist(old(disk), statePath.value, Snapshot(processes), io).0.Err?
      ensures r.Err? ==> statePath.Some? && r.error == Persist(old(disk), statePath.value, Snapshot(processes), io).0.error
      ensures r.Ok? ==> r.value == (if name in old(processes) then Some(old(processes)[name].pid) else None)
    {
      var removed := if name in processes then Some(processes[name].pid) else None;
      processes := processes - {name};
      var saved := SaveState(io);
      if saved.Err? {
        return Err(saved.error);
      }
      return Ok(removed);
    }

    /** `get_process_pid`. */
    method GetProcessPid(name: string) returns (pid: Option<Pid>)
      ensures pid.Some? <==> name in processes
      ensures pid.Some? ==> pid.value == processes[name].pid
    {
      pid := if name in processes then Some(processes[name].pid) else None;
    }

    /** `contains_process`. */
    method ContainsProcess(name: string) returns (b: bool)
      ensures b <==> name in processes
    {
      b := name in processes;
    }

    /** `get_running_services`: every registered name exactly once. */
    method GetRunningServices() returns (names: seq<string>)
      ensures forall n :: n in names <==> n in processes
      ensures forall i, j :: 0 <= i < j < |names| ==> names[i] != names[j]
      ensures |names| == |processes|
    {
      names := [];
      var remaining := processes.Keys;
      while remaining != {}
        invariant remaining <= processes.Keys
        invariant forall n :: n in names ==> n in processes && n !in remaining
        invariant forall n :: n in processes ==> n in names || n in remaining
        invariant forall i, j :: 0 <= i < j < |names| ==> names[i] != names[j]
        invariant |names| + |remaining| == |processes|
        decreases remaining
      {
        var n :| n in remaining;
        names := names + [n];
        remaining := remaining - {n};
      }
    }

    /** `get_running_services_with_pids`: every registered name once, with its pid. */
    method GetRunningServicesWithPids() returns (entries: seq<(string, Pid)>)
      ensures IsListing(entries, processes)
    {
      entries := [];
      var remaining := processes.Keys;
      while remaining != {}
        invariant remaining <= processes.Keys
        invariant forall i :: 0 <= i < |entries| ==>
                    entries[i].0 in processes && entries[i].0 !in remaining
                    && entries[i].1 == processes[entries[i].0].pid
        invariant forall n :: n in processes ==> n in remaining || n in Names(entries)
        invariant forall i, j :: 0 <= i < j < |entries| ==> entries[i].0 != entries[j].0
        invariant |entries| + |remaining| == |processes|
        decreases remaining
      {
        var n :| n in remaining;
        assert Names(entries + [(n, processes[n].pid)]) == Names(entries) + [n];
        entries := entries + [(n, processes[n].pid)];
        remaining := remaining - {n};
      }
    }

    /** `update_process_name`: the entry moves to the new name and its definition takes
        that name; without an entry under the old name nothing changes. It persists in
        both cases. */
    method UpdateProcessName(oldName: string, newName: string, io: SaveIo) returns (r: Result<(), AppError>)
      modifies this
      ensures oldName in old(processes) ==>
                var info := old(processes)[oldName];
                processes == (old(processes) - {oldName})[newName := info.(config := info.config.(name := newName))]
      ensures oldName !in old(processes) ==> processes == old(processes)
      ensures statePath.None? ==> r == Ok(()) && disk == old(disk)
      ensures statePath.Some? ==> (r, disk) == Persist(old(disk), statePath.value, Snapshot(processes), io)
    {
      if oldName in processes {
        var info := processes[oldName];
        processes := processes - {oldName};
        processes := processes[newName := info.(config := info.config.(name := newName))];
      }
      r := SaveState(io);
    }

    /** `cleanup_all`: the pids of all entries (one per entry) and an empty registry, or the
        save error. */
    method CleanupAll(io: SaveIo) returns (r: Result<seq<Pid>, AppError>)
      modifies this
      ensures processes == map[]
      ensures statePath.None? ==> disk == old(disk)
      ensures statePath.Some? ==> disk == Persist(old(disk), statePath.value, Snapshot(map[]), io).1
      ensures r.Err? <==> statePath.Some? && Persist(old(disk), statePath.value, Snapshot(map[]), io).0.Err?
      ensures r.Err? ==> statePath.Some? && r.error == Persist(old(disk), statePath.value, Snapshot(map[]), io).0.error
      ensures r.Ok? ==> exists entries :: IsListing(entries, old(processes)) && r.value == Pids(entries)
    {
      var entries := GetRunningServicesWithPids();
      var pids := Pids(entries);
      processes := map[];
      var saved := SaveState(io);
      if saved.Err? {
        return Err(saved.error);
      }
      return Ok(pids);
    }
  }

  /** Updating the right operand of a merge updates the merge. */
  lemma MergeUpdate<K, V>(a: map<K, V>, b: map<K, V>, k: K, v: V)
    ensures a + b[k := v] == (a + b)[k := v]
  {
    var lhs := a + b[k := v];
    var rhs := (a + b)[k := v];
    assert lhs.Keys == rhs.Keys;
    forall x | x in lhs ensures lhs[x] == rhs[x] {
    }
  }

  /** `entries` lists every entry of `processes` exactly once, each name with its pid. */
  predicate IsListing(entries: seq<(string, Pid)>, processes: map<string, ProcessInfo>) {
    && |entries| == |processes|
    && (forall i, j :: 0 <= i < j < |entries| ==> entries[i].0 != entries[j].0)
    && (forall i :: 0 <= i < |entries| ==>
          entries[i].0 in processes && entries[i].1 == processes[entries[i].0].pid)
    && (forall n :: n in processes ==> n in Names(entries))
  }

  /** The name column of a listing. */
  function Names(entries: seq<(string, Pid)>): (names: seq<string>)
    ensures |names| == |entries|
    ensures forall i :: 0 <= i < |entries| ==> names[i] == entries[i].0
  {
    seq(|entries|, i requires 0 <= i < |entries| => entries[i].0)
  }

  /** The pid column of a listing. */
  function Pids(entries: seq<(string, Pid)>): (pids: seq<Pid>)
    ensures |pids| == |entries|
    ensures forall i :: 0 <= i < |entries| ==> pids[i] == entries[i].1
  {
    seq(|entries|, i requires 0 <= i < |entries| => entries[i].1)
  }

  /** A saved and reloaded registry whose processes are all alive is the registry itself,
      up to start times. */
  lemma {:induction false} SaveThenReload(processes: map<string, ProcessInfo>, disk: map<string, StateFile>,
                                          path: string, io: SaveIo, isAlive: LivenessProbe, now: Instant)
    requires io == SaveIo(IoOk, IoOk)
    requires forall n :: n in processes ==> isAlive(processes[n].pid) == Ok(true)
    ensures var saved := Persist(disk, path, Snapshot(processes), io).1;
            path in saved && saved[path].Parsed?
            && LiveEntries(saved[path].state, isAlive, now) == Restamp(processes, now)
  {
    ReloadAllAlive(processes, isAlive, now);
  }

  /** Progress of the loading loop: `added` holds the live entries and `dead` the dead
      names among those already visited, and every saved name is in exactly one of
      `added`, `dead` and `remaining`. */
  ghost predicate LoadProgress(state: ProcessManagerState, isAlive: LivenessProbe, now: Instant,
                               remaining: set<string>, added: map<string, ProcessInfo>, dead: set<string>) {
    && remaining <= state.processes.Keys
    && (forall n :: n in added <==>
          n in state.processes && n !in remaining && IsAlive(isAlive, state.processes[n].pid))
    && (forall n :: n in dead <==>
          n in state.processes && n !in remaining && !IsAlive(isAlive, state.processes[n].pid))
    && (forall n :: n in added ==> added[n] == FromSerializable(state.processes[n], now))
    && |added.Keys| + |dead| + |remaining| == |state.processes.Keys|
  }

  lemma LoadStepAlive(state: ProcessManagerState, isAlive: LivenessProbe, now: Instant,
                      remaining: set<string>, added: map<string, ProcessInfo>, dead: set<string>, name: string)
    requires LoadProgress(state, isAlive, now, remaining, added, dead)
    requires name in remaining && IsAlive(isAlive, state.processes[name].pid)
    ensures LoadProgress(state, isAlive, now, remaining - {name},
                         added[name := FromSerializable(state.processes[name], now)], dead)
    ensures |added[name := FromSerializable(state.processes[name], now)].Keys| == |added.Keys| + 1
  {
    var entry := FromSerializable(state.processes[name], now);
    assert name !in added;
    assert added[name := entry].Keys == added.Keys + {name};
  }

  lemma LoadStepDead(state: ProcessManagerState, isAlive: LivenessProbe, now: Instant,
                     remaining: set<string>, added: map<string, ProcessInfo>, dead: set<string>, name: string)
    requires LoadProgress(state, isAlive, now, remaining, added, dead)
    requires name in remaining && !IsAlive(isAlive, state.processes[name].pid)
    ensures LoadProgress(state, isAlive, now, remaining - {name}, added, dead + {name})
    ensures |dead + {name}| == |dead| + 1
  {
    assert name !in dead;
  }

  lemma LoadDone(state: ProcessManagerState, isAlive: LivenessProbe, now: Instant,
                 added: map<string, ProcessInfo>, dead: set<string>)
    requires LoadProgress(state, isAlive, now, {}, added, dead)
    ensures added == LiveEntries(state, isAlive, now)
    ensures |added.Keys| == |LiveEntries(state, isAlive, now)|
    ensures |added.Keys| + |dead| == |state.processes|
  {
  }
}
