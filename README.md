# easy-kpf in Dafny

easy-kpf supervises port-forward tunnels. A tunnel is a named definition (`PortForwardConfig`) that is realised either by
`kubectl port-forward` against a Kubernetes service or by an `ssh -N -L …` session. This model covers the
supervision logic shared by the desktop application and the terminal interface:

- how a definition becomes a process invocation (argument vector, environment, ssh `-L` specifications);
- the registry of running tunnels: a name → (pid, definition, start time) map, persisted by writing a temporary
  file and renaming it, and reloaded keeping only the processes that are still alive;
- the orchestrator:
  - start, which refuses a registered name, switches the kubectl context and restores it, makes sure the local
    bind address exists, then launches and registers;
  - stop, which unregisters first and then kills;
  - clean-up, verification and pruning of dead entries;
  - detection of tunnels started elsewhere from a `ps aux` listing, and their adoption;
  - renaming;
- the `ps aux` heuristic that recognises a kubectl tunnel and reads its pid;
- the ladder that makes a loopback alias exist: skip-list, probe, unprivileged add, `sudo -n`, then advice;
- the cached, ordered list of definitions with its add, remove, update and reorder operations;
- how kubectl errors are turned into advice, how kubectl and its kubeconfig are located, and how kubectl output is
  read back;
- in the terminal interface: the privileged-port check, the start and stop bookkeeping and the output reader's
  termination rule, the edit form's fields, and the list's search, grouping, selection, visual range,
  proposed names and suggestion cycling;
- the desktop form's proposed name and the desktop list's grouping by context.

The operating system is not modelled; it appears as functions passed in:

- `run` says what each command invocation produces;
- `spawn`, `kill` and `isRunning` launch, signal and probe processes;
- `listing` is the text of `ps aux`;
- `isAlive` is the liveness probe of a reload;
- `isFile` answers whether a path exists;
- the file system the registry sees is the map `disk`;
- failures of file writes and of the configuration store are parameters (`SaveIo`, `loadFault`, `saveFault`).

Time is a natural number: the start time of a record and the cache clock.

Files, one module each:

| file | module | source |
|---|---|---|
| `wrappers.dfy` | `Wrappers` | `Option`/`Result` |
| `strings.dfy` | `Strings` | Rust and JavaScript string operations |
| `collections.dfy` | `Collections` | grouping and sorting helpers |
| `types.dfy` | `Types` | `types.rs` |
| `command_builder.dfy` | `CommandBuilder` | `command_builder.rs` |
| `process_detector.dfy` | `ProcessDetector` | `process_detector.rs` |
| `interface.dfy` | `Interface` | `interface/mod.rs`, `linux.rs`, `macos.rs` |
| `process_manager.dfy` | `Registry` | `process_manager.rs` |
| `config_cache.dfy` | `ConfigCache` | `config_cache.rs` |
| `kubectl_service.dfy` | `KubectlService` | `kubectl_service.rs` |
| `port_forward_spec.dfy` | `ForwardSpec` | the orchestrator's rules stated on values |
| `port_forward_service.dfy` | `ForwardService` | `port_forward_service.rs` as a class over the registry |
| `cli_port_forward.dfy` | `TerminalForward` | `actions/port_forward.rs` |
| `edit_field.dfy` | `EditFields` | `state/edit_field.rs` |
| `app.dfy` | `TerminalApp` | `app.rs` |
| `form_state.dfy` | `FormState` | `useFormState.ts` |
| `grouping.dfy` | `Grouping` | `groupingUtils.ts` |

The registry, the config cache, the orchestrator and the terminal `App` update their fields in place in the
source. Each is therefore a class whose methods state their whole new state. Each method is proved against
specification functions on values, and the lemmas beside those functions prove the properties:
`ForwardSpec` for the orchestrator, `Registry` for the registry, `ConfigCache`'s own `Find`, `Retain` and
`Moved` for the cache, and `TerminalApp` and `TerminalForward` for the terminal interface. Loops that build lists are methods with loop invariants, each proved equal to a function:

- the credential environment;
- the ssh `-L` pairs;
- the registry reload;
- verification, detection and adoption;
- the output reader;
- the search, grouping and flattening of the terminal list;
- the desktop grouping `reduce`.

## Model

| member | source | states |
|---|---|---|
| `Types.DefaultForwardType` | crates/easy-kpf-core/src/types.rs:18-22 | the default backend is kubectl |
| `Types.DefaultState` | crates/easy-kpf-core/src/types.rs:69-71 | the default persisted registry has no entries |
| `Types.ToSerializable` | crates/easy-kpf-core/src/types.rs:45-50 | the persisted record keeps the pid and the definition exactly (it drops the start time) |
| `Types.FromSerializable` | crates/easy-kpf-core/src/types.rs:54-60 | a record read back keeps pid and definition and is stamped with the current time |
| `Types.SerializeRoundTrip` | crates/easy-kpf-core/src/types.rs:45-60 | persisting and reading back restores the record except its start time, which becomes `now`; persisting again gives the same persisted record |
| `Types.Deserialize` | crates/easy-kpf-core/src/types.rs:5-15 | a missing `local_interface` reads as none and a missing `forward_type` as kubectl; present fields and the other five fields are kept |
| `Types.DeserializeSerialize` | crates/easy-kpf-core/src/types.rs:5-15 | every definition written out reads back as itself |
| `Types.ForwardTypeNameRoundTrip` | crates/easy-kpf-core/src/types.rs:18-22 | the serialised variant names and the backends correspond one to one |
| `CommandBuilder.PresentVarsExact` | crates/easy-kpf-core/src/services/command_builder.rs:96-100 | exactly the passthrough variables that are set are copied, each with its own value |
| `CommandBuilder.CredentialEnv` | crates/easy-kpf-core/src/services/command_builder.rs:62-103 | the credential environment starts with `PATH`, followed by `HOME` when it is set |
| `CommandBuilder.CredentialEnvVars` | crates/easy-kpf-core/src/services/command_builder.rs:62-103 | the loop over the fifteen passthrough names builds exactly the credential environment |
| `CommandBuilder.SplitPortSuffix` | crates/easy-kpf-core/src/services/command_builder.rs:124-131 | an interface is split at its last colon only when the suffix parses as a u16, and the parts rebuild the interface; otherwise it is kept whole |
| `CommandBuilder.SplitPortSuffixNoColon` | crates/easy-kpf-core/src/services/command_builder.rs:126-129 | an interface without a colon is passed unchanged |
| `CommandBuilder.SplitPortSuffixPort` | crates/easy-kpf-core/src/services/command_builder.rs:126-129 | `ip:N` with N a port number yields `ip` and N |
| `CommandBuilder.KubectlArgs` | crates/easy-kpf-core/src/services/command_builder.rs:109-134 | the argument count: four fixed, two for a context, two for an address, one per port entry |
| `CommandBuilder.KubectlArgsLayout` | crates/easy-kpf-core/src/services/command_builder.rs:111-134 | `--context` comes first exactly when the context is non-empty; then `-n NS port-forward SERVICE`; then `--address` with the stripped interface exactly when one is set; the port entries are last, verbatim and in order |
| `CommandBuilder.KubectlCommandBuilder.BuildPortForwardCommand` | crates/easy-kpf-core/src/services/command_builder.rs:105-145 | the program is the configured kubectl, the arguments are the layout above, and the environment starts with `PATH` and gains `KUBECONFIG` exactly when a kubeconfig path is configured |
| `CommandBuilder.BindTarget` | crates/easy-kpf-core/src/services/command_builder.rs:204-213 | without an interface the bind address is `127.0.0.1` with no override; an override is always a valid u16 |
| `CommandBuilder.FormatSinglePort` | crates/easy-kpf-core/src/services/command_builder.rs:226-231 | a single port `p` becomes `bind:(override or p):localhost:p` |
| `CommandBuilder.FormatLocalRemote` | crates/easy-kpf-core/src/services/command_builder.rs:232-236 | `l:r` becomes `bind:(override or l):localhost:r` |
| `CommandBuilder.FormatVerbatim` | crates/easy-kpf-core/src/services/command_builder.rs:237-240 | an entry of three or more colon-separated parts is passed through behind the bind address |
| `CommandBuilder.FormatFourFields` | crates/easy-kpf-core/src/services/command_builder.rs:218-242 | with colon-free parts the specification splits back into exactly bind, local port, `localhost`, remote port |
| `CommandBuilder.BuildPortMappings` | crates/easy-kpf-core/src/services/command_builder.rs:198-216 | one specification per port entry, in order, each formatted with the same bind address and override |
| `CommandBuilder.DefaultBindSinglePort` | crates/easy-kpf-core/src/services/command_builder.rs:204-231 | without an interface a single port binds on the loopback address to the same remote port |
| `CommandBuilder.PortOverrideApplies` | crates/easy-kpf-core/src/services/command_builder.rs:204-236 | an interface `ip:N` replaces the local port of a two-part entry by N |
| `CommandBuilder.ForwardArgs` | crates/easy-kpf-core/src/services/command_builder.rs:175-177 | one `-L` pair per specification, in order |
| `CommandBuilder.SshArgs` | crates/easy-kpf-core/src/services/command_builder.rs:155-182 | the argument count: the eleven fixed options, two per port entry, and the target |
| `CommandBuilder.SshArgsLayout` | crates/easy-kpf-core/src/services/command_builder.rs:156-179 | the eleven fixed options come first, then one `-L` pair per port mapping in order, and the target is last |
| `CommandBuilder.BuildSshCommand` | crates/easy-kpf-core/src/services/command_builder.rs:155-182 | the program is `ssh` and the arguments are the layout above |
| `CommandBuilder.AppendForwards` | crates/easy-kpf-core/src/services/command_builder.rs:175-177 | the loop appends exactly the `-L` pairs of the specifications after the arguments so far |
| `ProcessDetector.NoPortsNoMatch` | src-tauri/src/services/process_detector.rs:97-99 | a definition without ports matches no line |
| `ProcessDetector.MatchNecessary` | src-tauri/src/services/process_detector.rs:86-104 | a matching line contains `kubectl`, `port-forward`, the service and one of the port entries |
| `ProcessDetector.MatchSufficient` | src-tauri/src/services/process_detector.rs:86-110 | the command line `kubectl port-forward -n NS SERVICE PORT` (after any prefix) matches its definition |
| `ProcessDetector.MatchFromParts` | src-tauri/src/services/process_detector.rs:86-114 | a line that contains both keywords, `-n NS`, the service and one port matches, wherever they occur |
| `ProcessDetector.ExtractPid` | src-tauri/src/services/process_detector.rs:116-124 | a pid is read only from a line with at least two fields, and it is the u32 value of the second one |
| `ProcessDetector.PidFromColumnTwo` | src-tauri/src/services/process_detector.rs:116-124 | a `ps` line `USER PID …` yields PID for every u32 PID |
| `ProcessDetector.SecondFieldPid` | src-tauri/src/services/process_detector.rs:116-124 | a line whose second field parses as a u32 yields that value |
| `ProcessDetector.NoSecondColumn` | src-tauri/src/services/process_detector.rs:116-124 | a line with fewer than two fields yields no pid |
| `ProcessDetector.FirstMatch` | src-tauri/src/services/process_detector.rs:33-39 | the first matching line: no earlier line matches, and the found one does |
| `ProcessDetector.IsKubectlProcessRunning` | src-tauri/src/services/process_detector.rs:12-26 | ssh definitions are never running and do not consult the listing; for kubectl a listing error is reported, and otherwise the result holds iff some line matches |
| `ProcessDetector.FindKubectlProcessPid` | src-tauri/src/services/process_detector.rs:28-42 | ssh definitions have no pid; a listing error is reported; a pid found is the pid column of the first matching line |
| `ProcessDetector.PidAgreesWithRunning` | src-tauri/src/services/process_detector.rs:12-42 | both queries fail together; a found pid means the tunnel is running; a running tunnel's pid is read from its first matching line |
| `Interface.SudoFailureNamesCommand` | crates/easy-kpf-core/src/services/interface/linux.rs:60-67 | a sudo failure mentioning `password` or `sudo:` yields a system error naming the command to run by hand |
| `Interface.SudoFailureCarriesStderr` | crates/easy-kpf-core/src/services/interface/linux.rs:68-72 | any other sudo failure yields a system error carrying the command's stderr |
| `Interface.TryWithSudo` | crates/easy-kpf-core/src/services/interface/linux.rs:46-76 | the privileged retry succeeds iff sudo ran and succeeded; a launch error and a failure give their two errors |
| `Interface.CreateInterface` | crates/easy-kpf-core/src/services/interface/linux.rs:27-33 | sudo is tried only when the unprivileged add did not succeed (a launch failure counts as not succeeding) |
| `Interface.EnsureLadder` | crates/easy-kpf-core/src/services/interface/linux.rs:8-14 | the probe runs first; a probe error aborts; an existing address creates nothing; otherwise the creation ladder runs |
| `Interface.EnsureLadderOutcome` | crates/easy-kpf-core/src/services/interface/linux.rs:8-76 | the ladder succeeds iff the address exists, the unprivileged add works, or sudo works after it failed; sudo runs iff the add failed; every sudo call has `-n` |
| `Interface.LinuxInterfaceExists` | crates/easy-kpf-core/src/services/interface/linux.rs:18-25 | the address exists iff `ip addr show` succeeded; a launch error is an error |
| `Interface.LinuxLadder` | crates/easy-kpf-core/src/services/interface/linux.rs:8-76 | on Linux: a successful probe ends the ladder; a successful add ends it without sudo; a failed add falls through to `sudo -n ip addr add`; a password refusal names `sudo ip addr add IFACE/32 dev lo` |
| `Interface.MacosInterfaceExists` | crates/easy-kpf-core/src/services/interface/macos.rs:18-29 | the address exists iff `ifconfig` succeeded and some trimmed output line starts with `inet` and contains it; a launch error is an error |
| `Interface.MacosLadder` | crates/easy-kpf-core/src/services/interface/macos.rs:8-72 | on macOS: the same ladder with `ifconfig lo0 alias`, `sudo -n ifconfig lo0 alias` and the advice `sudo ifconfig lo0 alias IFACE` |
| `Interface.SystemEnsure` | crates/easy-kpf-core/src/services/interface/mod.rs:25-56 | the three standard addresses succeed without running anything; any other address gets the platform manager's answer unchanged; an unsupported platform is a system error |
| `Interface.SkipIsExact` | crates/easy-kpf-core/src/services/interface/mod.rs:27-29 | the skip test is exact equality: `127.0.0.1:5335` and `LOCALHOST` are probed |
| `Interface.ProbeFirst` | crates/easy-kpf-core/src/services/interface/mod.rs:31-47 | for a non-standard address on Linux or macOS the platform probe is the first command run |
| `Registry.Snapshot` | src-tauri/src/services/process_manager.rs:43-50 | the persisted state has the same names, each with its pid and definition |
| `Registry.LiveEntries` | src-tauri/src/services/process_manager.rs:88-105 | a reload keeps exactly the entries whose probe answers alive (a probe error counts as dead), stamped with `now` |
| `Registry.Restamp` | src-tauri/src/services/process_manager.rs:88-105 | a restamped registry has the same names, each entry unchanged except its start time, which is `now` |
| `Registry.ReloadAllAlive` | src-tauri/src/services/process_manager.rs:36-105 | reloading a saved registry whose processes are all alive gives back every entry, restamped |
| `Registry.ReloadDropsDead` | src-tauri/src/services/process_manager.rs:88-105 | a saved entry survives a reload iff its probe answers alive |
| `Registry.TempPathOfJson` | src-tauri/src/services/process_manager.rs:52-53 | the state file `DIR/STEM.json` is staged at `DIR/STEM.tmp`, a different path |
| `Registry.Persist` | src-tauri/src/services/process_manager.rs:36-64 | a save succeeds iff both the write and the rename do, and then the state file holds the new state; a failed save leaves the state file as it was; each failure has its own message |
| `Registry.ProcessManager.New` | src-tauri/src/services/process_manager.rs:15-20 | an empty registry that is never persisted |
| `Registry.ProcessManager.WithStateFile` | src-tauri/src/services/process_manager.rs:22-34 | a registry persisted at the path, holding the live entries of a readable state file and nothing otherwise |
| `Registry.ProcessManager.LoadState` | src-tauri/src/services/process_manager.rs:66-114 | a missing file is Ok and adds nothing; an unreadable or malformed file is an error and adds nothing; otherwise the live entries are added and counted, and loaded plus skipped is the number of saved entries |
| `Registry.ProcessManager.InsertLive` | src-tauri/src/services/process_manager.rs:88-105 | the loading loop adds exactly the live entries and counts the loaded and skipped ones |
| `Registry.ProcessManager.SaveState` | src-tauri/src/services/process_manager.rs:36-64 | without a state path nothing is written; otherwise the snapshot is persisted by the temp-then-rename save |
| `Registry.ProcessManager.AddProcess` | src-tauri/src/services/process_manager.rs:116-134 | the entry is inserted or overwritten, then the registry is saved |
| `Registry.ProcessManager.RemoveProcess` | src-tauri/src/services/process_manager.rs:136-148 | the name is gone afterwards in every case; the result is the removed pid (or none) unless the save fails |
| `Registry.ProcessManager.GetProcessPid` | src-tauri/src/services/process_manager.rs:151-158 | a pid is returned iff the name is registered, and it is that entry's pid |
| `Registry.ProcessManager.ContainsProcess` | src-tauri/src/services/process_manager.rs:160-167 | true iff the name is registered |
| `Registry.ProcessManager.GetRunningServices` | src-tauri/src/services/process_manager.rs:169-176 | every registered name exactly once |
| `Registry.ProcessManager.GetRunningServicesWithPids` | src-tauri/src/services/process_manager.rs:178-190 | every registered name exactly once, each with its pid |
| `Registry.ProcessManager.UpdateProcessName` | src-tauri/src/services/process_manager.rs:192-207 | the entry moves to the new name (overwriting any entry there) and its definition takes that name; an unknown old name changes nothing; the registry is saved in both cases |
| `Registry.ProcessManager.CleanupAll` | src-tauri/src/services/process_manager.rs:209-223 | the registry is empty afterwards; unless the save fails, the result is the pids of all previous entries, one per entry |
| `Registry.SaveThenReload` | src-tauri/src/services/process_manager.rs:36-114 | a registry saved successfully and reloaded while its processes live is the same registry, restamped |
| `Registry.LoadDone` | src-tauri/src/services/process_manager.rs:88-105 | when the loading loop ends, the entries added are the live entries, and loaded plus skipped covers the file |
| `ConfigCache.Elapsed` | crates/easy-kpf-core/src/services/config_cache.rs:131-137 | the time since a stamp, zero for a stamp in the future |
| `ConfigCache.Position` | crates/easy-kpf-core/src/services/config_cache.rs:98-99 | the index of the first definition with the name, or none when no definition has it |
| `ConfigCache.Find` | crates/easy-kpf-core/src/services/config_cache.rs:77-80 | some definition is found iff one has the name, and the one found has it |
| `ConfigCache.Retain` | crates/easy-kpf-core/src/services/config_cache.rs:88-92 | exactly the definitions with another name are kept |
| `ConfigCache.RetainAppend` | crates/easy-kpf-core/src/services/config_cache.rs:88-92 | removal works piecewise, so the kept definitions stay in their order |
| `ConfigCache.RetainAbsent` | crates/easy-kpf-core/src/services/config_cache.rs:88-92 | removing a name nobody has leaves the list as it was |
| `ConfigCache.Moved` | crates/easy-kpf-core/src/services/config_cache.rs:123-125 | the moved definition lands at the new index and the others keep their relative order |
| `ConfigCache.MovedPermutes` | crates/easy-kpf-core/src/services/config_cache.rs:123-125 | moving keeps the length and the multiset of definitions |
| `ConfigCache.MovedBack` | crates/easy-kpf-core/src/services/config_cache.rs:123-125 | moving back to the old index restores the list |
| `ConfigCache.ConfigCache.New` | crates/easy-kpf-core/src/services/config_cache.rs:20-29 | an empty cache with a lifetime of five seconds |
| `ConfigCache.ConfigCache.WithTtl` | crates/easy-kpf-core/src/services/config_cache.rs:32-41 | an empty cache with the given lifetime |
| `ConfigCache.ConfigCache.GetConfigs` | crates/easy-kpf-core/src/services/config_cache.rs:43-56 | a fresh cache is served without touching it; otherwise the store is reloaded, and on success the cache is refilled and stamped; only a reload can fail |
| `ConfigCache.ConfigCache.Invalidate` | crates/easy-kpf-core/src/services/config_cache.rs:59-63 | both the list and its stamp are cleared, so the cache is not fresh |
| `ConfigCache.ConfigCache.UpdateConfigs` | crates/easy-kpf-core/src/services/config_cache.rs:65-75 | the store is saved first; a failed save leaves store and cache unchanged; a successful one refills the cache |
| `ConfigCache.ConfigCache.FindConfig` | crates/easy-kpf-core/src/services/config_cache.rs:77-80 | the first stored definition with the name, or the load error |
| `ConfigCache.ConfigCache.AddConfig` | crates/easy-kpf-core/src/services/config_cache.rs:82-86 | the definition is appended at the end; any failure leaves the store as it was |
| `ConfigCache.ConfigCache.RemoveConfig` | crates/easy-kpf-core/src/services/config_cache.rs:88-92 | every definition with the name is dropped and the rest keep their order |
| `ConfigCache.ConfigCache.UpdateConfig` | crates/easy-kpf-core/src/services/config_cache.rs:94-106 | the first definition with the old name is replaced at its index; an unknown name is `NotFound` and nothing is saved |
| `ConfigCache.ConfigCache.ReorderConfig` | crates/easy-kpf-core/src/services/config_cache.rs:108-129 | an unknown name is `NotFound`, then an index past the end is `InvalidInput`; otherwise the definition moves to the new index |
| `KubectlService.FormatKubectlError` | crates/easy-kpf-tauri/src/services/kubectl_service.rs:117-136 | an unclassified text comes back behind `kubectl error: `; any other class gets its fixed advice |
| `KubectlService.FallbackExactlyWhenUnclassified` | crates/easy-kpf-tauri/src/services/kubectl_service.rs:117-136 | the original text comes back iff no test matches |
| `KubectlService.ClassifyIgnoresCase` | crates/easy-kpf-tauri/src/services/kubectl_service.rs:118 | texts equal up to case get the same class and the same advice |
| `KubectlService.ClassifyLowered` | crates/easy-kpf-tauri/src/services/kubectl_service.rs:118 | lowercasing a text first does not change its class |
| `KubectlService.ContextBeforePlugin` | crates/easy-kpf-tauri/src/services/kubectl_service.rs:128-132 | a text naming both `context` and the GKE plugin gets the missing-context advice |
| `KubectlService.KubectlCommand` | crates/easy-kpf-tauri/src/services/kubectl_service.rs:43-48 | the stored kubectl path, or `kubectl` when none can be loaded |
| `KubectlService.KubeconfigPath` | crates/easy-kpf-tauri/src/services/kubectl_service.rs:50-72 | the stored path, then `KUBECONFIG`, then `$HOME/.kube/config` if it exists, else none |
| `KubectlService.KubeconfigFallback` | crates/easy-kpf-tauri/src/services/kubectl_service.rs:58-71 | without a stored path there is no kubeconfig iff `KUBECONFIG` is unset and the default file is missing; a default returned exists |
| `KubectlService.FirstExisting` | crates/easy-kpf-tauri/src/services/kubectl_service.rs:88-96 | the first existing path in order; none iff none exists |
| `KubectlService.WhichAnswer` | crates/easy-kpf-tauri/src/services/kubectl_service.rs:76-86 | `which` names a path iff it ran, succeeded and printed something; the path is its trimmed output |
| `KubectlService.DetectAmong` | crates/easy-kpf-tauri/src/services/kubectl_service.rs:74-99 | an existing `which` answer wins; otherwise the first existing fixed location; not found iff neither exists |
| `KubectlService.DetectKubectlPath` | crates/easy-kpf-tauri/src/services/kubectl_service.rs:74-99 | the detected path always exists; the detection fails with `kubectl not found in common locations` iff `which` gave no existing file and none of the five locations exists |
| `KubectlService.ValidateKubectlPath` | crates/easy-kpf-tauri/src/services/kubectl_service.rs:101-115 | a missing file is not valid; otherwise validity is the success of `version --client`, and a launch error is an error |
| `KubectlService.CallWith` | crates/easy-kpf-tauri/src/services/kubectl_service.rs:138-149 | the kubectl command with the given arguments, with `KUBECONFIG` set exactly when a kubeconfig is found |
| `KubectlService.Interpret` | crates/easy-kpf-tauri/src/services/kubectl_service.rs:154-181 | a launch failure is reported as is, a failed run by its classified stderr, a successful run by its parsed stdout |
| `KubectlService.ServiceNames` | crates/easy-kpf-tauri/src/services/kubectl_service.rs:207-210 | one name per whitespace-separated field, each behind `svc/` |
| `KubectlService.BareServiceName` | crates/easy-kpf-tauri/src/services/kubectl_service.rs:231 | a leading `svc/` is stripped, and only a leading one |
| `KubectlService.ListedServiceQueried` | crates/easy-kpf-tauri/src/services/kubectl_service.rs:207-231 | a listed service is queried for its ports under the name kubectl listed |
| `KubectlService.SelfMappingHalves` | crates/easy-kpf-tauri/src/services/kubectl_service.rs:250-254 | a port `p` becomes a mapping whose local and remote halves are both `p` |
| `KubectlService.SamePortMappings` | crates/easy-kpf-tauri/src/services/kubectl_service.rs:250-254 | one `p:p` mapping per listed port, in order |
| `KubectlService.ContextNames` | crates/easy-kpf-tauri/src/services/kubectl_service.rs:276-280 | context names are non-empty and trimmed |
| `KubectlService.GetNamespaces` | crates/easy-kpf-tauri/src/services/kubectl_service.rs:154-181 | Ok iff kubectl ran and succeeded, and then the namespaces are the non-empty whitespace-free fields of its output |
| `KubectlService.GetServices` | crates/easy-kpf-tauri/src/services/kubectl_service.rs:183-216 | Ok iff kubectl ran and succeeded, and then every service is listed behind `svc/` |
| `KubectlService.GetServicePorts` | crates/easy-kpf-tauri/src/services/kubectl_service.rs:218-260 | Ok iff kubectl ran and succeeded, and then each listed port is offered as `p:p` |
| `KubectlService.PortsQueryIgnoresPrefix` | crates/easy-kpf-tauri/src/services/kubectl_service.rs:231 | a service is queried for its ports under the same name with or without `svc/` |
| `KubectlService.GetContexts` | crates/easy-kpf-tauri/src/services/kubectl_service.rs:262-289 | Ok iff kubectl ran and succeeded, and then the contexts are its trimmed non-empty lines |
| `KubectlService.GetCurrentContext` | crates/easy-kpf-tauri/src/services/kubectl_service.rs:291-310 | Ok iff kubectl ran and succeeded, and then the context is its trimmed output |
| `KubectlService.SetContext` | crates/easy-kpf-tauri/src/services/kubectl_service.rs:312-331 | Ok iff kubectl ran and succeeded, with the output as printed; a failure carries the classified stderr |
| `ForwardSpec.Save` | src-tauri/src/services/process_manager.rs:36-64 | a save fails iff there is a state path and a file step fails; on success the state file holds the registry's snapshot |
| `ForwardSpec.LaunchFor` | src-tauri/src/services/port_forward_service.rs:120-195 | a kubectl tunnel launches the stored kubectl (or `kubectl`) with the kubectl arguments and `PATH` first; an ssh tunnel launches `ssh` with the ssh arguments and no environment |
| `ForwardSpec.ExecuteSteps` | src-tauri/src/services/port_forward_service.rs:113-195 | the interface step comes first and its error aborts with nothing launched; otherwise exactly one launch; a failed launch registers nothing; a successful one registers the pid and saves, and the result is Ok iff the save succeeds |
| `ForwardSpec.StartIsExecute` | src-tauri/src/services/port_forward_service.rs:79-111 | when the name is free and the context switch works, a start is its execution phase, with the context restored |
| `ForwardSpec.StartRejectsRegistered` | src-tauri/src/services/port_forward_service.rs:85-90 | a registered name is refused with `already running` and nothing changes |
| `ForwardSpec.StartRestoresContext` | src-tauri/src/services/port_forward_service.rs:93-110 | an ssh start never touches the context; a kubectl start leaves the original context in place whenever switching back works |
| `ForwardSpec.StartLaunchesOnlyWhenReady` | src-tauri/src/services/port_forward_service.rs:79-195 | nothing is launched, registered or saved unless every step before the launch succeeds, and then exactly one process is launched |
| `ForwardSpec.StartSpawnFailure` | src-tauri/src/services/port_forward_service.rs:144-154 | a failed launch reports a port-forward error and registers nothing |
| `ForwardSpec.StartRegisters` | src-tauri/src/services/port_forward_service.rs:144-154 | a successful launch registers the name with the pid and the definition, and the start reports success iff the save succeeds |
| `ForwardSpec.StartTouchesOnlyItsName` | src-tauri/src/services/port_forward_service.rs:79-195 | a start changes no registry entry but its own |
| `ForwardSpec.StopRemovesFirst` | src-tauri/src/services/port_forward_service.rs:197-211 | after a stop the name is never registered, whatever else happens, and no other entry changes |
| `ForwardSpec.StopNotRunning` | src-tauri/src/services/port_forward_service.rs:197-211 | stopping an unregistered name is `NotFound` and kills nothing |
| `ForwardSpec.StopKills` | src-tauri/src/services/port_forward_service.rs:197-211 | a registered name is killed by its pid; a kill failure is reported, but the entry stays removed |
| `ForwardSpec.StopSaveFailureSkipsKill` | src-tauri/src/services/port_forward_service.rs:197-211 | when the save after the removal fails, the stop reports it and kills nothing |
| `ForwardSpec.Pruned` | src-tauri/src/services/port_forward_service.rs:227-241 | pruning keeps exactly the entries whose pid is not reported dead |
| `ForwardSpec.PrunedIdempotent` | src-tauri/src/services/port_forward_service.rs:227-241 | pruning twice is pruning once |
| `ForwardSpec.StoppedNames` | src-tauri/src/services/port_forward_service.rs:243-254 | the names reported not running |
| `ForwardSpec.StoppedOnlyDead` | src-tauri/src/services/port_forward_service.rs:227-254 | every name reported stopped is registered and its pid is not reported running |
| `ForwardSpec.StoppedIncludesDead` | src-tauri/src/services/port_forward_service.rs:227-254 | every registered name whose pid is reported dead is reported stopped |
| `ForwardSpec.StoppedAreDead` | src-tauri/src/services/port_forward_service.rs:227-254 | with every probe answered, exactly the registered names whose pid is dead are reported stopped |
| `ForwardSpec.PrunedFromListing` | src-tauri/src/services/port_forward_service.rs:227-241 | removing the dead entries of a full listing leaves exactly the pruned registry |
| `ForwardSpec.DetectedNames` | src-tauri/src/services/port_forward_service.rs:256-269 | at most one detected name per definition |
| `ForwardSpec.Unregistered` | src-tauri/src/services/port_forward_service.rs:260-266 | at most one picked name per definition |
| `ForwardSpec.DetectedOnlyRunning` | src-tauri/src/services/port_forward_service.rs:260-266 | a picked name is unregistered and belongs to a definition seen running |
| `ForwardSpec.DetectedAllRunning` | src-tauri/src/services/port_forward_service.rs:260-266 | an unregistered definition seen running is picked |
| `ForwardSpec.DetectedExactly` | src-tauri/src/services/port_forward_service.rs:256-269 | a name is detected iff it is unregistered and a definition with that name is seen running in the listing |
| `ForwardSpec.AdoptionFor` | src-tauri/src/services/port_forward_service.rs:276-285 | a detected name is adopted with its first definition and the pid read for it, and only when a pid is found |
| `ForwardSpec.PlanFromNames` | src-tauri/src/services/port_forward_service.rs:276-285 | every adoption of a plan comes from one of its names |
| `ForwardSpec.SyncPlanSound` | src-tauri/src/services/port_forward_service.rs:271-289 | every adoption is for a detected name, with that name's first definition and the pid the detector found |
| `ForwardSpec.PlanNames` | src-tauri/src/services/port_forward_service.rs:271-289 | the names of the adoptions, in order |
| `ForwardSpec.Apply` | src-tauri/src/services/port_forward_service.rs:280-282 | after registering a plan, the registered names are the old ones and the plan's |
| `ForwardSpec.ApplyKeepsRegistered` | src-tauri/src/services/port_forward_service.rs:271-289 | adopting unregistered names never changes an existing entry |
| `ForwardSpec.SyncPlanUnregistered` | src-tauri/src/services/port_forward_service.rs:256-289 | every name a sync adopts was unregistered before it |
| `ForwardSpec.Renamed` | src-tauri/src/services/process_manager.rs:192-207 | a rename moves the entry, keeps its pid and gives its definition the new name; an unknown name changes nothing |
| `ForwardService.PortForwardService.New` | src-tauri/src/services/port_forward_service.rs:20-33 | a service over the given registry with a fresh cache over the stored definitions |
| `ForwardService.PortForwardService.GetCurrentContext` | crates/easy-kpf-tauri/src/services/kubectl_service.rs:291-310 | the current context, or the read error |
| `ForwardService.PortForwardService.SetContext` | crates/easy-kpf-tauri/src/services/kubectl_service.rs:312-331 | the context switches unless the switch fails, which leaves it as it was |
| `ForwardService.PortForwardService.ExecuteKubectl` | src-tauri/src/services/port_forward_service.rs:120-160 | the result and the new registry, disk and launches are those of the execution phase |
| `ForwardService.PortForwardService.ExecuteSsh` | src-tauri/src/services/port_forward_service.rs:162-195 | the result and the new registry, disk and launches are those of the execution phase |
| `ForwardService.PortForwardService.StartPortForward` | src-tauri/src/services/port_forward_service.rs:79-111 | the result and the new state are those of the start rules proved above |
| `ForwardService.PortForwardService.StartPortForwardByKey` | src-tauri/src/services/port_forward_service.rs:62-77 | the first definition with the key is started; a load error or an unknown key (`NotFound`) changes nothing |
| `ForwardService.PortForwardService.StopPortForward` | src-tauri/src/services/port_forward_service.rs:197-211 | the result and the new state are those of the stop rules proved above |
| `ForwardService.PortForwardService.CleanupAllPortForwards` | src-tauri/src/services/port_forward_service.rs:217-225 | the registry is emptied and saved; unless the save fails, every previously registered pid is killed once |
| `ForwardService.PortForwardService.KillAll` | src-tauri/src/services/port_forward_service.rs:220-223 | every pid is killed once, in order, whatever each kill returns |
| `ForwardService.PortForwardService.VerifyPortForwards` | src-tauri/src/services/port_forward_service.rs:227-241 | one (name, alive) pair per prior entry and the pruned registry remain; a probe error aborts, keeps every entry not reported dead, and is the error of a registered pid |
| `ForwardService.PortForwardService.VerifyAndUpdatePortForwards` | src-tauri/src/services/port_forward_service.rs:243-254 | exactly the names whose pid is reported dead are returned, and they are unregistered |
| `ForwardService.PortForwardService.DetectExistingPortForwards` | src-tauri/src/services/port_forward_service.rs:256-269 | the detected names, or the load error, or the listing error when a kubectl definition needs the listing |
| `ForwardService.PortForwardService.AdoptDetected` | src-tauri/src/services/port_forward_service.rs:276-285 | one detected name is registered with its adoption, if it has one |
| `ForwardService.PortForwardService.SyncWithExistingProcesses` | src-tauri/src/services/port_forward_service.rs:271-289 | the registry gains exactly the plan's adoptions and their names are returned; a failed save leaves a prefix of the plan registered; existing entries never change |
| `ForwardService.PortForwardService.AdoptAll` | src-tauri/src/services/port_forward_service.rs:276-286 | the loop registers the adoptions of the names in order, stopping at the first failed save |
| `ForwardService.PortForwardService.AdoptNext` | src-tauri/src/services/port_forward_service.rs:276-285 | one loop turn registers the next piece of the plan |
| `ForwardService.PortForwardService.UpdateConfig` | src-tauri/src/services/port_forward_service.rs:47-56 | the registry entry is renamed only when the name changes, and a failed rename save stops the update; then the definition is replaced as in the cache |
| `ForwardService.VerifyStep` | src-tauri/src/services/port_forward_service.rs:230-238 | one answered probe extends the verification and removes the entry iff it is dead |
| `ForwardService.VerifyAbort` | src-tauri/src/services/port_forward_service.rs:230-238 | a probe error is the error of a registered pid and no live entry was removed |
| `ForwardService.VerifyKeepsLive` | src-tauri/src/services/port_forward_service.rs:227-241 | no entry whose pid is not reported dead is ever removed |
| `ForwardService.VerifyDone` | src-tauri/src/services/port_forward_service.rs:227-241 | a finished verification reports every prior entry once, and the pruned registry remains |
| `ForwardService.DetectStep` | src-tauri/src/services/port_forward_service.rs:260-266 | one more definition whose probe answers extends the detected names |
| `ForwardService.DetectAbort` | src-tauri/src/services/port_forward_service.rs:260-266 | a failed probe fails the whole detection with the listing error |
| `ForwardService.DetectedFacts` | src-tauri/src/services/port_forward_service.rs:256-269 | every detected name is unregistered and comes from a listing that was read |
| `ForwardService.SyncStep` | src-tauri/src/services/port_forward_service.rs:276-285 | a name's adoption is the next piece of the plan |
| `ForwardService.SyncAbort` | src-tauri/src/services/port_forward_service.rs:276-285 | a failed save stops a sync after a prefix of its plan |
| `ForwardService.SyncDone` | src-tauri/src/services/port_forward_service.rs:271-289 | a finished sync has made exactly the plan's adoptions |
| `ForwardService.ApplySnoc` | src-tauri/src/services/port_forward_service.rs:280-282 | registering one more adoption is applying the longer plan |
| `TerminalForward.ParseLocalPort` | crates/easy-kpf-cli/src/actions/port_forward.rs:12-15 | a local port is a u16 |
| `TerminalForward.ParseLocalPortOfMapping` | crates/easy-kpf-cli/src/actions/port_forward.rs:12-15 | `N:remote` and a bare `N` have local port N |
| `TerminalForward.PrivilegedPort` | crates/easy-kpf-cli/src/actions/port_forward.rs:26-33 | a mapping contributes its local port iff that port parses and is below 1024 |
| `TerminalForward.FindPrivilegedPorts` | crates/easy-kpf-cli/src/actions/port_forward.rs:26-33 | at most one port per mapping |
| `TerminalForward.FindPrivilegedOrder` | crates/easy-kpf-cli/src/actions/port_forward.rs:26-33 | the ports of a list are those of its parts, in mapping order, all below 1024 |
| `TerminalForward.FindPrivilegedMembers` | crates/easy-kpf-cli/src/actions/port_forward.rs:26-33 | a port is reported iff some mapping asks for it as a privileged local port |
| `TerminalForward.NoPrivilegedPorts` | crates/easy-kpf-cli/src/actions/port_forward.rs:26-33 | none are found iff no mapping asks for one |
| `TerminalForward.CheckPrivilegedPorts` | crates/easy-kpf-cli/src/actions/port_forward.rs:36-65 | the start proceeds iff the process runs as root or no mapping is privileged; otherwise the warning becomes the status and a stderr log line |
| `TerminalForward.BuildCommand` | crates/easy-kpf-cli/src/actions/port_forward.rs:68-89 | the terminal launches exactly what the desktop orchestrator launches for the definition |
| `TerminalForward.StartPortForward` | crates/easy-kpf-cli/src/actions/port_forward.rs:168-191 | a blocked start is Ok and launches and registers nothing; a launch error is returned before any bookkeeping; a launch records the pid in the interface and in the registry under the same name, and the registry's state file is what its save leaves (the save's result is ignored); agreement between the two is kept |
| `TerminalForward.RecordStart` | crates/easy-kpf-cli/src/actions/port_forward.rs:181-185 | the pid is recorded in the interface and in the registry, the registry is saved whatever the outcome, and the status reports it |
| `TerminalForward.StopPortForward` | crates/easy-kpf-cli/src/actions/port_forward.rs:193-203 | a running name is dropped from the interface and the registry, the registry is saved (its outcome ignored) and its pid is signalled; an unknown name changes nothing, not even the state file; the result is always Ok |
| `TerminalForward.HandleProcessEvent` | crates/easy-kpf-cli/src/actions/port_forward.rs:108-166 | reading stops iff the process terminated; only stdout lines are logged as stdout; line and error texts are logged as received |
| `TerminalForward.LogFor` | crates/easy-kpf-cli/src/actions/port_forward.rs:92-105 | each log line sent is the line of the event at the same position, under the tunnel's name |
| `TerminalForward.LogStopsAtExit` | crates/easy-kpf-cli/src/actions/port_forward.rs:92-105 | every event before the first exit is logged, the exit is logged last, and nothing after it |
| `TerminalForward.LogWithoutExit` | crates/easy-kpf-cli/src/actions/port_forward.rs:92-105 | without an exit every event is logged |
| `TerminalForward.ReadOutput` | crates/easy-kpf-cli/src/actions/port_forward.rs:92-105 | the reader loop sends exactly that log |
| `EditFields.Count` | crates/easy-kpf-cli/src/state/edit_field.rs:131-133 | there are seven fields |
| `EditFields.FromIndex` | crates/easy-kpf-cli/src/state/edit_field.rs:28-30 | a field exists at a position iff it is below seven |
| `EditFields.Index` | crates/easy-kpf-cli/src/state/edit_field.rs:34-44 | a field's index is below seven and is its position in form order |
| `EditFields.IndexRoundTrip` | crates/easy-kpf-cli/src/state/edit_field.rs:28-44 | positions and fields correspond one to one |
| `EditFields.FieldCapabilities` | crates/easy-kpf-cli/src/state/edit_field.rs:68-77 | five fields offer suggestions and three regenerate the name; those three all offer suggestions; name and local interface do neither |
| `EditFields.ReadPorts` | crates/easy-kpf-cli/src/state/edit_field.rs:102-108 | typed ports are non-empty, trimmed and free of commas |
| `EditFields.SetValue` | crates/easy-kpf-cli/src/state/edit_field.rs:96-120 | only the field's own part of the definition changes; an empty interface is none; the backend is ssh iff the text is `ssh` in any case |
| `EditFields.GetAfterSet` | crates/easy-kpf-cli/src/state/edit_field.rs:80-120 | what is typed into a text field is what the field then shows |
| `EditFields.ForwardTypeIgnoresCase` | crates/easy-kpf-cli/src/state/edit_field.rs:112-118 | `SSH`, `Ssh` and `ssh` all choose ssh |
| `EditFields.SetGetRoundTrip` | crates/easy-kpf-cli/src/state/edit_field.rs:80-120 | storing back what a field shows leaves the definition unchanged, given ports that are non-empty, trimmed and comma-free and no empty interface |
| `EditFields.PortsRoundTrip` | crates/easy-kpf-cli/src/state/edit_field.rs:86-108 | ports shown joined by `, ` and read back are the same ports |
| `TerminalApp.DefaultAutocomplete` | crates/easy-kpf-cli/src/state/autocomplete.rs:23-35 | no suggestions except the two backends, nothing selected |
| `TerminalApp.FoundBelow` | crates/easy-kpf-cli/src/app.rs:162-178 | exactly the positions whose name, service, namespace or context contains the query, ascending |
| `TerminalApp.Found` | crates/easy-kpf-cli/src/app.rs:162-178 | the search is made with the lowercased text |
| `TerminalApp.EmptySearchFindsAll` | crates/easy-kpf-cli/src/app.rs:162-178 | the empty search finds every definition |
| `TerminalApp.VisualOrderPermutes` | crates/easy-kpf-cli/src/app.rs:181-197 | the listing shows exactly the found definitions, each once |
| `TerminalApp.VisualOrderByContext` | crates/easy-kpf-cli/src/app.rs:181-197 | the listing is grouped by context, contexts ascending |
| `TerminalApp.VisualOrderKeepsGroups` | crates/easy-kpf-cli/src/app.rs:181-197 | within a context the listing keeps the order in which the definitions were found |
| `TerminalApp.VisualOrderWithinContext` | crates/easy-kpf-cli/src/app.rs:181-197 | within a context definitions appear in ascending position |
| `TerminalApp.NextSlot` | crates/easy-kpf-cli/src/app.rs:475-494 | the next position stays in range |
| `TerminalApp.PrevSlot` | crates/easy-kpf-cli/src/app.rs:496-519 | the previous position stays in range |
| `TerminalApp.SlotsInverse` | crates/easy-kpf-cli/src/app.rs:475-519 | stepping forward then back, or back then forward, returns to the same position |
| `TerminalApp.NextSlotValue` | crates/easy-kpf-cli/src/app.rs:475-494 | the next position is one further, except after the last, which wraps to the first |
| `TerminalApp.MoveByOne` | crates/easy-kpf-cli/src/app.rs:233-241 | moving the selection by one either way is stepping to the next or previous position |
| `TerminalApp.DeriveConfigName` | crates/easy-kpf-cli/src/app.rs:381-409 | an unnamed kubectl service gives `new-forward`; otherwise a kubectl name starts with `service-` |
| `TerminalApp.SameNameAsDesktop` | crates/easy-kpf-cli/src/app.rs:381-409 | the terminal proposes the desktop form's name whenever service, host and local port are non-empty |
| `TerminalApp.NamesDifferOnEmptyParts` | crates/easy-kpf-cli/src/app.rs:381-409 | the two differ where a part is empty: `new-forward` against `-PORT`, and `service-` against `service-unknown` |
| `TerminalApp.DeriveIgnoresName` | crates/easy-kpf-cli/src/app.rs:381-409 | the proposed name does not depend on the current name |
| `TerminalApp.App.New` | crates/easy-kpf-cli/src/app.rs:90-137 | a fresh interface lists every definition, selects the first and edits nothing |
| `TerminalApp.App.UpdateVisualOrder` | crates/easy-kpf-cli/src/app.rs:160-203 | the list becomes the listing order of the search, and a selection past its end moves to the last entry |
| `TerminalApp.App.MoveSelection` | crates/easy-kpf-cli/src/app.rs:233-241 | the selection moves by delta and wraps around (Euclidean remainder), staying in range; an empty list keeps it |
| `TerminalApp.App.SelectFirst` | crates/easy-kpf-cli/src/app.rs:243-245 | the first entry is selected |
| `TerminalApp.App.SelectLast` | crates/easy-kpf-cli/src/app.rs:247-251 | the last entry is selected; an empty list keeps the selection |
| `TerminalApp.App.VisualSelectionRange` | crates/easy-kpf-cli/src/app.rs:265-271 | none without an anchor; otherwise the anchor and the selection, smaller first |
| `TerminalApp.App.IsInVisualSelection` | crates/easy-kpf-cli/src/app.rs:274-282 | a position is in the range iff visual mode has an anchor and the position lies between it and the selection |
| `TerminalApp.App.EnterVisualMode` | crates/easy-kpf-cli/src/app.rs:253-256 | the range is the selected entry alone |
| `TerminalApp.App.ExitVisualMode` | crates/easy-kpf-cli/src/app.rs:258-261 | nothing is in the range any more |
| `TerminalApp.App.HasUnsavedChanges` | crates/easy-kpf-cli/src/app.rs:640-654 | true iff both the edited and the original definition exist and differ |
| `TerminalApp.App.GetEditFieldValue` | crates/easy-kpf-cli/src/app.rs:429-439 | the text the current field shows for the edited definition, empty without one |
| `TerminalApp.App.UpdateAutoGeneratedName` | crates/easy-kpf-cli/src/app.rs:412-427 | while names are proposed the edited name becomes the derived one, and the name field shows it |
| `TerminalApp.App.SetEditFieldValue` | crates/easy-kpf-cli/src/app.rs:441-455 | the text is stored into the current field, and a field that regenerates names leaves the definition named by its derived name |
| `TerminalApp.App.NextEditField` | crates/easy-kpf-cli/src/app.rs:475-494 | the typed text is stored; the next field (wrapping) becomes current and shows its text with the cursor at its end; a field with suggestions stores that text back, so a proposed name is regenerated on the service, ports and backend fields; the suggestions are refreshed for the new field |
| `TerminalApp.App.PrevEditField` | crates/easy-kpf-cli/src/app.rs:496-519 | the same for the previous field, wrapping from the first to the last |
| `TerminalApp.App.MoveToField` | crates/easy-kpf-cli/src/app.rs:477-493 | the field becomes current, shows the edited definition's text, stores it back when it offers suggestions, and refreshes the suggestions |
| `TerminalApp.App.ShowField` | crates/easy-kpf-cli/src/app.rs:478-481 | the field's text is shown with the cursor at its end, and the suggestions lose focus and typing |
| `TerminalApp.App.EnterField` | crates/easy-kpf-cli/src/app.rs:483-493 | a field with suggestions loads them (the backend field also selects its shown value); any other field resets them to the defaults |
| `TerminalApp.App.LoadAutocomplete` | crates/easy-kpf-cli/src/app.rs:661-684 | the selection returns to the first suggestion and the field's text is stored; while a definition is edited, a context, namespace, service or ports field empties its list and is marked loading |
| `TerminalApp.App.ClearAutocomplete` | crates/easy-kpf-cli/src/app.rs:780-782 | the suggestions return to their defaults |
| `TerminalApp.App.SyncAutocompleteSelection` | crates/easy-kpf-cli/src/app.rs:785-796 | the selection moves to the first suggestion equal to the field's text, or to the first suggestion when none is |
| `TerminalApp.Stored` | crates/easy-kpf-cli/src/app.rs:441-455 | storing text into a field changes only that field's part, and the name only when it is proposed and the field regenerates names, in which case it is the derived name |
| `TerminalApp.RestoreShown` | crates/easy-kpf-cli/src/app.rs:661-665 | storing back the text a field shows leaves a definition unchanged except for a regenerated proposed name, for every field that survives being shown and read back |
| `TerminalApp.SuggestionsFor` | crates/easy-kpf-cli/src/app.rs:740-749 | the backend field offers the backends; the name and local interface fields offer nothing |
| `TerminalApp.SelectionOf` | crates/easy-kpf-cli/src/app.rs:785-796 | the first position holding the text when some suggestion equals it, else 0 |
| `TerminalApp.Loading` | crates/easy-kpf-cli/src/app.rs:661-684 | the selection is reset; while editing, a kubectl-backed field's list is emptied and marked loading; every other list stays |
| `TerminalApp.Refreshed` | crates/easy-kpf-cli/src/app.rs:480-493 | focus and typing end; a field without suggestions resets them to the defaults; while a definition is edited a kubectl-backed field waits with an empty list; the backend field selects the backend it shows |
| `TerminalApp.BackendFieldSelectsCurrent` | crates/easy-kpf-cli/src/app.rs:486-490 | with the default backends on offer, entering the backend field selects `kubectl` at 0 or `ssh` at 1, as the definition has |
| `TerminalApp.App.Suggestions` | crates/easy-kpf-cli/src/app.rs:740-749 | the backend field offers the backends; name, local interface and positions past the form offer nothing |
| `TerminalApp.App.AutocompleteNext` | crates/easy-kpf-cli/src/app.rs:752-757 | the next suggestion, wrapping to the first; nothing changes without suggestions |
| `TerminalApp.App.AutocompletePrev` | crates/easy-kpf-cli/src/app.rs:759-768 | the previous suggestion, wrapping to the last; nothing changes without suggestions |
| `TerminalApp.ListingOrder` | crates/easy-kpf-cli/src/app.rs:160-198 | the three passes (find, group, flatten) compute the listing order |
| `TerminalApp.FindMatches` | crates/easy-kpf-cli/src/app.rs:162-178 | the find loop gives the found positions in order |
| `TerminalApp.GroupByContext` | crates/easy-kpf-cli/src/app.rs:181-188 | the grouping loop gives one group per context holding its found positions in order |
| `TerminalApp.Flatten` | crates/easy-kpf-cli/src/app.rs:189-197 | the groups one after the other, contexts in ascending order |
| `TerminalApp.GroupStep` | crates/easy-kpf-cli/src/app.rs:181-188 | one grouping step adds the next position to its context's group |
| `FormState.AfterLastAt` | src/hooks/useFormState.ts:10 | the text after the last `@`, which holds no `@`; a host without one is kept whole |
| `FormState.FirstLocalPart` | src/hooks/useFormState.ts:11 | a local part exists iff there is a mapping, and it has no colon |
| `FormState.DeriveConfigName` | src/hooks/useFormState.ts:3-17 | a kubectl name starts with `service-` |
| `FormState.LocalPartOfMapping` | src/hooks/useFormState.ts:11 | the local part of `local:rest` is `local` |
| `FormState.SshNameOfUserAtHost` | src/hooks/useFormState.ts:9-12 | `user@host` with first mapping `local:remote` is named `host-local` |
| `FormState.SshTrailingAt` | src/hooks/useFormState.ts:10 | a host ending in `@` has nothing after it, so the whole host text is used |
| `FormState.UnknownPort` | src/hooks/useFormState.ts:11-15 | without mappings, or with an empty local part, the name ends in `-unknown` |
| `FormState.EmptyServiceName` | src/hooks/useFormState.ts:15 | a kubectl name has no special case for an empty service: it starts with `-` |
| `Grouping.GroupKey` | src/utils/groupingUtils.ts:10 | ssh definitions are under `SSH`, the others under their context |
| `Grouping.Groups` | src/utils/groupingUtils.ts:8-23 | one group per heading: the result when no heading names an `Object.prototype` member |
| `Grouping.GroupConfigsByContext` | src/utils/groupingUtils.ts:8-23 | the grouping throws iff some definition's heading names an `Object.prototype` member (the error names such a heading); otherwise the `reduce` and the read-out compute the groups |
| `Grouping.Push` | src/utils/groupingUtils.ts:12-15 | pushing a definition onto its heading's list, opening the list first for a new heading, keeps the accumulator equal to the grouping of the definitions read so far |
| `Grouping.InheritedHeadingThrows` | src/utils/groupingUtils.ts:12-15 | a kubectl definition with context `constructor` makes the grouping throw; definitions that are all ssh never do |
| `Grouping.AccumulateStep` | src/utils/groupingUtils.ts:9-17 | one `reduce` step keeps the accumulator faithful to the prefix read |
| `Grouping.GroupsPermute` | src/utils/groupingUtils.ts:9-22 | every definition lands in exactly one group, and the total count is kept |
| `Grouping.GroupMembership` | src/utils/groupingUtils.ts:10-15 | a definition is in a group iff the group has its heading |
| `Grouping.HeadingsDistinct` | src/utils/groupingUtils.ts:12-14 | no heading appears twice |
| `Grouping.NoEmptyGroup` | src/utils/groupingUtils.ts:12-16 | no group is empty |
| `Grouping.GroupsAppend` | src/utils/groupingUtils.ts:12-15 | a definition added last goes to the end of its own group and no other group changes, so within a group input order is kept |

## Left out

- Process launching, signalling and probing, `ps`, `ip`, `ifconfig` and `sudo` are functions passed in (`spawn`, `kill`, `isRunning`, `isAlive`, `listing`, `run`): `is_process_actually_running` and its platform checks, `ProcessManager::kill_process` and `get_process_list` are not part of this model.
- The concurrent output pipeline (`executor.rs`, its channel and tasks) is not part of this model; the reader loop is modelled on the sequence of events it receives.
- `build_path_env` reads the environment and the file system: its result is the parameter `pathValue`, and the ambient environment is a map.
- JSON serialisation and file I/O: a state file is `Parsed`, `Unreadable` or `Malformed`, the disk is a map from paths to state files, and each write and rename succeeds or fails as a parameter says. The configuration store is a list with load and save faults as parameters.
- `App::new`'s loading of definitions and file paths: the constructor takes the loaded list.
- `HashMap` iteration order: listings of the registry are stated for every order (each entry exactly once); the kill order of a clean-up follows the listing.
- The registry of the terminal interface is modelled by the same `Registry.ProcessManager`.
- Each operation reads the clock once (`now`) and the liveness of a pid once.
- `ForwardService.PortForwardService.DetectExistingPortForwards`: one `ps aux` listing answers every probe of a detection, while the source runs `ps aux` anew for each definition it probes; a listing that changes or fails partway through a detection is not modelled.
- `ForwardService.PortForwardService.SyncWithExistingProcesses`: the same single listing serves detection and every pid lookup, while the source runs `ps aux` again for each detected name; a process that exits between the runs, and a later `ps aux` failure that aborts the sync after earlier adoptions were registered, are not modelled.
- Windows: `windows.rs` only validates the address syntax and is the parameter `windowsEnsure`.
- The edit mode's enter, save and cancel, key dispatch, rendering, the vim text area and `sync_running_services` are not part of this model.
- `String::from_utf8_lossy` is not modelled: process output is text.
- `TerminalApp.App.LoadAutocomplete`: the kubectl query that `load_autocomplete` hands to another thread, and `poll_autocomplete`, which later fills the suggestions from its answer, are not modelled; the model stops where the thread is spawned.
- `TerminalApp.App.MoveSelection`: the `i32` casts of the index and the length are not modelled; the arithmetic is on unbounded integers.
- `TerminalApp.App.NextEditField`: the cursor is placed at the text's length in characters, while the source uses `String::len`, which counts UTF-8 bytes (and moves the cursor by `len_utf8`); for non-ASCII text such as `é` the source's cursor is 2 and the model's is 1.
- `TerminalApp.App.PrevEditField`: the cursor position counts characters, not UTF-8 bytes, as for `TerminalApp.App.NextEditField`.
- `Strings.ToLower`: only ASCII letters are folded; Rust's `to_lowercase` also folds other scripts.
- `EditFields.SetValue`: the backend test folds ASCII case only (see `Strings.ToLower`).
- `KubectlService.FormatKubectlError`: classification folds ASCII case only (see `Strings.ToLower`).
- `Grouping.Groups`: groups appear in first-appearance order; JavaScript's `Object.entries` lists integer-like keys (a context named `42`) first in ascending order, which is not modelled.
- `TerminalForward.StopPortForward`: the `kill` command's outcome is ignored by the source and is not modelled beyond the pid signalled.
- `ForwardService.PortForwardService.StartPortForward`: the description of the system says a failed save after a launch leaves no trace; the code (`add_process` inserts before saving) keeps the new entry in memory and reports the save error. The model follows the code.
