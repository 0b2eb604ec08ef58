/** Making sure a local bind address exists before a tunnel binds to it. Standard
    addresses are skipped; otherwise the platform manager probes for the address, tries
    to add it as a loopback alias without privileges, retries through `sudo -n` (which
    never prompts), and finally reports what the user should run by hand.

    The operating system is the oracle `run`: what each command invocation produces.
    Every ladder returns its result together with the commands it invoked, in order. */
module Interface {
  import opened Wrappers
  import opened Strings
  import opened Types

  /** A command invocation: program and arguments. */
  datatype Command = Command(program: string, args: seq<string>)

  /** What an invocation produced: it could not be launched, or it ran to completion. */
  datatype CommandOutcome =
    | LaunchFailed(reason: string)
    | Completed(success: bool, stdout: string, stderr: string)

  /** The platforms the supervisor is built for. */
  datatype Platform = MacOS | Linux | Windows | Unsupported

  /** A ladder's result and the commands it invoked. */
  datatype Attempt = Attempt(result: Result<(), AppError>, invoked: seq<Command>)

  /** Every privileged invocation is non-interactive. */
  predicate SudoNeverPrompts(invoked: seq<Command>) {
    forall i :: 0 <= i < |invoked| && invoked[i].program == "sudo" ==>
      |invoked[i].args| >= 1 && invoked[i].args[0] == "-n"
  }

  // ---------------------------------------------------------------------------
  // The ladder shared by the Linux and macOS managers

  /** The error of a failed privileged retry: a hint naming `manual` when sudo wanted a
      password, otherwise the command's error output. */
  function SudoFailure(iface: string, stderr: string, manual: string): AppError {
    if Contains(stderr, "password") || Contains(stderr, "sudo:") then
      SystemError("Interface " + iface + " requires admin privileges to create. Please run: '" + manual + "'")
    else
      SystemError("Failed to create interface " + iface + ": " + stderr)
  }

  /** When sudo asked for a password the error names the command to run by hand. */
  lemma SudoFailureNamesCommand(iface: string, stderr: string, manual: string)
    requires Contains(stderr, "password") || Contains(stderr, "sudo:")
    ensures SudoFailure(iface, stderr, manual).SystemError?
    ensures Contains(SudoFailure(iface, stderr, manual).msg, manual)
  {
    var pre := "Interface " + iface + " requires admin privileges to create. Please run: '";
    assert SudoFailure(iface, stderr, manual).msg == pre + manual + "'";
    ContainsInfix(pre, manual, "'");
  }

  /** Any other sudo failure carries the command's error output. */
  lemma SudoFailureCarriesStderr(iface: string, stderr: string, manual: string)
    requires !Contains(stderr, "password") && !Contains(stderr, "sudo:")
    ensures SudoFailure(iface, stderr, manual).SystemError?
    ensures Contains(SudoFailure(iface, stderr, manual).msg, stderr)
  {
    var pre := "Failed to create interface " + iface + ": ";
    assert SudoFailure(iface, stderr, manual).msg == pre + stderr + [];
    ContainsInfix(pre, stderr, []);
  }

  /** `try_create_with_sudo`: a launch error, a failure, or success. */
  function TryWithSudo(iface: string, sudo: Command, manual: string, run: Command -> CommandOutcome): (r: Result<(), AppError>)
    ensures r.Ok? <==> run(sudo).Completed? && run(sudo).success
    ensures run(sudo).LaunchFailed? ==> r == Err(SystemError("Failed to create interface: " + run(sudo).reason))
    ensures run(sudo).Completed? && !run(sudo).success ==> r == Err(SudoFailure(iface, run(sudo).stderr, manual))
  {
    match run(sudo)
    case LaunchFailed(e) => Err(SystemError("Failed to create interface: " + e))
    case Completed(ok, _, stderr) => if ok then Ok(()) else Err(SudoFailure(iface, stderr, manual))
  }

  /** The unprivileged attempt succeeded; a launch error counts as a failure. */
  predicate Succeeded(outcome: CommandOutcome) {
    outcome.Completed? && outcome.success
  }

  /** `create_interface`: the unprivileged add, then the privileged retry only if it failed. */
  function CreateInterface(iface: string, add: Command, sudo: Command, manual: string, run: Command -> CommandOutcome): (r: Attempt)
    ensures Succeeded(run(add)) ==> r == Attempt(Ok(()), [add])
    ensures !Succeeded(run(add)) ==> r == Attempt(TryWithSudo(iface, sudo, manual, run), [add, sudo])
  {
    if Succeeded(run(add)) then Attempt(Ok(()), [add])
    else Attempt(TryWithSudo(iface, sudo, manual, run), [add, sudo])
  }

  /** `ensure_interface_exists` of a platform manager, given the outcome of its probe. */
  function EnsureLadder(iface: string, probe: Command, found: Result<bool, AppError>,
                        add: Command, sudo: Command, manual: string,
                        run: Command -> CommandOutcome): (r: Attempt)
    // the probe always runs first; a probe error aborts
    ensures |r.invoked| >= 1 && r.invoked[0] == probe
    ensures found.Err? ==> r == Attempt(Err(found.error), [probe])
    // an existing address is not created again
    ensures found == Ok(true) ==> r == Attempt(Ok(()), [probe])
    // otherwise the creation ladder runs
    ensures found == Ok(false) ==>
              r.invoked[1..] == CreateInterface(iface, add, sudo, manual, run).invoked
              && r.result == CreateInterface(iface, add, sudo, manual, run).result
  {
    match found
    case Err(e) => Attempt(Err(e), [probe])
    case Ok(present) =>
      if present then Attempt(Ok(()), [probe])
      else
        var c := CreateInterface(iface, add, sudo, manual, run);
        Attempt(c.result, [probe] + c.invoked)
  }

  /** The ladder succeeds exactly when the address was found, the unprivileged add worked,
      or the privileged retry worked; sudo runs only after the unprivileged add failed. */
  lemma EnsureLadderOutcome(iface: string, probe: Command, found: Result<bool, AppError>,
                            add: Command, sudo: Command, manual: string,
                            run: Command -> CommandOutcome)
    requires probe.program != "sudo" && add.program != "sudo"
    requires sudo.program == "sudo" && |sudo.args| >= 1 && sudo.args[0] == "-n"
    ensures var r := EnsureLadder(iface, probe, found, add, sudo, manual, run);
            r.result.Ok? <==>
              (found == Ok(true)
               || (found == Ok(false) && Succeeded(run(add)))
               || (found == Ok(false) && !Succeeded(run(add)) && Succeeded(run(sudo))))
    ensures var r := EnsureLadder(iface, probe, found, add, sudo, manual, run);
            sudo in r.invoked <==> found == Ok(false) && !Succeeded(run(add))
    ensures SudoNeverPrompts(EnsureLadder(iface, probe, found, add, sudo, manual, run).invoked)
  {
    var r := EnsureLadder(iface, probe, found, add, sudo, manual, run);
    if found == Ok(false) {
      var c := CreateInterface(iface, add, sudo, manual, run);
      assert r.invoked == [probe] + c.invoked;
    }
  }

  // ---------------------------------------------------------------------------
  // Linux: `ip addr`

  function LinuxProbe(iface: string): Command {
    Command("ip", ["addr", "show", iface])
  }

  function LinuxAdd(iface: string): Command {
    Command("ip", ["addr", "add", iface + "/32", "dev", "lo"])
  }

  function LinuxSudoAdd(iface: string): Command {
    Command("sudo", ["-n", "ip", "addr", "add", iface + "/32", "dev", "lo"])
  }

  /** The command the user is asked to run by hand on Linux. */
  function LinuxManual(iface: string): string {
    "sudo ip addr add " + iface + "/32 dev lo"
  }

  /** `LinuxInterfaceManager::interface_exists`: the address exists when `ip addr show`
      succeeds; a launch error is an error. */
  function LinuxInterfaceExists(iface: string, run: Command -> CommandOutcome): (r: Result<bool, AppError>)
    ensures r == Ok(true) <==> Succeeded(run(LinuxProbe(iface)))
    ensures r.Err? <==> run(LinuxProbe(iface)).LaunchFailed?
    ensures r.Err? ==> r.error == SystemError("Failed to check interface: " + run(LinuxProbe(iface)).reason)
  {
    match run(LinuxProbe(iface))
    case LaunchFailed(e) => Err(SystemError("Failed to check interface: " + e))
    case Completed(ok, _, _) => Ok(ok)
  }

  /** `LinuxInterfaceManager::ensure_interface_exists`. */
  function LinuxEnsure(iface: string, run: Command -> CommandOutcome): Attempt {
    EnsureLadder(iface, LinuxProbe(iface), LinuxInterfaceExists(iface, run),
                 LinuxAdd(iface), LinuxSudoAdd(iface), LinuxManual(iface), run)
  }

  /** The Linux ladder step by step. */
  lemma LinuxLadder(iface: string, run: Command -> CommandOutcome)
    ensures SudoNeverPrompts(LinuxEnsure(iface, run).invoked)
    // a successful probe ends the ladder
    ensures Succeeded(run(LinuxProbe(iface))) ==>
              LinuxEnsure(iface, run) == Attempt(Ok(()), [LinuxProbe(iface)])
    // a successful unprivileged add ends it without sudo
    ensures run(LinuxProbe(iface)).Completed? && !run(LinuxProbe(iface)).success
            && Succeeded(run(LinuxAdd(iface))) ==>
              LinuxEnsure(iface, run) == Attempt(Ok(()), [LinuxProbe(iface), LinuxAdd(iface)])
    // an unprivileged add that fails, or cannot be launched, falls through to sudo
    ensures run(LinuxProbe(iface)).Completed? && !run(LinuxProbe(iface)).success
            && !Succeeded(run(LinuxAdd(iface))) ==>
              LinuxEnsure(iface, run).invoked == [LinuxProbe(iface), LinuxAdd(iface), LinuxSudoAdd(iface)]
    // and a password refusal names the manual command
    ensures run(LinuxProbe(iface)).Completed? && !run(LinuxProbe(iface)).success
            && !Succeeded(run(LinuxAdd(iface)))
            && run(LinuxSudoAdd(iface)).Completed? && !run(LinuxSudoAdd(iface)).success
            && (Contains(run(LinuxSudoAdd(iface)).stderr, "password")
                || Contains(run(LinuxSudoAdd(iface)).stderr, "sudo:")) ==>
              LinuxEnsure(iface, run).result.Err?
              && Contains(LinuxEnsure(iface, run).result.error.msg, LinuxManual(iface))
  {
    EnsureLadderOutcome(iface, LinuxProbe(iface), LinuxInterfaceExists(iface, run),
                        LinuxAdd(iface), LinuxSudoAdd(iface), LinuxManual(iface), run);
    var sudoRun := run(LinuxSudoAdd(iface));
    if sudoRun.Completed? && (Contains(sudoRun.stderr, "password") || Contains(sudoRun.stderr, "sudo:")) {
      SudoFailureNamesCommand(iface, sudoRun.stderr, LinuxManual(iface));
    }
  }

  // ---------------------------------------------------------------------------
  // macOS: `ifconfig`

  const MacosProbe: Command := Command("ifconfig", [])

  function MacosAdd(iface: string): Command {
    Command("ifconfig", ["lo0", "alias", iface])
  }

  function MacosSudoAdd(iface: string): Command {
    Command("sudo", ["-n", "ifconfig", "lo0", "alias", iface])
  }

  /** The command the user is asked to run by hand on macOS. */
  function MacosManual(iface: string): string {
    "sudo ifconfig lo0 alias " + iface
  }

  /** An `ifconfig` line that lists an address containing `iface`. */
  predicate InetLineMentions(line: string, iface: string) {
    "inet" <= Trim(line) && Contains(line, iface)
  }

  /** Some line of the `ifconfig` output lists an address containing `iface`. */
  predicate ListsAddress(out: string, iface: string) {
    exists j :: 0 <= j < |Lines(out)| && InetLineMentions(Lines(out)[j], iface)
  }

  /** `MacosInterfaceManager::interface_exists`: `ifconfig` succeeded and some trimmed
      output line starts with `inet` and contains the address as a substring. */
  function MacosInterfaceExists(iface: string, run: Command -> CommandOutcome): (r: Result<bool, AppError>)
    ensures r.Err? <==> run(MacosProbe).LaunchFailed?
    ensures r.Err? ==> r.error == SystemError("Failed to check interfaces: " + run(MacosProbe).reason)
    ensures r == Ok(true) <==>
              run(MacosProbe).Completed? && run(MacosProbe).success &&
              ListsAddress(run(MacosProbe).stdout, iface)
  {
    var outcome := run(MacosProbe);
    if outcome.LaunchFailed? then Err(SystemError("Failed to check interfaces: " + outcome.reason))
    else
      Ok(outcome.success && ListsAddress(outcome.stdout, iface))
  }

  /** `MacosInterfaceManager::ensure_interface_exists`. */
  function MacosEnsure(iface: string, run: Command -> CommandOutcome): Attempt {
    EnsureLadder(iface, MacosProbe, MacosInterfaceExists(iface, run),
                 MacosAdd(iface), MacosSudoAdd(iface), MacosManual(iface), run)
  }

  /** The macOS ladder step by step. */
  lemma MacosLadder(iface: string, run: Command -> CommandOutcome)
    ensures SudoNeverPrompts(MacosEnsure(iface, run).invoked)
    ensures MacosInterfaceExists(iface, run) == Ok(true) ==>
              MacosEnsure(iface, run) == Attempt(Ok(()), [MacosProbe])
    ensures MacosInterfaceExists(iface, run) == Ok(false) && Succeeded(run(MacosAdd(iface))) ==>
              MacosEnsure(iface, run) == Attempt(Ok(()), [MacosProbe, MacosAdd(iface)])
    ensures MacosInterfaceExists(iface, run) == Ok(false) && !Succeeded(run(MacosAdd(iface))) ==>
              MacosEnsure(iface, run).invoked == [MacosProbe, MacosAdd(iface), MacosSudoAdd(iface)]
    ensures MacosInterfaceExists(iface, run) == Ok(false) && !Succeeded(run(MacosAdd(iface)))
            && run(MacosSudoAdd(iface)).Completed? && !run(MacosSudoAdd(iface)).success
            && (Contains(run(MacosSudoAdd(iface)).stderr, "password")
                || Contains(run(MacosSudoAdd(iface)).stderr, "sudo:")) ==>
              MacosEnsure(iface, run).result.Err?
              && Contains(MacosEnsure(iface, run).result.error.msg, MacosManual(iface))
  {
    EnsureLadderOutcome(iface, MacosProbe, MacosInterfaceExists(iface, run),
                        MacosAdd(iface), MacosSudoAdd(iface), MacosManual(iface), run);
    var sudoRun := run(MacosSudoAdd(iface));
    if sudoRun.Completed? && (Contains(sudoRun.stderr, "password") || Contains(sudoRun.stderr, "sudo:")) {
      SudoFailureNamesCommand(iface, sudoRun.stderr, MacosManual(iface));
    }
  }

  // ---------------------------------------------------------------------------
  // Dispatch

  /** The addresses that always exist. */
  predicate IsStandardAddress(iface: string) {
    iface == "127.0.0.1" || iface == "0.0.0.0" || iface == "localhost"
  }

  /** `SystemInterfaceManager::ensure_interface_exists`. The Windows manager, which only
      validates the address syntax, is the parameter `windowsEnsure`. */
  function SystemEnsure(platform: Platform, iface: string, run: Command -> CommandOutcome,
                        windowsEnsure: string -> Result<(), AppError>): (r: Attempt)
    // standard addresses are accepted without running anything
    ensures IsStandardAddress(iface) ==> r == Attempt(Ok(()), [])
    // anything else goes to the platform manager, whose answer is returned unchanged
    ensures !IsStandardAddress(iface) && platform == Linux ==> r == LinuxEnsure(iface, run)
    ensures !IsStandardAddress(iface) && platform == MacOS ==> r == MacosEnsure(iface, run)
    ensures !IsStandardAddress(iface) && platform == Windows ==> r == Attempt(windowsEnsure(iface), [])
    ensures !IsStandardAddress(iface) && platform == Unsupported ==>
              r == Attempt(Err(SystemError("Interface management not supported on this platform")), [])
  {
    if IsStandardAddress(iface) then Attempt(Ok(()), [])
    else
      match platform
      case MacOS => MacosEnsure(iface, run)
      case Linux => LinuxEnsure(iface, run)
      case Windows => Attempt(windowsEnsure(iface), [])
      case Unsupported => Attempt(Err(SystemError("Interface management not supported on this platform")), [])
  }

  /** The skip test is exact: an address with a port, or in capitals, is not skipped. */
  lemma SkipIsExact()
    ensures !IsStandardAddress("127.0.0.1:5335")
    ensures !IsStandardAddress("LOCALHOST")
    ensures IsStandardAddress("0.0.0.0")
  {
    assert "127.0.0.1:5335"[9] == ':' && |"127.0.0.1:5335"| != |"127.0.0.1"|;
    assert "LOCALHOST"[0] != "localhost"[0];
  }

  /** A supported platform probes a non-standard address before anything else. */
  lemma ProbeFirst(platform: Platform, iface: string, run: Command -> CommandOutcome,
                   windowsEnsure: string -> Result<(), AppError>)
    requires !IsStandardAddress(iface) && (platform == Linux || platform == MacOS)
    ensures var r := SystemEnsure(platform, iface, run, windowsEnsure);
            |r.invoked| >= 1 && r.invoked[0] == (if platform == Linux then LinuxProbe(iface) else MacosProbe)
  {
  }
}
