/** How a tunnel definition becomes a process invocation: the kubectl call with its
    credential environment, the ssh call, and the rewrite of port entries into ssh
    `-L` forwarding specifications. */
module CommandBuilder {
  import opened Wrappers
  import opened Strings
  import opened Types

  /** An environment entry: variable name and value. */
  type EnvVar = (string, string)

  // ---------------------------------------------------------------------------
  // Credential environment

  /** The variables copied from the supervisor's own environment when they are set,
      in this order, after `PATH` and `HOME`. */
  const PassthroughVars: seq<string> := [
    "GOOGLE_APPLICATION_CREDENTIALS", "CLOUDSDK_CONFIG", "CLOUDSDK_ACTIVE_CONFIG_NAME",
    "AWS_PROFILE", "AWS_DEFAULT_PROFILE", "AWS_CONFIG_FILE", "AWS_SHARED_CREDENTIALS_FILE",
    "AWS_ACCESS_KEY_ID", "AWS_SECRET_ACCESS_KEY", "AWS_SESSION_TOKEN", "AWS_REGION",
    "AWS_DEFAULT_REGION", "AZURE_CONFIG_DIR", "USER", "SHELL"]

  /** The entries `(n, ambient[n])` for the names `n` in `names` that are set, in order. */
  function PresentVars(names: seq<string>, ambient: map<string, string>): seq<EnvVar>
    decreases |names|
  {
    if names == [] then []
    else
      var n := names[|names| - 1];
      PresentVars(names[..|names| - 1], ambient) + (if n in ambient then [(n, ambient[n])] else [])
  }

  /** Exactly the set variables among `names` are copied, each with its own value. */
  lemma {:induction false} PresentVarsExact(names: seq<string>, ambient: map<string, string>)
    ensures forall e :: e in PresentVars(names, ambient) ==>
              e.0 in names && e.0 in ambient && ambient[e.0] == e.1
    ensures forall n :: n in names && n in ambient ==> (n, ambient[n]) in PresentVars(names, ambient)
    decreases |names|
  {
    if names != [] {
      var init := names[..|names| - 1];
      PresentVarsExact(init, ambient);
      assert names == init + [names[|names| - 1]];
    }
  }

  /** The credential environment: `PATH` first (its value is computed elsewhere and
      passed in), then `HOME` if set, then the set passthrough variables. */
  function CredentialEnv(pathValue: string, ambient: map<string, string>): (env: seq<EnvVar>)
    ensures |env| >= 1 && env[0] == ("PATH", pathValue)
    ensures "HOME" in ambient ==> |env| >= 2 && env[1] == ("HOME", ambient["HOME"])
  {
    [("PATH", pathValue)]
    + (if "HOME" in ambient then [("HOME", ambient["HOME"])] else [])
    + PresentVars(PassthroughVars, ambient)
  }

  /** `get_credential_env_vars`, with the process environment as the map `ambient`. */
  method CredentialEnvVars(pathValue: string, ambient: map<string, string>) returns (env: seq<EnvVar>)
    ensures env == CredentialEnv(pathValue, ambient)
  {
    env := [("PATH", pathValue)];
    if "HOME" in ambient {
      env := env + [("HOME", ambient["HOME"])];
    }
    ghost var prefix := env;
    var i := 0;
    while i < |PassthroughVars|
      invariant 0 <= i <= |PassthroughVars|
      invariant env == prefix + PresentVars(PassthroughVars[..i], ambient)
    {
      var name := PassthroughVars[i];
      assert PassthroughVars[..i + 1][..i] == PassthroughVars[..i];
      if name in ambient {
        env := env + [(name, ambient[name])];
      }
      i := i + 1;
    }
    assert PassthroughVars[..i] == PassthroughVars;
  }

  // ---------------------------------------------------------------------------
  // Local interface with an optional port suffix

  /** An interface written `ip:port` is split at its last colon when the suffix parses as
      a u16 port; otherwise the whole text is the address and there is no port. */
  function SplitPortSuffix(iface: string): (r: (string, Option<string>))
    ensures r.1.Some? ==> iface == r.0 + ":" + r.1.value && ParseU16(r.1.value).Some?
    ensures r.1.None? ==> r.0 == iface
  {
    match RSplitOnce(iface, ':')
    case Some((ip, port)) => if ParseU16(port).Some? then (ip, Some(port)) else (iface, None)
    case None => (iface, None)
  }

  /** An interface without a colon is kept whole. */
  lemma SplitPortSuffixNoColon(iface: string)
    requires ':' !in iface
    ensures SplitPortSuffix(iface) == (iface, None)
  {
  }

  /** `ip:N` with N a port number splits back into `ip` and the decimal text of N. */
  lemma SplitPortSuffixPort(ip: string, n: nat)
    requires n <= U16Max
    ensures SplitPortSuffix(ip + ":" + NatToString(n)) == (ip, Some(NatToString(n)))
  {
    var digits := NatToString(n);
    assert ':' !in digits by {
      forall k | 0 <= k < |digits| ensures digits[k] != ':' {
        assert IsDigit(digits[k]);
      }
    }
    assert ip + ":" + digits == ip + [':'] + digits;
    RSplitOnceAt(ip, ':', digits);
    ParseNatToString(n, U16Max);
  }

  // ---------------------------------------------------------------------------
  // kubectl

  /** The `--context` pair, present only for a non-empty context. */
  function ContextArgs(context: string): seq<string> {
    if context != [] then ["--context", context] else []
  }

  /** The `--address` pair, present only when a local interface is configured. */
  function AddressArgs(localInterface: Option<string>): seq<string> {
    match localInterface
    case Some(iface) => ["--address", SplitPortSuffix(iface).0]
    case None => []
  }

  /** The kubectl argument vector for a tunnel definition. */
  function KubectlArgs(config: PortForwardConfig): (args: seq<string>)
    ensures |args| == 4 + (if config.context != [] then 2 else 0)
                        + (if config.localInterface.Some? then 2 else 0) + |config.ports|
  {
    ContextArgs(config.context)
    + ["-n", config.namespace, "port-forward", config.service]
    + AddressArgs(config.localInterface)
    + config.ports
  }

  /** The layout of the kubectl arguments. */
  lemma KubectlArgsLayout(config: PortForwardConfig)
    // the context pair comes first, exactly when there is a context
    ensures var args := KubectlArgs(config);
            && (config.context != [] ==> args[..2] == ["--context", config.context])
            && (config.context == [] ==> args[0] == "-n")
    // then namespace, the subcommand and the service
    ensures var args, k := KubectlArgs(config), |ContextArgs(config.context)|;
            args[k..k + 4] == ["-n", config.namespace, "port-forward", config.service]
    // then the address pair exactly when an interface is configured
    ensures var args, k := KubectlArgs(config), |ContextArgs(config.context)| + 4;
            config.localInterface.Some? ==>
              args[k] == "--address" && args[k + 1] == SplitPortSuffix(config.localInterface.value).0
    // and the port entries verbatim at the end
    ensures var args := KubectlArgs(config);
            args[|args| - |config.ports|..] == config.ports
  {
  }

  /** `KubectlCommandBuilder`: the kubectl binary and an optional kubeconfig path. */
  datatype KubectlCommandBuilder = KubectlCommandBuilder(kubectlPath: string, kubeconfigPath: Option<string>)
  {
    /** `build_port_forward_command`. The environment is the credential environment of
        `pathValue` and `ambient`, plus `KUBECONFIG` when a kubeconfig path is set. */
    method BuildPortForwardCommand(config: PortForwardConfig, pathValue: string, ambient: map<string, string>)
      returns (program: string, args: seq<string>, env: seq<EnvVar>)
      ensures program == kubectlPath
      ensures args == KubectlArgs(config)
      ensures kubeconfigPath.Some? ==>
                env == CredentialEnv(pathValue, ambient) + [("KUBECONFIG", kubeconfigPath.value)]
      ensures kubeconfigPath.None? ==> env == CredentialEnv(pathValue, ambient)
      ensures |env| >= 1 && env[0] == ("PATH", pathValue)
    {
      args := [];
      if config.context != [] {
        args := args + ["--context", config.context];
      }
      args := args + ["-n", config.namespace, "port-forward", config.service];
      if config.localInterface.Some? {
        var (ip, _) := SplitPortSuffix(config.localInterface.value);
        args := args + ["--address", ip];
      }
      args := args + config.ports;
      env := CredentialEnvVars(pathValue, ambient);
      if kubeconfigPath.Some? {
        env := env + [("KUBECONFIG", kubeconfigPath.value)];
      }
      program := kubectlPath;
    }
  }

  // ---------------------------------------------------------------------------
  // ssh port mappings

  /** The address the forwarded ports bind to and the optional local-port override. */
  function BindTarget(localInterface: Option<string>): (r: (string, Option<string>))
    ensures localInterface.None? ==> r == ("127.0.0.1", None)
    ensures r.1.Some? ==> ParseU16(r.1.value).Some?
  {
    match localInterface
    case Some(iface) => SplitPortSuffix(iface)
    case None => ("127.0.0.1", None)
  }

  /** `format_port_mapping`: one port entry as an ssh `-L` specification. */
  function FormatPortMapping(mapping: string, bindIp: string, portOverride: Option<string>): string {
    var parts := Split(mapping, ':');
    if |parts| == 1 then bindIp + ":" + portOverride.UnwrapOr(parts[0]) + ":localhost:" + parts[0]
    else if |parts| == 2 then bindIp + ":" + portOverride.UnwrapOr(parts[0]) + ":localhost:" + parts[1]
    else bindIp + ":" + mapping
  }

  /** A single port `p` forwards local `p` (or the override) to remote `p`. */
  lemma FormatSinglePort(p: string, bindIp: string, portOverride: Option<string>)
    requires ':' !in p
    ensures FormatPortMapping(p, bindIp, portOverride)
         == bindIp + ":" + portOverride.UnwrapOr(p) + ":localhost:" + p
  {
    SplitNoSeparator(p, ':');
  }

  /** `l:r` forwards local `l` (or the override) to remote `r`. */
  lemma FormatLocalRemote(l: string, r: string, bindIp: string, portOverride: Option<string>)
    requires ':' !in l && ':' !in r
    ensures FormatPortMapping(l + ":" + r, bindIp, portOverride)
         == bindIp + ":" + portOverride.UnwrapOr(l) + ":localhost:" + r
  {
    SplitAtSeparator(l, ':', r);
    SplitNoSeparator(r, ':');
    assert l + ":" + r == l + [':'] + r;
  }

  /** An entry with three or more colon-separated parts is passed through after the bind address. */
  lemma FormatVerbatim(mapping: string, bindIp: string, portOverride: Option<string>)
    requires |Split(mapping, ':')| >= 3
    ensures FormatPortMapping(mapping, bindIp, portOverride) == bindIp + ":" + mapping
  {
  }

  /** With a colon-free bind address and local port, a one- or two-part entry becomes a
      specification of exactly four fields: bind, local port, `localhost`, remote port. */
  lemma {:induction false} FormatFourFields(l: string, r: string, bindIp: string, portOverride: Option<string>)
    requires ':' !in l && ':' !in r && ':' !in bindIp
    requires portOverride.Some? ==> ':' !in portOverride.value
    ensures Split(FormatPortMapping(l + ":" + r, bindIp, portOverride), ':')
         == [bindIp, portOverride.UnwrapOr(l), "localhost", r]
  {
    FormatLocalRemote(l, r, bindIp, portOverride);
    var local := portOverride.UnwrapOr(l);
    assert ':' !in local;
    assert ':' !in "localhost";
    var s := bindIp + ":" + local + ":localhost:" + r;
    assert s == bindIp + [':'] + (local + [':'] + ("localhost" + [':'] + r));
    SplitAtSeparator(bindIp, ':', local + [':'] + ("localhost" + [':'] + r));
    SplitAtSeparator(local, ':', "localhost" + [':'] + r);
    SplitAtSeparator("localhost", ':', r);
    SplitNoSeparator(r, ':');
  }

  /** `build_port_mappings`: one specification per port entry, in order. */
  function BuildPortMappings(ports: seq<string>, localInterface: Option<string>): (r: seq<string>)
    ensures |r| == |ports|
    ensures var (ip, ov) := BindTarget(localInterface);
            forall i :: 0 <= i < |ports| ==> r[i] == FormatPortMapping(ports[i], ip, ov)
  {
    var (ip, ov) := BindTarget(localInterface);
    seq(|ports|, i requires 0 <= i < |ports| => FormatPortMapping(ports[i], ip, ov))
  }

  /** Without an interface every single port binds to the loopback address. */
  lemma DefaultBindSinglePort(ports: seq<string>, i: nat)
    requires i < |ports| && ':' !in ports[i]
    ensures BuildPortMappings(ports, None)[i] == "127.0.0.1:" + ports[i] + ":localhost:" + ports[i]
  {
    FormatSinglePort(ports[i], "127.0.0.1", None);
  }

  /** An interface `ip:N` overrides the local port of every one- or two-part entry. */
  lemma PortOverrideApplies(ip: string, n: nat, l: string, r: string)
    requires n <= U16Max && ':' !in l && ':' !in r
    ensures BuildPortMappings([l + ":" + r], Some(ip + ":" + NatToString(n)))
         == [ip + ":" + NatToString(n) + ":localhost:" + r]
  {
    SplitPortSuffixPort(ip, n);
    FormatLocalRemote(l, r, ip, Some(NatToString(n)));
  }

  // ---------------------------------------------------------------------------
  // ssh

  /** The fixed ssh options: no remote command, never prompt, bounded connect and keep-alive. */
  const SshOptions: seq<string> := [
    "-N", "-o", "BatchMode=yes", "-o", "StrictHostKeyChecking=no", "-o", "ConnectTimeout=10",
    "-o", "ServerAliveInterval=60", "-o", "ServerAliveCountMax=3"]

  /** One `-L <spec>` pair per specification. */
  function ForwardArgs(specs: seq<string>): (r: seq<string>)
    ensures |r| == 2 * |specs|
    ensures forall k :: 0 <= k < |specs| ==> r[2 * k] == "-L" && r[2 * k + 1] == specs[k]
    decreases |specs|
  {
    if specs == [] then []
    else ForwardArgs(specs[..|specs| - 1]) + ["-L", specs[|specs| - 1]]
  }

  /** The ssh argument vector for a tunnel definition. */
  function SshArgs(config: PortForwardConfig): (args: seq<string>)
    ensures |args| == |SshOptions| + 2 * |config.ports| + 1
  {
    SshOptions + ForwardArgs(BuildPortMappings(config.ports, config.localInterface)) + [config.service]
  }

  /** The layout of the ssh arguments: the fixed options, one `-L` pair per port
      specification, and the host last. */
  lemma SshArgsLayout(config: PortForwardConfig)
    ensures var args := SshArgs(config);
            && args[..|SshOptions|] == SshOptions
            && args[|args| - 1] == config.service
    ensures var args, specs := SshArgs(config), BuildPortMappings(config.ports, config.localInterface);
            forall k :: 0 <= k < |specs| ==>
              args[|SshOptions| + 2 * k] == "-L" && args[|SshOptions| + 2 * k + 1] == specs[k]
  {
  }

  /** `SshCommandBuilder::build_port_forward_command`. */
  method BuildSshCommand(config: PortForwardConfig) returns (program: string, args: seq<string>)
    ensures program == "ssh"
    ensures args == SshArgs(config)
  {
    var specs := BuildPortMappings(config.ports, config.localInterface);
    args := AppendForwards(SshOptions, specs);
    args := args + [config.service];
    program := "ssh";
  }

  /** The loop of `build_port_forward_command`: a `-L` pair per specification, in order,
      after the arguments so far. */
  method AppendForwards(prefix: seq<string>, specs: seq<string>) returns (args: seq<string>)
    ensures args == prefix + ForwardArgs(specs)
  {
    args := prefix;
    var i := 0;
    while i < |specs|
      invariant 0 <= i <= |specs|
      invariant args == prefix + ForwardArgs(specs[..i])
    {
      assert specs[..i + 1][..i] == specs[..i];
      args := args + ["-L", specs[i]];
      i := i + 1;
    }
    assert specs[..i] == specs;
  }
}
