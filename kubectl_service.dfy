/** `KubectlService`: how kubectl is located and invoked, how its output is read back,
    and how its error text is turned into a message for the user.

    Every invocation is a `KubectlCall` handed to an oracle `run`; the file system is an
    `isFile` oracle and the process environment a map. */
module KubectlService {
  import opened Wrappers
  import opened Strings
  import opened Types
  import opened Interface

  // ---------------------------------------------------------------------------
  // Error classification

  /** The advice for logging in again, shared by both authentication failures. */
  const GkeLoginHint := " For GKE clusters, run: gcloud auth application-default login"
  const UnreachableMessage := "Unable to connect to cluster." + " Check your internet connection and cluster status."
  const UnauthorizedMessage := "Authentication failed." + GkeLoginHint
  const ExpiredMessage := "Authentication token expired." + GkeLoginHint
  const NoContextMessage := "No active kubectl context found." + " Configure kubectl with: kubectl config use-context <context-name>"
  const PluginMessage := "GKE auth plugin required." + " Run: gcloud components install gke-gcloud-auth-plugin"

  /** The classes of kubectl failure, in the order they are tested. */
  datatype ErrorClass = Unreachable | Unauthorized | Expired | NoContext | AuthPlugin | Unclassified

  /** The class of an error text: the first test that matches the lowercased text wins. */
  function Classify(error: string): ErrorClass {
    var lower := ToLower(error);
    if Contains(lower, "unable to connect") || Contains(lower, "connection refused") then Unreachable
    else if Contains(lower, "unauthorized") || Contains(lower, "forbidden") then Unauthorized
    else if Contains(lower, "token") && Contains(lower, "expired") then Expired
    else if Contains(lower, "no cluster") || Contains(lower, "context") then NoContext
    else if Contains(lower, "gke_gcloud_auth_plugin") then AuthPlugin
    else Unclassified
  }

  /** The five fixed pieces of advice. */
  const Advice: set<string> := {UnreachableMessage, UnauthorizedMessage, ExpiredMessage, NoContextMessage, PluginMessage}

  /** `format_kubectl_error`: the fixed advice of the error's class, or the text itself
      behind `kubectl error: `. */
  function FormatKubectlError(error: string): (m: string)
    ensures Classify(error) == Unclassified ==> m == "kubectl error: " + error
    ensures Classify(error) != Unclassified ==> m in Advice
    ensures Classify(error) == NoContext ==> m == NoContextMessage
  {
    match Classify(error)
    case Unreachable => UnreachableMessage
    case Unauthorized => UnauthorizedMessage
    case Expired => ExpiredMessage
    case NoContext => NoContextMessage
    case AuthPlugin => PluginMessage
    case Unclassified => "kubectl error: " + error
  }

  /** The original text comes back exactly when no test matches: no piece of advice
      starts the way the fallback does. */
  lemma FallbackExactlyWhenUnclassified(error: string)
    ensures FormatKubectlError(error) == "kubectl error: " + error <==> Classify(error) == Unclassified
  {
    if Classify(error) != Unclassified {
      var m := FormatKubectlError(error);
      var fallback := "kubectl error: " + error;
      assert fallback[0] == 'k';
      assert UnreachableMessage[0] == 'U' && UnauthorizedMessage[0] == 'A' && ExpiredMessage[0] == 'A';
      assert NoContextMessage[0] == 'N' && PluginMessage[0] == 'G';
      assert m[0] != fallback[0];
    }
  }

  /** Folding case twice is folding once. */
  lemma ToLowerIdempotent(s: string)
    ensures ToLower(ToLower(s)) == ToLower(s)
  {
    forall i | 0 <= i < |s|
      ensures LowerChar(LowerChar(s[i])) == LowerChar(s[i])
    {
    }
  }

  /** Classification ignores case: two texts equal up to ASCII case fold are classified
      and formatted alike, up to the text echoed by the fallback. */
  lemma {:induction false} ClassifyIgnoresCase(a: string, b: string)
    requires ToLower(a) == ToLower(b)
    ensures Classify(a) == Classify(b)
    ensures Classify(a) != Unclassified ==> FormatKubectlError(a) == FormatKubectlError(b)
  {
  }

  /** An already-lowercased copy of a text is classified as the text itself. */
  lemma ClassifyLowered(error: string)
    ensures Classify(ToLower(error)) == Classify(error)
  {
    ToLowerIdempotent(error);
    ClassifyIgnoresCase(ToLower(error), error);
  }

  /** A text that mentions a context is reported as a missing context even when it also
      names the GKE auth plugin, unless an earlier test matched. */
  lemma ContextBeforePlugin(error: string)
    requires Contains(ToLower(error), "context") && Contains(ToLower(error), "gke_gcloud_auth_plugin")
    requires Classify(error) !in {Unreachable, Unauthorized, Expired}
    ensures FormatKubectlError(error) == NoContextMessage
  {
  }

  // ---------------------------------------------------------------------------
  // Locating kubectl and the kubeconfig

  /** The stored settings and the process environment kubectl is run with. */
  datatype Settings = Settings(
    kubectlPath: Result<string, AppError>,
    kubeconfigPath: Result<Option<string>, AppError>,
    env: map<string, string>,
    isFile: string -> bool)

  /** `get_kubectl_command`: the stored path, or `kubectl` when none can be loaded. */
  function KubectlCommand(s: Settings): (p: string)
    ensures s.kubectlPath.Ok? ==> p == s.kubectlPath.value
    ensures s.kubectlPath.Err? ==> p == "kubectl"
  {
    match s.kubectlPath
    case Ok(path) => path
    case Err(_) => "kubectl"
  }

  /** `$HOME/.kube/config`, with an empty home when `HOME` is unset. */
  function DefaultKubeconfig(env: map<string, string>): string {
    (if "HOME" in env then env["HOME"] else "") + "/.kube/config"
  }

  /** `get_kubeconfig_path`: the stored path, then `KUBECONFIG`, then the default file
      when it exists, else none. */
  function KubeconfigPath(s: Settings): (r: Option<string>)
    ensures s.kubeconfigPath.Ok? && s.kubeconfigPath.value.Some? ==> r == s.kubeconfigPath.value
    ensures !(s.kubeconfigPath.Ok? && s.kubeconfigPath.value.Some?) && "KUBECONFIG" in s.env ==>
              r == Some(s.env["KUBECONFIG"])
    ensures !(s.kubeconfigPath.Ok? && s.kubeconfigPath.value.Some?) && "KUBECONFIG" !in s.env ==>
              r == (if s.isFile(DefaultKubeconfig(s.env)) then Some(DefaultKubeconfig(s.env)) else None)
  {
    if s.kubeconfigPath.Ok? && s.kubeconfigPath.value.Some? then s.kubeconfigPath.value
    else if "KUBECONFIG" in s.env then Some(s.env["KUBECONFIG"])
    else if s.isFile(DefaultKubeconfig(s.env)) then Some(DefaultKubeconfig(s.env))
    else None
  }

  /** Without a stored path the result is never stale: it is `KUBECONFIG` or a file
      that exists, and nothing at all only when both are missing. */
  lemma KubeconfigFallback(s: Settings)
    requires !(s.kubeconfigPath.Ok? && s.kubeconfigPath.value.Some?)
    ensures KubeconfigPath(s).None? <==> "KUBECONFIG" !in s.env && !s.isFile(DefaultKubeconfig(s.env))
    ensures KubeconfigPath(s).Some? && "KUBECONFIG" !in s.env ==> s.isFile(KubeconfigPath(s).value)
  {
  }

  /** The places probed for kubectl when `which` does not find it, in order. */
  const DetectionPaths: seq<string> := [
    "/opt/homebrew/bin/kubectl",
    "/usr/local/bin/kubectl",
    "/usr/bin/kubectl",
    "/snap/bin/kubectl",
    "/usr/local/google-cloud-sdk/bin/kubectl"
  ]

  /** `paths[j]` exists and none before it does. */
  predicate FirstExistingAt(paths: seq<string>, isFile: string -> bool, j: int) {
    0 <= j < |paths| && isFile(paths[j]) && forall k :: 0 <= k < j ==> !isFile(paths[k])
  }

  /** The first of `paths` that exists. */
  function FirstExisting(paths: seq<string>, isFile: string -> bool): (r: Option<string>)
    ensures r.Some? ==> exists j :: FirstExistingAt(paths, isFile, j) && paths[j] == r.value
    ensures r.None? <==> forall k :: 0 <= k < |paths| ==> !isFile(paths[k])
  {
    if paths == [] then None
    else if isFile(paths[0]) then
      assert FirstExistingAt(paths, isFile, 0);
      Some(paths[0])
    else
      var r := FirstExisting(paths[1..], isFile);
      if r.Some? then
        var j :| FirstExistingAt(paths[1..], isFile, j) && paths[1..][j] == r.value;
        assert FirstExistingAt(paths, isFile, j + 1);
        r
      else r
  }

  /** What `which kubectl` names: its trimmed output when it ran, succeeded and printed
      something. */
  function WhichAnswer(which: CommandOutcome): (r: Option<string>)
    ensures r.Some? <==> which.Completed? && which.success && Trim(which.stdout) != []
    ensures r.Some? ==> r.value == Trim(which.stdout)
  {
    if which.Completed? && which.success && Trim(which.stdout) != [] then Some(Trim(which.stdout)) else None
  }

  /** The answer of `which` when it names an existing file, otherwise the first of
      `paths` that exists. */
  function DetectAmong(answer: Option<string>, paths: seq<string>, isFile: string -> bool)
    : (r: Result<string, AppError>)
    ensures r.Ok? ==> isFile(r.value)
    ensures answer.Some? && isFile(answer.value) ==> r == Ok(answer.value)
    ensures r.Err? <==> !(answer.Some? && isFile(answer.value)) && forall k :: 0 <= k < |paths| ==> !isFile(paths[k])
    ensures r.Err? ==> r.error == KubectlError("kubectl not found in common locations")
  {
    if answer.Some? && isFile(answer.value) then Ok(answer.value)
    else
      match FirstExisting(paths, isFile)
      case Some(path) => Ok(path)
      case None => Err(KubectlError("kubectl not found in common locations"))
  }

  /** `detect_kubectl_path`: what `which kubectl` prints, trimmed, when it ran, succeeded
      and names an existing file; otherwise the first existing well-known place. */
  function DetectKubectlPath(which: CommandOutcome, isFile: string -> bool): (r: Result<string, AppError>)
    ensures r.Ok? ==> isFile(r.value)
    ensures r.Err? <==>
              !(which.Completed? && which.success && Trim(which.stdout) != [] && isFile(Trim(which.stdout)))
              && forall k :: 0 <= k < |DetectionPaths| ==> !isFile(DetectionPaths[k])
    ensures r.Err? ==> r.error == KubectlError("kubectl not found in common locations")
  {
    DetectAmong(WhichAnswer(which), DetectionPaths, isFile)
  }

  /** `validate_kubectl_path`: a path that does not exist is not valid; otherwise the
      path is valid when `version --client` succeeds. */
  function ValidateKubectlPath(path: string, isFile: string -> bool, version: CommandOutcome)
    : (r: Result<bool, AppError>)
    ensures !isFile(path) ==> r == Ok(false)
    ensures isFile(path) && version.LaunchFailed? ==> r == Err(KubectlError(version.reason))
    ensures isFile(path) && version.Completed? ==> r == Ok(version.success)
  {
    if !isFile(path) then Ok(false)
    else match version
      case LaunchFailed(reason) => Err(KubectlError(reason))
      case Completed(success, _, _) => Ok(success)
  }

  // ---------------------------------------------------------------------------
  // Invocations

  /** One kubectl invocation: program, arguments and the environment set for it. */
  datatype KubectlCall = KubectlCall(program: string, args: seq<string>, env: seq<(string, string)>)

  /** `create_command` with arguments: the kubectl command, with `KUBECONFIG` set
      exactly when a kubeconfig path is found. */
  function CallWith(s: Settings, args: seq<string>): (c: KubectlCall)
    ensures c.program == KubectlCommand(s) && c.args == args
    ensures KubeconfigPath(s).Some? ==> c.env == [("KUBECONFIG", KubeconfigPath(s).value)]
    ensures KubeconfigPath(s).None? ==> c.env == []
  {
    KubectlCall(KubectlCommand(s), args,
                match KubeconfigPath(s) case Some(k) => [("KUBECONFIG", k)] case None => [])
  }

  /** How every operation reads an outcome: a launch failure is reported as is, a
      failed run by its classified stderr, a successful one by parsing stdout. */
  function Interpret<T>(outcome: CommandOutcome, parse: string -> T): (r: Result<T, AppError>)
    ensures outcome.LaunchFailed? ==> r == Err(KubectlError(outcome.reason))
    ensures outcome.Completed? && !outcome.success ==> r == Err(KubectlError(FormatKubectlError(outcome.stderr)))
    ensures outcome.Completed? && outcome.success ==> r == Ok(parse(outcome.stdout))
  {
    match outcome
    case LaunchFailed(reason) => Err(KubectlError(reason))
    case Completed(success, stdout, stderr) =>
      if success then Ok(parse(stdout)) else Err(KubectlError(FormatKubectlError(stderr)))
  }

  // ---------------------------------------------------------------------------
  // Reading kubectl's output

  /** Service names as listed for a namespace: each whitespace-separated name behind
      `svc/`. */
  function ServiceNames(stdout: string): (names: seq<string>)
    ensures |names| == |SplitWhitespace(stdout)|
    ensures forall i :: 0 <= i < |names| ==> names[i] == "svc/" + SplitWhitespace(stdout)[i]
  {
    var fields := SplitWhitespace(stdout);
    seq(|fields|, i requires 0 <= i < |fields| => "svc/" + fields[i])
  }

  /** The service name a ports query is made for: without a leading `svc/`. */
  function BareServiceName(service: string): (name: string)
    ensures "svc/" <= service ==> service == "svc/" + name
    ensures !("svc/" <= service) ==> name == service
  {
    match StripPrefix(service, "svc/")
    case Some(rest) => rest
    case None => service
  }

  /** A listed service name queried for its ports is queried under its listed name. */
  lemma ListedServiceQueried(stdout: string, i: nat)
    requires i < |ServiceNames(stdout)|
    ensures BareServiceName(ServiceNames(stdout)[i]) == SplitWhitespace(stdout)[i]
  {
    var listed := ServiceNames(stdout)[i];
    assert "svc/" <= listed;
    assert listed[4..] == SplitWhitespace(stdout)[i];
  }

  /** A port forwarded to itself: `p:p`. */
  function SelfMapping(port: string): string {
    port + ":" + port
  }

  /** A port without a colon becomes a mapping whose local and remote halves are both
      that port. */
  lemma SelfMappingHalves(port: string)
    requires ':' !in port
    ensures Split(SelfMapping(port), ':') == [port, port]
  {
    assert SelfMapping(port) == port + [':'] + port;
    SplitAtSeparator(port, ':', port);
    SplitNoSeparator(port, ':');
  }

  /** Port mappings as offered for a service: each listed port forwarded to itself. */
  function SamePortMappings(stdout: string): (ports: seq<string>)
    ensures |ports| == |SplitWhitespace(stdout)|
    ensures forall i :: 0 <= i < |ports| ==> ports[i] == SelfMapping(SplitWhitespace(stdout)[i])
  {
    var fields := SplitWhitespace(stdout);
    seq(|fields|, i requires 0 <= i < |fields| => SelfMapping(fields[i]))
  }

  /** Context names as listed by `config get-contexts -o name`. */
  function ContextNames(stdout: string): (names: seq<string>)
    ensures forall i :: 0 <= i < |names| ==> names[i] != [] && IsTrimmed(names[i])
  {
    NonEmptyTrimmed(Lines(stdout))
  }

  // ---------------------------------------------------------------------------
  // Operations

  function NamespacesArgs(context: string): seq<string> {
    ["--context", context, "get", "namespaces", "-o", "jsonpath={.items[*].metadata.name}"]
  }

  function ServicesArgs(context: string, namespace: string): seq<string> {
    ["--context", context, "-n", namespace, "get", "services", "-o", "jsonpath={.items[*].metadata.name}"]
  }

  function ServicePortsArgs(context: string, namespace: string, service: string): seq<string> {
    ["--context", context, "-n", namespace, "get", "service", BareServiceName(service), "-o", "jsonpath={.spec.ports[*].port}"]
  }

  /** `get_namespaces`. */
  function GetNamespaces(s: Settings, context: string, run: KubectlCall -> CommandOutcome)
    : (r: Result<seq<string>, AppError>)
    ensures var o := run(CallWith(s, NamespacesArgs(context)));
            && (r.Ok? <==> o.Completed? && o.success)
            && (r.Ok? ==> r.value == SplitWhitespace(o.stdout))
    ensures r.Ok? ==> forall i :: 0 <= i < |r.value| ==> r.value[i] != [] && NoWhitespace(r.value[i])
  {
    Interpret(run(CallWith(s, NamespacesArgs(context))), SplitWhitespace)
  }

  /** `get_services`. */
  function GetServices(s: Settings, context: string, namespace: string, run: KubectlCall -> CommandOutcome)
    : (r: Result<seq<string>, AppError>)
    ensures var o := run(CallWith(s, ServicesArgs(context, namespace)));
            && (r.Ok? <==> o.Completed? && o.success)
            && (r.Ok? ==> r.value == ServiceNames(o.stdout))
    ensures r.Ok? ==> forall i :: 0 <= i < |r.value| ==> "svc/" <= r.value[i]
  {
    Interpret(run(CallWith(s, ServicesArgs(context, namespace))), ServiceNames)
  }

  /** `get_service_ports`. */
  function GetServicePorts(s: Settings, context: string, namespace: string, service: string,
                           run: KubectlCall -> CommandOutcome): (r: Result<seq<string>, AppError>)
    ensures var o := run(CallWith(s, ServicePortsArgs(context, namespace, service)));
            r.Ok? <==> o.Completed? && o.success
    ensures run(CallWith(s, ServicePortsArgs(context, namespace, service))).Completed?
            && run(CallWith(s, ServicePortsArgs(context, namespace, service))).success ==>
              r == Ok(SamePortMappings(run(CallWith(s, ServicePortsArgs(context, namespace, service))).stdout))
  {
    Interpret(run(CallWith(s, ServicePortsArgs(context, namespace, service))), SamePortMappings)
  }

  /** A service is queried for its ports under the same name whether or not it carries
      the `svc/` prefix of a listing. */
  lemma PortsQueryIgnoresPrefix(context: string, namespace: string, service: string)
    requires !("svc/" <= service)
    ensures ServicePortsArgs(context, namespace, "svc/" + service) == ServicePortsArgs(context, namespace, service)
  {
    assert BareServiceName("svc/" + service) == service;
  }

  /** `get_contexts`. */
  function GetContexts(s: Settings, run: KubectlCall -> CommandOutcome): (r: Result<seq<string>, AppError>)
    ensures var o := run(CallWith(s, ["config", "get-contexts", "-o", "name"]));
            && (r.Ok? <==> o.Completed? && o.success)
            && (r.Ok? ==> r.value == NonEmptyTrimmed(Lines(o.stdout)))
    ensures r.Ok? ==> forall i :: 0 <= i < |r.value| ==> r.value[i] != [] && IsTrimmed(r.value[i])
  {
    Interpret(run(CallWith(s, ["config", "get-contexts", "-o", "name"])), ContextNames)
  }

  /** `get_current_context`: stdout, trimmed. */
  function GetCurrentContext(s: Settings, run: KubectlCall -> CommandOutcome): (r: Result<string, AppError>)
    ensures var o := run(CallWith(s, ["config", "current-context"]));
            && (r.Ok? <==> o.Completed? && o.success)
            && (r.Ok? ==> r.value == Trim(o.stdout))
    ensures r.Ok? ==> IsTrimmed(r.value)
  {
    Interpret(run(CallWith(s, ["config", "current-context"])), Trim)
  }

  /** `set_context`: stdout as printed. */
  function SetContext(s: Settings, context: string, run: KubectlCall -> CommandOutcome)
    : (r: Result<string, AppError>)
    ensures var o := run(CallWith(s, ["config", "use-context", context]));
            && (r.Ok? <==> o.Completed? && o.success)
            && (r.Ok? ==> r.value == o.stdout)
            && (o.Completed? && !o.success ==> r == Err(KubectlError(FormatKubectlError(o.stderr))))
  {
    Interpret(run(CallWith(s, ["config", "use-context", context])), (out: string) => out)
  }
}
