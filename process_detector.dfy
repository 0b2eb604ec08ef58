/** Recognising an already running kubectl tunnel in a process listing (`ps aux`), by
    matching the words of each line against a tunnel definition and reading the pid
    from the second column. The listing is an input: `Ok(text)` or the launch error. */
module ProcessDetector {
  import opened Wrappers
  import opened Strings
  import opened Types

  /** The line names the namespace as `-n NS`, `--namespace=NS` or `--namespace NS`. */
  predicate MatchesNamespace(line: string, namespace: string) {
    || Contains(line, "-n " + namespace)
    || Contains(line, "--namespace=" + namespace)
    || Contains(line, "--namespace " + namespace)
  }

  /** Some configured port entry occurs in the line. */
  predicate MatchesAnyPort(line: string, ports: seq<string>) {
    exists i :: 0 <= i < |ports| && Contains(line, ports[i])
  }

  /** `matches_kubectl_command`: a kubectl port-forward line for this namespace and service
      that mentions one of the ports. */
  predicate MatchesKubectlCommand(line: string, config: PortForwardConfig) {
    if !Contains(line, "kubectl") || !Contains(line, "port-forward") then false
    else if !MatchesNamespace(line, config.namespace) then false
    else if !Contains(line, config.service) then false
    else MatchesAnyPort(line, config.ports)
  }

  /** A definition without ports matches no line. */
  lemma NoPortsNoMatch(line: string, config: PortForwardConfig)
    requires config.ports == []
    ensures !MatchesKubectlCommand(line, config)
  {
  }

  /** A matching line names kubectl and port-forward, the service and one of the ports. */
  lemma MatchNecessary(line: string, config: PortForwardConfig)
    requires MatchesKubectlCommand(line, config)
    ensures Contains(line, "kubectl") && Contains(line, "port-forward")
    ensures Contains(line, config.service)
    ensures exists i :: 0 <= i < |config.ports| && Contains(line, config.ports[i])
  {
  }

  /** A line that carries every word of the definition matches it. */
  lemma MatchSufficient(pre: string, config: PortForwardConfig, i: nat)
    requires i < |config.ports|
    ensures MatchesKubectlCommand(
              pre + "kubectl port-forward " + ("-n " + config.namespace) + " " + config.service + " " + config.ports[i],
              config)
  {
    var n := "-n " + config.namespace;
    var head := pre + "kubectl port-forward ";
    var rest := n + " " + config.service + " " + config.ports[i];
    KeywordsInLine(pre, rest);
    ArgumentsInLine(head, n, config.service, config.ports[i]);
    MatchFromParts(head + rest, config, i);
    Regroup(head, n, config.service, config.ports[i]);
  }

  /** Regrouping a line of arguments behind its head. */
  lemma Regroup(head: string, n: string, svc: string, p: string)
    ensures head + n + " " + svc + " " + p == head + (n + " " + svc + " " + p)
  {
  }

  /** A line with the words of the definition in any place matches it. */
  lemma MatchFromParts(line: string, config: PortForwardConfig, i: nat)
    requires i < |config.ports|
    requires Contains(line, "kubectl") && Contains(line, "port-forward")
    requires Contains(line, "-n " + config.namespace)
    requires Contains(line, config.service) && Contains(line, config.ports[i])
    ensures MatchesKubectlCommand(line, config)
  {
  }

  /** `kubectl port-forward ` in a line puts both words in it. */
  lemma KeywordsInLine(pre: string, rest: string)
    ensures Contains(pre + "kubectl port-forward " + rest, "kubectl")
    ensures Contains(pre + "kubectl port-forward " + rest, "port-forward")
  {
    var head := "kubectl port-forward ";
    assert pre + head + rest == pre + (head + rest);
    assert head == "kubectl" + " port-forward ";
    ContainsInfix([], "kubectl", " port-forward ");
    ContainsExtend(head, "kubectl", pre, rest);
    assert head == "kubectl " + "port-forward" + " ";
    ContainsInfix("kubectl ", "port-forward", " ");
    ContainsExtend(head, "port-forward", pre, rest);
  }

  /** Three space-separated arguments at the end of a line are each in it. */
  lemma ArgumentsInLine(head: string, n: string, svc: string, p: string)
    ensures var line := head + (n + " " + svc + " " + p);
            Contains(line, n) && Contains(line, svc) && Contains(line, p)
  {
    var line := head + (n + " " + svc + " " + p);
    assert line == head + n + (" " + svc + " " + p);
    ContainsInfix(head, n, " " + svc + " " + p);
    assert line == (head + n + " ") + svc + (" " + p);
    ContainsInfix(head + n + " ", svc, " " + p);
    assert line == (head + n + " " + svc + " ") + p + [];
    ContainsInfix(head + n + " " + svc + " ", p, []);
  }

  /** `extract_pid_from_ps_line`: the second whitespace-separated field as a u32. */
  function ExtractPid(line: string): (r: Option<Pid>)
    ensures r.Some? ==> |SplitWhitespace(line)| >= 2 && ParseU32(SplitWhitespace(line)[1]) == Some(r.value)
  {
    var fields := SplitWhitespace(line);
    if |fields| >= 2 then
      match ParseU32(fields[1])
      case Some(n) => Some(n as Pid)
      case None => None
    else None
  }

  /** Regrouping a concatenation of four texts. */
  lemma ConcatAssoc(a: string, b: string, c: string, d: string)
    ensures a + b + c + d == a + (b + (c + d))
  {
  }

  /** A word followed by a space is the first field, and the rest follows. */
  lemma FieldThenSpace(word: string, rest: string)
    requires word != [] && NoWhitespace(word)
    ensures SplitWhitespace(word + (" " + rest)) == [word] + SplitWhitespace(rest)
  {
    var tail := " " + rest;
    SplitWhitespaceWord(word, tail);
    SplitWhitespaceLeading(tail);
    assert tail[1..] == rest;
  }

  /** The first two fields of `USER WORD REST`. */
  lemma TwoLeadingFields(user: string, word: string, rest: string)
    requires user != [] && NoWhitespace(user)
    requires word != [] && NoWhitespace(word)
    requires rest == [] || IsWhitespace(rest[0])
    ensures SplitWhitespace(user + " " + word + rest) == [user, word] + SplitWhitespace(rest)
  {
    var line := user + (" " + (word + rest));
    ConcatAssoc(user, " ", word, rest);
    LeadingFieldsRegrouped(user, word, rest);
    assert SplitWhitespace(line) == [user, word] + SplitWhitespace(rest);
  }

  lemma {:induction false} LeadingFieldsRegrouped(user: string, word: string, rest: string)
    requires user != [] && NoWhitespace(user)
    requires word != [] && NoWhitespace(word)
    requires rest == [] || IsWhitespace(rest[0])
    ensures SplitWhitespace(user + (" " + (word + rest))) == [user, word] + SplitWhitespace(rest)
  {
    SplitWhitespaceWord(word, rest);
    FieldThenSpace(user, word + rest);
    PrependTwo(SplitWhitespace(user + (" " + (word + rest))), SplitWhitespace(word + rest), SplitWhitespace(rest), user, word);
  }

  lemma PrependTwo(all: seq<string>, tail: seq<string>, fields: seq<string>, first: string, second: string)
    requires tail == [second] + fields && all == [first] + tail
    ensures all == [first, second] + fields
  {
  }

  lemma DigitsHaveNoWhitespace(digits: string)
    requires AllDigits(digits)
    ensures NoWhitespace(digits)
  {
    forall k | 0 <= k < |digits| ensures !IsWhitespace(digits[k]) {
      assert IsDigit(digits[k]);
    }
  }

  /** A `ps` line `USER PID REST` yields PID when PID is a u32 in decimal. */
  lemma PidFromColumnTwo(user: string, pid: Pid, rest: string)
    requires user != [] && NoWhitespace(user)
    requires rest == [] || IsWhitespace(rest[0])
    ensures ExtractPid(user + " " + NatToString(pid) + rest) == Some(pid)
  {
    var digits := NatToString(pid);
    DigitsHaveNoWhitespace(digits);
    ParseNatToString(pid, U32Max);
    SecondFieldPid(user, digits, rest, pid);
  }

  /** A line whose second field parses as a u32 yields it. */
  lemma SecondFieldPid(user: string, word: string, rest: string, pid: Pid)
    requires user != [] && NoWhitespace(user)
    requires word != [] && NoWhitespace(word)
    requires rest == [] || IsWhitespace(rest[0])
    requires ParseU32(word) == Some(pid)
    ensures ExtractPid(user + " " + word + rest) == Some(pid)
  {
    SecondField(user, word, rest);
    PidOfSecondField(user + " " + word + rest, word, pid);
  }

  /** The second field of `USER WORD REST` is WORD. */
  lemma SecondField(user: string, word: string, rest: string)
    requires user != [] && NoWhitespace(user)
    requires word != [] && NoWhitespace(word)
    requires rest == [] || IsWhitespace(rest[0])
    ensures |SplitWhitespace(user + " " + word + rest)| >= 2 && SplitWhitespace(user + " " + word + rest)[1] == word
  {
    TwoLeadingFields(user, word, rest);
    SecondOfPrefixed(SplitWhitespace(user + " " + word + rest), user, word, SplitWhitespace(rest));
  }

  lemma SecondOfPrefixed(xs: seq<string>, first: string, second: string, more: seq<string>)
    requires xs == [first, second] + more
    ensures |xs| >= 2 && xs[1] == second
  {
  }

  lemma PidOfSecondField(line: string, word: string, pid: Pid)
    requires |SplitWhitespace(line)| >= 2 && SplitWhitespace(line)[1] == word
    requires ParseU32(word) == Some(pid)
    ensures ExtractPid(line) == Some(pid)
  {
  }

  /** A line with fewer than two fields yields no pid. */
  lemma NoSecondColumn(line: string)
    requires |SplitWhitespace(line)| < 2
    ensures ExtractPid(line) == None
  {
  }

  /** The position of the first line that matches the definition, or `|lines|`. */
  function FirstMatch(lines: seq<string>, config: PortForwardConfig): (i: nat)
    ensures i <= |lines|
    ensures forall j :: 0 <= j < i ==> !MatchesKubectlCommand(lines[j], config)
    ensures i < |lines| ==> MatchesKubectlCommand(lines[i], config)
    decreases |lines|
  {
    if lines == [] then 0
    else if MatchesKubectlCommand(lines[0], config) then 0
    else FirstMatch(lines[1..], config) + 1
  }

  /** The error `get_process_list` reports when `ps` cannot be launched. */
  function ListingError(e: string): AppError {
    SystemError("Failed to list processes: " + e)
  }

  /** `is_kubectl_process_running`. Only kubectl definitions consult the listing. */
  function IsKubectlProcessRunning(config: PortForwardConfig, listing: Result<string, string>): (r: Result<bool, AppError>)
    ensures config.forwardType != Kubectl ==> r == Ok(false)
    ensures config.forwardType == Kubectl && listing.Err? ==> r == Err(ListingError(listing.error))
    ensures config.forwardType == Kubectl && listing.Ok? ==>
              r.Ok? && (r.value <==> exists j :: 0 <= j < |Lines(listing.value)| &&
                                       MatchesKubectlCommand(Lines(listing.value)[j], config))
  {
    if config.forwardType != Kubectl then Ok(false)
    else
      match listing
      case Err(e) => Err(ListingError(e))
      case Ok(text) =>
        var lines := Lines(text);
        Ok(FirstMatch(lines, config) < |lines|)
  }

  /** `find_kubectl_process_pid`: the pid column of the first matching line. */
  function FindKubectlProcessPid(config: PortForwardConfig, listing: Result<string, string>): (r: Result<Option<Pid>, AppError>)
    ensures config.forwardType != Kubectl ==> r == Ok(None)
    ensures config.forwardType == Kubectl && listing.Err? ==> r == Err(ListingError(listing.error))
    ensures listing.Ok? ==> r.Ok?
    ensures r.Ok? && r.value.Some? ==>
              listing.Ok? &&
              var lines := Lines(listing.value);
              var i := FirstMatch(lines, config);
              i < |lines| && ExtractPid(lines[i]) == r.value
  {
    if config.forwardType != Kubectl then Ok(None)
    else
      match listing
      case Err(e) => Err(ListingError(e))
      case Ok(text) =>
        var lines := Lines(text);
        var i := FirstMatch(lines, config);
        if i < |lines| then Ok(ExtractPid(lines[i])) else Ok(None)
  }

  /** A pid is found only for a tunnel that is seen running, and a tunnel seen running
      has a pid unless the pid column of its first matching line is unreadable. */
  lemma PidAgreesWithRunning(config: PortForwardConfig, listing: Result<string, string>)
    ensures FindKubectlProcessPid(config, listing).Ok? <==> IsKubectlProcessRunning(config, listing).Ok?
    ensures (FindKubectlProcessPid(config, listing).Ok? && FindKubectlProcessPid(config, listing).value.Some?)
              ==> IsKubectlProcessRunning(config, listing) == Ok(true)
    ensures IsKubectlProcessRunning(config, listing) == Ok(true) ==>
              var lines := Lines(listing.value);
              FindKubectlProcessPid(config, listing) == Ok(ExtractPid(lines[FirstMatch(lines, config)]))
  {
  }
}
