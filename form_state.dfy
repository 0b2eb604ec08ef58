/** `deriveConfigName` of the desktop form: the name proposed for a new tunnel from its
    backend, the chosen service or ssh host, and its port mappings. */
module FormState {
  import opened Wrappers
  import opened Strings
  import opened Types

  /** `host.split("@").pop()`: the text after the last `@`, or all of it without one. */
  function AfterLastAt(host: string): (r: string)
    ensures '@' !in r
    ensures '@' !in host ==> r == host
  {
    match RSplitOnce(host, '@')
    case Some((_, after)) => after
    case None => host
  }

  /** `ports[0]?.split(":")[0]`: the local part of the first mapping, if there is one. */
  function FirstLocalPart(ports: seq<string>): (r: Option<string>)
    ensures r.Some? <==> ports != []
    ensures r.Some? ==> ':' !in r.value
  {
    if ports == [] then None else Some(Split(ports[0], ':')[0])
  }

  /** `a || b` on texts: `a` unless it is empty. */
  function OrElse(a: string, b: string): string {
    if a != [] then a else b
  }

  /** `deriveConfigName`. */
  function DeriveConfigName(forwardType: ForwardType, selectedService: string, sshHost: string,
                            ports: seq<string>): (name: string)
    ensures forwardType == Kubectl ==> selectedService + "-" <= name
  {
    var port := match FirstLocalPart(ports) case Some(p) => OrElse(p, "unknown") case None => "unknown";
    if forwardType == Ssh then OrElse(AfterLastAt(sshHost), sshHost) + "-" + port
    else selectedService + "-" + port
  }

  /** The local part of a mapping `local:rest` is `local`. */
  lemma LocalPartOfMapping(local: string, rest: string, more: seq<string>)
    requires ':' !in local
    ensures FirstLocalPart([local + ":" + rest] + more) == Some(local)
  {
    assert local + ":" + rest == local + [':'] + rest;
    SplitAtSeparator(local, ':', rest);
  }

  /** For `user@host` and a first mapping `local:remote`, ssh tunnels are named
      `host-local`. */
  lemma SshNameOfUserAtHost(user: string, host: string, local: string, remote: string, more: seq<string>)
    requires host != [] && '@' !in host
    requires local != [] && ':' !in local
    ensures DeriveConfigName(Ssh, "", user + "@" + host, [local + ":" + remote] + more) == host + "-" + local
  {
    assert user + "@" + host == user + ['@'] + host;
    RSplitOnceAt(user, '@', host);
    LocalPartOfMapping(local, remote, more);
  }

  /** A host ending in `@` has nothing after it, and the whole host text is used. */
  lemma SshTrailingAt(user: string, ports: seq<string>)
    ensures var name := DeriveConfigName(Ssh, "", user + "@", ports);
            user + "@" + "-" <= name
  {
    assert user + "@" == user + ['@'] + [];
    RSplitOnceAt(user, '@', []);
  }

  /** Without mappings, or with a first mapping whose local part is empty, the port is
      `unknown`. */
  lemma UnknownPort(forwardType: ForwardType, service: string, host: string, ports: seq<string>)
    requires ports == [] || Split(ports[0], ':')[0] == []
    ensures var name := DeriveConfigName(forwardType, service, host, ports);
            |name| >= 8 && name[|name| - 8..] == "-unknown"
  {
    var head := if forwardType == Ssh then OrElse(AfterLastAt(host), host) else service;
    assert FirstLocalPart(ports).None? || FirstLocalPart(ports).value == [];
    assert DeriveConfigName(forwardType, service, host, ports) == head + "-" + "unknown";
    EndsWithDashWord(head, "unknown");
  }

  /** `head-word` ends with `-word`. */
  lemma EndsWithDashWord(head: string, word: string)
    ensures var name := head + "-" + word;
            |name| >= |word| + 1 && name[|name| - |word| - 1..] == "-" + word
  {
    var name := head + "-" + word;
    assert name[|name| - |word| - 1..] == name[|head|..];
  }

  /** A kubectl name has no special case for a missing service: it starts with the
      dash that would follow the service. */
  lemma EmptyServiceName(host: string, ports: seq<string>)
    ensures DeriveConfigName(Kubectl, "", host, ports)[0] == '-'
  {
  }
}
