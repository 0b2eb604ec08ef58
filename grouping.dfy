/** `groupConfigsByContext` of the desktop view: tunnel definitions grouped under their
    kubectl context, with every ssh tunnel under the single heading `SSH`. Groups appear
    in the order their first definition appears; a heading that names a member of
    `Object.prototype` makes the grouping throw. */
module Grouping {
  import opened Wrappers
  import opened Types
  import opened Collections

  datatype GroupedConfig = GroupedConfig(context: string, configs: seq<PortForwardConfig>)

  /** The heading a definition is listed under. */
  function GroupKey(c: PortForwardConfig): (k: string)
    ensures c.forwardType == Ssh ==> k == "SSH"
    ensures c.forwardType == Kubectl ==> k == c.context
  {
    if c.forwardType == Ssh then "SSH" else c.context
  }

  /** The groups: one per heading, headings in first-appearance order, each holding its
      definitions in input order. */
  function Groups(configs: seq<PortForwardConfig>): (groups: seq<GroupedConfig>)
    ensures |groups| == |Keys(configs, GroupKey)|
  {
    var ks := Keys(configs, GroupKey);
    seq(|ks|, j requires 0 <= j < |ks| => GroupedConfig(ks[j], Select(configs, GroupKey, ks[j])))
  }

  /** The names a plain object `{}` already answers through `Object.prototype`. */
  const PrototypeNames: set<string> := {
    "constructor", "hasOwnProperty", "isPrototypeOf", "propertyIsEnumerable",
    "toLocaleString", "toString", "valueOf", "__proto__",
    "__defineGetter__", "__defineSetter__", "__lookupGetter__", "__lookupSetter__"}

  /** The `TypeError` of the `reduce`: under a heading that names an `Object.prototype`
      member, `acc[contextKey]` is the inherited member, which is truthy, so no `[]` is put
      in its place and it has no `push`. */
  datatype GroupingError = PushOnInherited(heading: string)

  /** Whether a heading names an `Object.prototype` member. */
  predicate Inherited(heading: string) {
    heading in PrototypeNames
  }

  /** Whether the `reduce` throws: some definition is listed under an inherited name. */
  predicate Throws(configs: seq<PortForwardConfig>) {
    exists i :: 0 <= i < |configs| && Inherited(GroupKey(configs[i]))
  }

  /** `groupConfigsByContext`: the accumulator is filled by one pass over the definitions
      (the `reduce`), then read out heading by heading (`Object.entries(...).map`). The
      pass throws at the first definition listed under an inherited name. */
  method GroupConfigsByContext(configs: seq<PortForwardConfig>) returns (r: Result<seq<GroupedConfig>, GroupingError>)
    ensures r.Err? <==> Throws(configs)
    ensures r.Err? ==> Inherited(r.error.heading)
                       && exists i :: 0 <= i < |configs| && GroupKey(configs[i]) == r.error.heading
    ensures r.Ok? ==> r.value == Groups(configs)
  {
    var keys: seq<string> := [];
    var acc: map<string, seq<PortForwardConfig>> := map[];
    for i := 0 to |configs|
      invariant Accumulated(configs[..i], keys, acc)
      invariant forall j :: 0 <= j < i ==> !Inherited(GroupKey(configs[j]))
    {
      var contextKey := GroupKey(configs[i]);
      if Inherited(contextKey) {
        return Err(PushOnInherited(contextKey));
      }
      assert configs[..i + 1] == configs[..i] + [configs[i]];
      keys, acc := Push(configs[..i], configs[i], keys, acc);
    }
    assert configs[..|configs|] == configs;
    r := Ok(seq(|keys|, j requires 0 <= j < |keys| => GroupedConfig(keys[j], acc[keys[j]])));
  }

  /** The body of the `reduce` for a heading that is not inherited: a new heading gets an
      empty list, and the definition is pushed onto its heading's list. */
  method Push(prefix: seq<PortForwardConfig>, config: PortForwardConfig, keys: seq<string>,
              acc: map<string, seq<PortForwardConfig>>)
    returns (keys': seq<string>, acc': map<string, seq<PortForwardConfig>>)
    requires Accumulated(prefix, keys, acc)
    ensures Accumulated(prefix + [config], keys', acc')
  {
    AccumulateStep(prefix, config, keys, acc);
    var contextKey := GroupKey(config);
    keys', acc' := keys, acc;
    if contextKey !in acc' {
      acc' := acc'[contextKey := []];
      keys' := keys' + [contextKey];
    }
    acc' := acc'[contextKey := acc'[contextKey] + [config]];
  }

  /** A kubectl definition whose context is `constructor` makes the grouping throw, while
      the ssh heading `SSH` never does. */
  lemma InheritedHeadingThrows(c: PortForwardConfig, configs: seq<PortForwardConfig>)
    ensures c.forwardType == Kubectl && c.context == "constructor" ==> Throws(configs + [c])
    ensures (forall i :: 0 <= i < |configs| ==> configs[i].forwardType == Ssh) ==> !Throws(configs)
  {
    if c.forwardType == Kubectl && c.context == "constructor" {
      assert GroupKey((configs + [c])[|configs|]) == "constructor";
      assert Inherited("constructor");
    }
    if forall i :: 0 <= i < |configs| ==> configs[i].forwardType == Ssh {
      assert !Inherited("SSH");
    }
  }

  /** The accumulator after a prefix of the input: the headings seen, in order, and
      under each the definitions with that heading. */
  ghost predicate Accumulated(prefix: seq<PortForwardConfig>, keys: seq<string>, acc: map<string, seq<PortForwardConfig>>) {
    && keys == Keys(prefix, GroupKey)
    && (forall k :: k in acc <==> k in keys)
    && (forall k :: k in acc ==> acc[k] == Select(prefix, GroupKey, k))
  }

  /** One `reduce` step keeps the accumulator faithful. */
  lemma AccumulateStep(prefix: seq<PortForwardConfig>, config: PortForwardConfig, keys: seq<string>,
                       acc: map<string, seq<PortForwardConfig>>)
    requires Accumulated(prefix, keys, acc)
    ensures var k := GroupKey(config);
            var keys' := if k in acc then keys else keys + [k];
            var acc' := if k in acc then acc else acc[k := []];
            Accumulated(prefix + [config], keys', acc'[k := acc'[k] + [config]])
  {
    var k := GroupKey(config);
    var longer := prefix + [config];
    assert longer[..|longer| - 1] == prefix;
    assert longer[|longer| - 1] == config;
    assert Keys(longer, GroupKey) == if k in keys then keys else keys + [k];
    forall k'
      ensures Select(longer, GroupKey, k') == Select(prefix, GroupKey, k') + (if k' == k then [config] else [])
    {
    }
    if k !in acc {
      forall x | x in prefix
        ensures GroupKey(x) != k
      {
      }
      SelectNone(prefix, GroupKey, k);
    }
    var keys' := if k in acc then keys else keys + [k];
    var acc' := if k in acc then acc else acc[k := []];
    var final := acc'[k := acc'[k] + [config]];
    assert acc'[k] == Select(prefix, GroupKey, k);
    forall k' | k' in final
      ensures final[k'] == Select(longer, GroupKey, k')
    {
      if k' != k {
        assert final[k'] == acc[k'];
      }
    }
    assert Accumulated(longer, keys', final);
  }

  /** All definitions of the groups, one group after the other. */
  function Flattened(groups: seq<GroupedConfig>): seq<PortForwardConfig> {
    if groups == [] then []
    else Flattened(groups[..|groups| - 1]) + groups[|groups| - 1].configs
  }

  /** Groups that hold, heading by heading, the definitions with that heading flatten to
      the definitions gathered heading by heading. */
  lemma {:induction false} FlattenedGather(groups: seq<GroupedConfig>, configs: seq<PortForwardConfig>, ks: seq<string>)
    requires |groups| == |ks|
    requires forall j :: 0 <= j < |ks| ==> groups[j].configs == Select(configs, GroupKey, ks[j])
    ensures Flattened(groups) == Gather(configs, GroupKey, ks)
    decreases |ks|
  {
    if ks != [] {
      var n := |ks|;
      var gs, ks' := groups[..n - 1], ks[..n - 1];
      assert forall j :: 0 <= j < |ks'| ==> gs[j] == groups[j] && ks'[j] == ks[j];
      FlattenedGather(gs, configs, ks');
      assert Flattened(groups) == Flattened(gs) + groups[n - 1].configs;
      assert Gather(configs, GroupKey, ks) == Gather(configs, GroupKey, ks') + Select(configs, GroupKey, ks[n - 1]);
    }
  }

  /** Every definition lands in exactly one group: the groups rearrange the input. */
  lemma GroupsPermute(configs: seq<PortForwardConfig>)
    ensures multiset(Flattened(Groups(configs))) == multiset(configs)
    ensures |Flattened(Groups(configs))| == |configs|
  {
    var groups := Groups(configs);
    var ks := Keys(configs, GroupKey);
    FlattenedGather(groups, configs, ks);
    forall x | x in configs
      ensures GroupKey(x) in ks
    {
    }
    GatherPermutes(configs, GroupKey, ks);
    assert |multiset(Flattened(groups))| == |multiset(configs)|;
  }

  /** A definition is in a group exactly when the group has its heading; ssh tunnels are
      all under `SSH`, the others under their context. */
  lemma GroupMembership(configs: seq<PortForwardConfig>, j: nat, c: PortForwardConfig)
    requires j < |Groups(configs)|
    ensures var g := Groups(configs)[j];
            && (c in g.configs <==> c in configs && GroupKey(c) == g.context)
            && (c in g.configs && c.forwardType == Ssh ==> g.context == "SSH")
            && (c in g.configs && c.forwardType == Kubectl ==> g.context == c.context)
  {
  }

  /** No heading appears twice, so no definition is in two groups. */
  lemma HeadingsDistinct(configs: seq<PortForwardConfig>, i: nat, j: nat)
    requires i < j < |Groups(configs)|
    ensures Groups(configs)[i].context != Groups(configs)[j].context
  {
  }

  /** No group is empty. */
  lemma {:induction false} NoEmptyGroup(configs: seq<PortForwardConfig>, j: nat)
    requires j < |Groups(configs)|
    ensures Groups(configs)[j].configs != []
  {
    var k := Keys(configs, GroupKey)[j];
    assert k in Keys(configs, GroupKey);
    var x :| x in configs && GroupKey(x) == k;
    assert x in Select(configs, GroupKey, k);
  }

  /** A definition added at the end of the input goes to the end of its own group and
      changes no other group; the groups already there keep their place. */
  lemma GroupsAppend(configs: seq<PortForwardConfig>, c: PortForwardConfig, j: nat)
    requires j < |Groups(configs)|
    ensures j < |Groups(configs + [c])|
    ensures var g := Groups(configs)[j];
            Groups(configs + [c])[j] == GroupedConfig(g.context, g.configs + (if GroupKey(c) == g.context then [c] else []))
  {
    var longer := configs + [c];
    assert longer[..|longer| - 1] == configs;
    assert longer[|longer| - 1] == c;
  }
}
