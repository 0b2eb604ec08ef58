/** The ordered list of tunnel definitions, read through a short-lived cache in front
    of the configuration store.

    The store is the field `stored`; whether a load or a save of it fails, and the
    clock, are parameters of each operation. Every edit reads the list (from the cache
    while it is fresh), changes a copy and writes the copy back through the store. */
module ConfigCache {
  import opened Wrappers
  import opened Types

  /** The cache lifetime used by `ConfigCache::new`: five seconds. */
  const DefaultTtl: nat := 5000

  /** `Instant::elapsed`: the time since `since`, saturating at zero. */
  function Elapsed(since: Instant, now: Instant): (d: nat)
    ensures now >= since ==> since + d == now
    ensures now < since ==> d == 0
  {
    if now >= since then now - since else 0
  }

  /** The index of the first config called `name` (`iter().position`). */
  function Position(cs: seq<PortForwardConfig>, name: string): (r: Option<nat>)
    ensures r.Some? ==> r.value < |cs| && cs[r.value].name == name
    ensures r.Some? ==> forall j :: 0 <= j < r.value ==> cs[j].name != name
    ensures r.None? ==> forall j :: 0 <= j < |cs| ==> cs[j].name != name
  {
    if cs == [] then None
    else if cs[0].name == name then Some(0)
    else match Position(cs[1..], name)
      case None => None
      case Some(i) => Some(i + 1)
  }

  /** `find_config` on a list: the first config called `name`, if any. */
  function Find(cs: seq<PortForwardConfig>, name: string): (r: Option<PortForwardConfig>)
    ensures r.Some? <==> exists c :: c in cs && c.name == name
    ensures r.Some? ==> r.value in cs && r.value.name == name
  {
    match Position(cs, name)
    case None => None
    case Some(i) => Some(cs[i])
  }

  /** `retain(|c| c.name != name)`: the configs with any other name, in order. */
  function Retain(cs: seq<PortForwardConfig>, name: string): (r: seq<PortForwardConfig>)
    ensures forall c :: c in r <==> c in cs && c.name != name
    ensures |r| <= |cs|
  {
    if cs == [] then []
    else (if cs[0].name != name then [cs[0]] else []) + Retain(cs[1..], name)
  }

  /** Retaining works piecewise, so the kept configs stay in their relative order. */
  lemma {:induction false} RetainAppend(a: seq<PortForwardConfig>, b: seq<PortForwardConfig>, name: string)
    ensures Retain(a + b, name) == Retain(a, name) + Retain(b, name)
  {
    if a == [] {
      assert a + b == b;
    } else {
      assert (a + b)[1..] == a[1..] + b;
      RetainAppend(a[1..], b, name);
    }
  }

  /** A list without the name is retained whole. */
  lemma {:induction false} RetainAbsent(cs: seq<PortForwardConfig>, name: string)
    requires forall j :: 0 <= j < |cs| ==> cs[j].name != name
    ensures Retain(cs, name) == cs
  {
    if cs != [] {
      RetainAbsent(cs[1..], name);
    }
  }

  /** `remove(from)` followed by `insert(to, _)`. */
  function Moved(cs: seq<PortForwardConfig>, from: nat, to: nat): (r: seq<PortForwardConfig>)
    requires from < |cs| && to < |cs|
    ensures |r| == |cs|
    ensures r[to] == cs[from]
    ensures r[..to] + r[to + 1..] == cs[..from] + cs[from + 1..]
  {
    var rest := cs[..from] + cs[from + 1..];
    assert rest[..to] + [cs[from]] + rest[to..] == rest[..to] + ([cs[from]] + rest[to..]);
    rest[..to] + [cs[from]] + rest[to..]
  }

  /** Moving an element is a permutation of the list. */
  lemma MovedPermutes(cs: seq<PortForwardConfig>, from: nat, to: nat)
    requires from < |cs| && to < |cs|
    ensures multiset(Moved(cs, from, to)) == multiset(cs)
  {
    var r := Moved(cs, from, to);
    calc {
      multiset(r);
    == { assert r == r[..to] + [r[to]] + r[to + 1..]; }
      multiset(r[..to]) + multiset{cs[from]} + multiset(r[to + 1..]);
    == { assert multiset(r[..to] + r[to + 1..]) == multiset(r[..to]) + multiset(r[to + 1..]); }
      multiset(cs[..from] + cs[from + 1..]) + multiset{cs[from]};
    == { assert cs == cs[..from] + [cs[from]] + cs[from + 1..]; }
      multiset(cs);
    }
  }

  /** Moving the element back where it came from restores the list. */
  lemma MovedBack(cs: seq<PortForwardConfig>, from: nat, to: nat)
    requires from < |cs| && to < |cs|
    ensures Moved(Moved(cs, from, to), to, from) == cs
  {
    var r := Moved(cs, from, to);
    var s := Moved(r, to, from);
    assert s[..from] + s[from + 1..] == cs[..from] + cs[from + 1..];
    assert s[from] == cs[from];
    assert s == s[..from] + [s[from]] + s[from + 1..];
    assert cs == cs[..from] + [cs[from]] + cs[from + 1..];
  }

  /** `ConfigCache`: the cached list and when it was filled, the lifetime, and the store. */
  class ConfigCache {
    var configs: Option<seq<PortForwardConfig>>
    var lastUpdated: Option<Instant>
    const ttl: nat
    /** The list the configuration store holds. */
    var stored: seq<PortForwardConfig>

    /** The cache and its timestamp are set and cleared together, and a filled cache
        holds what the store holds. */
    ghost predicate Valid()
      reads this
    {
      && (configs.Some? <==> lastUpdated.Some?)
      && (configs.Some? ==> configs.value == stored)
    }

    /** `is_cache_valid`: filled, stamped and younger than the lifetime. */
    predicate IsFresh(now: Instant)
      reads this
    {
      configs.Some? && lastUpdated.Some? && Elapsed(lastUpdated.value, now) < ttl
    }

    /** Whether reading the list at `now` fails: only a reload can fail. */
    predicate LoadFails(now: Instant, loadFault: Option<AppError>)
      reads this
    {
      !IsFresh(now) && loadFault.Some?
    }

    /** `ConfigCache::new`: empty, with the five-second lifetime. */
    constructor New(store: seq<PortForwardConfig>)
      ensures Valid()
      ensures configs == None && lastUpdated == None && ttl == DefaultTtl && stored == store
    {
      configs := None;
      lastUpdated := None;
      ttl := DefaultTtl;
      stored := store;
    }

    /** `ConfigCache::with_ttl`. */
    constructor WithTtl(store: seq<PortForwardConfig>, lifetime: nat)
      ensures Valid()
      ensures configs == None && lastUpdated == None && ttl == lifetime && stored == store
    {
      configs := None;
      lastUpdated := None;
      ttl := lifetime;
      stored := store;
    }

    /** `get_configs`: the cached list while it is fresh, otherwise a reload from the
        store that refills the cache; either way what is returned is the stored list. */
    method GetConfigs(now: Instant, loadFault: Option<AppError>) returns (r: Result<seq<PortForwardConfig>, AppError>)
      requires Valid()
      modifies this`configs, this`lastUpdated
      ensures Valid()
      ensures r.Err? <==> old(LoadFails(now, loadFault))
      ensures r.Err? ==> r.error == loadFault.value
      ensures r.Ok? ==> r.value == stored && !LoadFails(now, loadFault)
      ensures old(IsFresh(now)) || r.Err? ==> configs == old(configs) && lastUpdated == old(lastUpdated)
      ensures !old(IsFresh(now)) && r.Ok? ==> configs == Some(stored) && lastUpdated == Some(now)
    {
      if IsFresh(now) {
        return Ok(configs.value);
      }
      if loadFault.Some? {
        return Err(loadFault.value);
      }
      configs := Some(stored);
      lastUpdated := Some(now);
      r := Ok(stored);
    }

    /** `invalidate`: clears the list and its timestamp. */
    method Invalidate()
      requires Valid()
      modifies this`configs, this`lastUpdated
      ensures Valid()
      ensures configs == None && lastUpdated == None
      ensures !IsFresh(0)
    {
      configs := None;
      lastUpdated := None;
    }

    /** `update_configs`: saves first; only a successful save refills the cache. */
    method UpdateConfigs(cs: seq<PortForwardConfig>, now: Instant, saveFault: Option<AppError>)
      returns (r: Result<(), AppError>)
      requires Valid()
      modifies this
      ensures Valid()
      ensures r.Err? <==> saveFault.Some?
      ensures r.Err? ==> r.error == saveFault.value
      ensures r.Err? ==> stored == old(stored) && configs == old(configs) && lastUpdated == old(lastUpdated)
      ensures r.Ok? ==> stored == cs && configs == Some(cs) && lastUpdated == Some(now)
    {
      if saveFault.Some? {
        return Err(saveFault.value);
      }
      stored := cs;
      configs := Some(cs);
      lastUpdated := Some(now);
      r := Ok(());
    }

    /** `find_config`: the first stored config with the name. */
    method FindConfig(name: string, now: Instant, loadFault: Option<AppError>)
      returns (r: Result<Option<PortForwardConfig>, AppError>)
      requires Valid()
      modifies this`configs, this`lastUpdated
      ensures Valid() && stored == old(stored)
      ensures r.Err? <==> old(LoadFails(now, loadFault))
      ensures r.Err? ==> r.error == loadFault.value
      ensures r.Ok? ==> r.value == Find(stored, name) && !LoadFails(now, loadFault)
    {
      var loaded := GetConfigs(now, loadFault);
      if loaded.Err? {
        return Err(loaded.error);
      }
      r := Ok(Find(loaded.value, name));
    }

    /** `add_config`: appends at the end of the list. */
    method AddConfig(config: PortForwardConfig, now: Instant, loadFault: Option<AppError>, saveFault: Option<AppError>)
      returns (r: Result<(), AppError>)
      requires Valid()
      modifies this
      ensures Valid()
      ensures r.Err? <==> old(LoadFails(now, loadFault)) || saveFault.Some?
      ensures r.Ok? ==> stored == old(stored) + [config]
      ensures r.Err? ==> stored == old(stored)
    {
      var loaded := GetConfigs(now, loadFault);
      if loaded.Err? {
        return Err(loaded.error);
      }
      r := UpdateConfigs(loaded.value + [config], now, saveFault);
    }

    /** `remove_config`: drops every config with the name, keeping the others in order. */
    method RemoveConfig(name: string, now: Instant, loadFault: Option<AppError>, saveFault: Option<AppError>)
      returns (r: Result<(), AppError>)
      requires Valid()
      modifies this
      ensures Valid()
      ensures r.Err? <==> old(LoadFails(now, loadFault)) || saveFault.Some?
      ensures r.Ok? ==> stored == Retain(old(stored), name)
      ensures r.Err? ==> stored == old(stored)
    {
      var loaded := GetConfigs(now, loadFault);
      if loaded.Err? {
        return Err(loaded.error);
      }
      r := UpdateConfigs(Retain(loaded.value, name), now, saveFault);
    }

    /** `update_config`: replaces the first config with the old name in place; a name
        that is not there is `NotFound` and nothing is saved. */
    method UpdateConfig(oldName: string, newConfig: PortForwardConfig, now: Instant,
                        loadFault: Option<AppError>, saveFault: Option<AppError>)
      returns (r: Result<(), AppError>)
      requires Valid()
      modifies this
      ensures Valid()
      ensures old(LoadFails(now, loadFault)) ==> r.Err? && stored == old(stored)
      ensures !old(LoadFails(now, loadFault)) && Position(old(stored), oldName).None? ==>
                r == Err(NotFound("Configuration not found for service: " + oldName)) && stored == old(stored)
      ensures !old(LoadFails(now, loadFault)) && Position(old(stored), oldName).Some? ==>
                (r.Err? <==> saveFault.Some?)
                && stored == if r.Ok? then old(stored)[Position(old(stored), oldName).value := newConfig] else old(stored)
    {
      var loaded := GetConfigs(now, loadFault);
      if loaded.Err? {
        return Err(loaded.error);
      }
      var cs := loaded.value;
      match Position(cs, oldName)
      case Some(index) =>
        r := UpdateConfigs(cs[index := newConfig], now, saveFault);
      case None =>
        r := Err(NotFound("Configuration not found for service: " + oldName));
    }

    /** `reorder_config`: `NotFound` for an unknown name, then `InvalidInput` for an index
        past the end; otherwise the config moves to `newIndex`. */
    method ReorderConfig(name: string, newIndex: nat, now: Instant,
                         loadFault: Option<AppError>, saveFault: Option<AppError>)
      returns (r: Result<(), AppError>)
      requires Valid()
      modifies this
      ensures Valid()
      ensures old(LoadFails(now, loadFault)) ==> r.Err? && stored == old(stored)
      ensures !old(LoadFails(now, loadFault)) && Position(old(stored), name).None? ==>
                r == Err(NotFound("Configuration not found for service: " + name)) && stored == old(stored)
      ensures !old(LoadFails(now, loadFault)) && Position(old(stored), name).Some? && newIndex >= |old(stored)| ==>
                r == Err(InvalidInput("Invalid new index")) && stored == old(stored)
      ensures !old(LoadFails(now, loadFault)) && Position(old(stored), name).Some? && newIndex < |old(stored)| ==>
                (r.Err? <==> saveFault.Some?)
                && stored == if r.Ok? then Moved(old(stored), Position(old(stored), name).value, newIndex) else old(stored)
    {
      var loaded := GetConfigs(now, loadFault);
      if loaded.Err? {
        return Err(loaded.error);
      }
      var cs := loaded.value;
      match Position(cs, name)
      case None =>
        r := Err(NotFound("Configuration not found for service: " + name));
      case Some(current) =>
        if newIndex >= |cs| {
          return Err(InvalidInput("Invalid new index"));
        }
        r := UpdateConfigs(Moved(cs, current, newIndex), now, saveFault);
    }
  }
}
