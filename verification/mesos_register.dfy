/** mesos/register.go: the poller's own service cache. Each refresh marks the
    services it still sees (registering the ones it does not know yet, or whose
    tags changed), then a sweep deregisters every entry left unmarked and
    clears the marks of the others. Calls on the Consul registry are recorded
    in a ghost log; their implementation is not part of this model. */
module MesosRegister {
  import opened Wrappers
  import opened GoStrings
  import opened MesosTypes
  import opened MesosUtil
  import opened Catalog
  import opened Visiting

  /** consulapi.AgentServiceCheck, the fields this file sets. */
  datatype ServiceCheck = ServiceCheck(http: string, interval: string)

  /** consulapi.AgentServiceRegistration, the fields this file sets. */
  datatype Registration = Registration(
    id: string,
    name: string,
    port: int,
    address: string,
    tags: seq<string>,
    check: Option<ServiceCheck>)

  /** CacheEntry: the registration last sent, and the mark of this round. */
  datatype CacheEntry = CacheEntry(service: Registration, isRegistered: bool)

  type Cache = map<string, CacheEntry>

  /** A call on m.Consul. */
  datatype ConsulCall = RegisterCall(service: Registration) | DeregisterCall(service: Registration)

  /** One master as getMasters reports it (getMasters is not part of this model). */
  datatype MasterHost = MasterHost(host: string, port: string, isLeader: bool)

  /** Every entry is stored under the ID of its own registration. */
  ghost predicate KeyedById(cache: Cache)
  {
    forall id | id in cache :: cache[id].service.id == id
  }

  /** sliceEq: element-by-element equality of two tag lists, order included. */
  method SliceEq(a: seq<string>, b: seq<string>) returns (eq: bool)
    ensures eq <==> a == b
  {
    if |a| != |b| {
      return false;
    }
    var i := 0;
    while i < |a|
      invariant 0 <= i <= |a|
      invariant forall j | 0 <= j < i :: a[j] == b[j]
    {
      if a[i] != b[i] {
        return false;
      }
      i := i + 1;
    }
    return true;
  }

  /** registerHost's test: the ID is cached with exactly these tags. */
  predicate TagsMatch(cache: Cache, s: Registration)
  {
    s.id in cache && cache[s.id].service.tags == s.tags
  }

  /** The cache after registerHost(s): a match is only marked; otherwise `s`
      is stored, marked, in place of whatever was there. */
  function AfterRegisterHost(cache: Cache, s: Registration): Cache
  {
    if TagsMatch(cache, s) then cache[s.id := cache[s.id].(isRegistered := true)]
    else cache[s.id := CacheEntry(s, true)]
  }

  /** The registry calls registerHost(s) makes. */
  function RegisterHostCalls(cache: Cache, s: Registration): seq<ConsulCall>
  {
    if TagsMatch(cache, s) then [] else [RegisterCall(s)]
  }

  /** The cache after registerHost of each registration in turn. */
  function RegisterHostsCache(cache: Cache, regs: seq<Registration>): Cache
  {
    if regs == [] then cache
    else AfterRegisterHost(RegisterHostsCache(cache, regs[..|regs| - 1]), regs[|regs| - 1])
  }

  /** The registry calls of registerHost of each registration in turn. */
  function RegisterHostsCalls(cache: Cache, regs: seq<Registration>): seq<ConsulCall>
  {
    if regs == [] then []
    else
      var init := regs[..|regs| - 1];
      RegisterHostsCalls(cache, init) + RegisterHostCalls(RegisterHostsCache(cache, init), regs[|regs| - 1])
  }

  /** The cache after register(s): any cached ID is only marked, whatever
      its tags. */
  function AfterRegister(cache: Cache, s: Registration): Cache
  {
    if s.id in cache then cache[s.id := cache[s.id].(isRegistered := true)]
    else cache[s.id := CacheEntry(s, true)]
  }

  /** The IDs of unmarked entries: those a sweep deregisters. */
  function Unmarked(cache: Cache): set<string>
  {
    set id | id in cache && !cache[id].isRegistered
  }

  /** The cache after deregister: unmarked entries are gone, marked ones stay
      with their mark cleared. */
  function Sweep(cache: Cache): (swept: Cache)
    ensures swept.Keys == cache.Keys - Unmarked(cache)
    ensures forall id | id in swept :: !swept[id].isRegistered && swept[id].service == cache[id].service
  {
    map id | id in cache && cache[id].isRegistered :: cache[id].(isRegistered := false)
  }

  /** One more registerHost at the end of a run of them. */
  lemma RegisterHostsSnoc(cache: Cache, regs: seq<Registration>, s: Registration)
    ensures RegisterHostsCache(cache, regs + [s]) == AfterRegisterHost(RegisterHostsCache(cache, regs), s)
    ensures RegisterHostsCalls(cache, regs + [s])
         == RegisterHostsCalls(cache, regs) + RegisterHostCalls(RegisterHostsCache(cache, regs), s)
  {
    assert (regs + [s])[..|regs|] == regs;
  }

  /** The deregistration calls for the entries with the given IDs, in order. */
  function DeregisterCalls(cache: Cache, order: seq<string>): (cs: seq<ConsulCall>)
    requires forall k | 0 <= k < |order| :: order[k] in cache
    ensures |cs| == |order|
  {
    if order == [] then []
    else DeregisterCalls(cache, order[..|order| - 1]) + [DeregisterCall(cache[order[|order| - 1]].service)]
  }

  /** The cache part way through the sweep, while the IDs in `todo` are
      still to be visited. */
  function SweepRest(cache: Cache, todo: set<string>): Cache
  {
    map id | id in cache && (id in todo || cache[id].isRegistered) ::
      if id in todo then cache[id] else cache[id].(isRegistered := false)
  }

  /** Visiting one more entry of the sweep. */
  lemma SweepRestStep(cache: Cache, todo: set<string>, id: string)
    requires id in cache && id in todo
    ensures SweepRest(cache, todo)[id] == cache[id]
    ensures SweepRest(cache, todo - {id})
         == if cache[id].isRegistered then SweepRest(cache, todo)[id := cache[id].(isRegistered := false)]
            else SweepRest(cache, todo) - {id}
  {
  }

  /** The state of deregister's loop, the IDs in `todo` still to be visited:
      `cache` is the cache so far and `log` the calls made so far. */
  ghost predicate SweepState(start: Cache, todo: set<string>, visited: seq<string>, cache: Cache, log: seq<ConsulCall>)
  {
    && cache == SweepRest(start, todo)
    && Visited(start.Keys, todo, visited)
    && log == DeregisterCalls(start, UnmarkedIn(start, visited))
  }

  /** One visit of deregister's loop keeps its state. */
  lemma SweepStateStep(start: Cache, todo: set<string>, visited: seq<string>, cache: Cache, log: seq<ConsulCall>, id: string)
    requires SweepState(start, todo, visited, cache, log) && id in todo
    ensures id in cache && cache[id] == start[id]
    ensures |todo - {id}| < |todo|
    ensures SweepState(start, todo - {id}, visited + [id],
              if start[id].isRegistered then cache[id := start[id].(isRegistered := false)] else cache - {id},
              if start[id].isRegistered then log else log + [DeregisterCall(start[id].service)])
  {
    SweepRestStep(start, todo, id);
    UnmarkedInSnoc(start, visited, id);
    VisitStep(start.Keys, todo, visited, id);
  }

  /** The unmarked IDs among `visited`, in the order visited. */
  function UnmarkedIn(cache: Cache, visited: seq<string>): (ids: seq<string>)
    ensures forall k | 0 <= k < |ids| :: ids[k] in cache && !cache[ids[k]].isRegistered
  {
    if visited == [] then []
    else
      var id := visited[|visited| - 1];
      UnmarkedIn(cache, visited[..|visited| - 1]) + (if id in cache && !cache[id].isRegistered then [id] else [])
  }

  lemma UnmarkedInSnoc(cache: Cache, visited: seq<string>, id: string)
    requires id in cache
    ensures UnmarkedIn(cache, visited + [id])
         == UnmarkedIn(cache, visited) + (if !cache[id].isRegistered then [id] else [])
    ensures DeregisterCalls(cache, UnmarkedIn(cache, visited + [id]))
         == DeregisterCalls(cache, UnmarkedIn(cache, visited))
            + (if !cache[id].isRegistered then [DeregisterCall(cache[id].service)] else [])
  {
    assert (visited + [id])[..|visited|] == visited;
    var order := UnmarkedIn(cache, visited);
    if !cache[id].isRegistered {
      var longer := order + [id];
      assert UnmarkedIn(cache, visited + [id]) == longer;
      assert longer[..|longer| - 1] == order;
      assert DeregisterCalls(cache, longer) == DeregisterCalls(cache, order) + [DeregisterCall(cache[id].service)];
    } else {
      assert UnmarkedIn(cache, visited + [id]) == order;
    }
  }

  /** Visiting every key once meets every unmarked ID exactly once. */
  lemma {:induction false} UnmarkedInCovers(cache: Cache, visited: seq<string>)
    requires Distinct(visited)
    ensures Distinct(UnmarkedIn(cache, visited))
    ensures forall id | id in cache && !cache[id].isRegistered && id in visited :: id in UnmarkedIn(cache, visited)
    ensures forall k | 0 <= k < |UnmarkedIn(cache, visited)| :: UnmarkedIn(cache, visited)[k] in visited
  {
    if visited != [] {
      var init := visited[..|visited| - 1];
      var id := visited[|visited| - 1];
      assert Distinct(init);
      UnmarkedInCovers(cache, init);
      assert forall x | x in init :: x in visited;
      assert id !in init;
    }
  }

  /** The registration RegisterHosts builds for a follower: the host and port
      come from its pid, the host resolved when DNS knows it. */
  function FollowerRegistration(f: Follower, lookup: string -> Option<string>): Registration
    requires ParsePID(f.pid).Some?
  {
    var hostPort := ParsePID(f.pid).value;
    var host := ToIP(hostPort.0, lookup);
    var port := ToPort(hostPort.1);
    Registration(
      ServicePrefix + "mesos:" + f.id + ":" + f.hostname,
      "mesos", port, host, ["follower"],
      Some(ServiceCheck("http://" + host + ":" + IntToString(port) + "/slave(1)/health", "10s")))
  }

  /** The tags of a master: the leader is tagged "leader" as well. */
  function MasterTags(isLeader: bool): (tags: seq<string>)
    ensures "master" in tags
    ensures "leader" in tags <==> isLeader
  {
    if isLeader then ["leader", "master"] else ["master"]
  }

  /** The registration RegisterHosts builds for a master. */
  function MasterRegistration(ma: MasterHost, lookup: string -> Option<string>): Registration
  {
    var host := ToIP(ma.host, lookup);
    var port := ToPort(ma.port);
    Registration(
      ServicePrefix + "mesos:" + ma.host + ":" + ma.port,
      "mesos", port, host, MasterTags(ma.isLeader),
      Some(ServiceCheck("http://" + host + ":" + IntToString(port) + "/master/health", "10s")))
  }

  predicate AllPidsParse(fs: seq<Follower>)
  {
    forall k | 0 <= k < |fs| :: ParsePID(fs[k].pid).Some?
  }

  /** The registrations of the followers, in order. */
  function FollowerRegistrations(fs: seq<Follower>, lookup: string -> Option<string>): (regs: seq<Registration>)
    requires AllPidsParse(fs)
    ensures |regs| == |fs|
  {
    if fs == [] then []
    else
      var init := fs[..|fs| - 1];
      assert forall k | 0 <= k < |init| :: init[k] == fs[k];
      FollowerRegistrations(init, lookup) + [FollowerRegistration(fs[|fs| - 1], lookup)]
  }

  /** The registrations of the masters, in order. */
  function MasterRegistrations(ms: seq<MasterHost>, lookup: string -> Option<string>): (regs: seq<Registration>)
    ensures |regs| == |ms|
  {
    if ms == [] then []
    else MasterRegistrations(ms[..|ms| - 1], lookup) + [MasterRegistration(ms[|ms| - 1], lookup)]
  }

  /** The number of followers, from the front, whose pids parse: RegisterHosts
      gets that far before a pid panics. */
  function ParsedPrefix(fs: seq<Follower>): (n: nat)
    ensures n <= |fs|
    ensures AllPidsParse(fs[..n])
    ensures n < |fs| ==> ParsePID(fs[n].pid).None?
  {
    if fs == [] || ParsePID(fs[0].pid).None? then 0
    else
      var m := ParsedPrefix(fs[1..]);
      AllPidsParseCons(fs, m);
      1 + m
  }

  lemma AllPidsParseCons(fs: seq<Follower>, m: nat)
    requires m < |fs| && ParsePID(fs[0].pid).Some? && AllPidsParse(fs[1..][..m])
    ensures AllPidsParse(fs[..m + 1])
  {
    var front, rest := fs[..m + 1], fs[1..][..m];
    forall k | 0 <= k < |front|
      ensures ParsePID(front[k].pid).Some?
    {
      if k > 0 {
        assert front[k] == rest[k - 1];
      }
    }
  }

  /** ParsedPrefix is the position of the first pid that does not parse. */
  lemma {:induction false} ParsedPrefixAt(fs: seq<Follower>, i: nat)
    requires i <= |fs| && AllPidsParse(fs[..i])
    requires i < |fs| ==> ParsePID(fs[i].pid).None?
    ensures ParsedPrefix(fs) == i
    ensures AllPidsParse(fs) <==> i == |fs|
  {
    if i > 0 {
      assert fs[..i][0] == fs[0];
      assert fs[1..][..i - 1] == fs[..i][1..];
      ParsedPrefixAt(fs[1..], i - 1);
    }
    if i == |fs| {
      assert fs[..i] == fs;
    }
  }

  lemma FollowerRegistrationsSnoc(fs: seq<Follower>, i: nat, lookup: string -> Option<string>)
    requires i < |fs| && AllPidsParse(fs[..i]) && ParsePID(fs[i].pid).Some?
    ensures AllPidsParse(fs[..i + 1])
    ensures FollowerRegistrations(fs[..i + 1], lookup) == FollowerRegistrations(fs[..i], lookup) + [FollowerRegistration(fs[i], lookup)]
  {
    assert fs[..i + 1][..i] == fs[..i];
  }

  lemma MasterRegistrationsSnoc(ms: seq<MasterHost>, j: nat, lookup: string -> Option<string>)
    requires j < |ms|
    ensures MasterRegistrations(ms[..j + 1], lookup) == MasterRegistrations(ms[..j], lookup) + [MasterRegistration(ms[j], lookup)]
  {
    assert ms[..j + 1][..j] == ms[..j];
  }

  /** registerHost over two runs in turn is registerHost over both. */
  lemma {:induction false} RegisterHostsAppend(cache: Cache, a: seq<Registration>, b: seq<Registration>)
    ensures RegisterHostsCache(cache, a + b) == RegisterHostsCache(RegisterHostsCache(cache, a), b)
    ensures RegisterHostsCalls(cache, a + b)
         == RegisterHostsCalls(cache, a) + RegisterHostsCalls(RegisterHostsCache(cache, a), b)
  {
    if b == [] {
      assert a + b == a;
    } else {
      var init := b[..|b| - 1];
      RegisterHostsAppend(cache, a, init);
      assert (a + b)[..|a + b| - 1] == a + init;
      ConcatAssoc(RegisterHostsCalls(cache, a), RegisterHostsCalls(RegisterHostsCache(cache, a), init),
        RegisterHostCalls(RegisterHostsCache(cache, a + init), b[|b| - 1]));
    }
  }

  /** The IDs of a run of registrations. */
  function RegIds(regs: seq<Registration>): set<string>
  {
    set k | 0 <= k < |regs| :: regs[k].id
  }

  /** Nothing is marked: so it is after a sweep, and for the entries LoadCache seeds. */
  predicate NoneMarked(cache: Cache)
  {
    forall id | id in cache :: !cache[id].isRegistered
  }

  /** registerHost keeps every entry stored under its own ID. */
  lemma {:induction false} RegisterHostsKeyed(cache: Cache, regs: seq<Registration>)
    requires KeyedById(cache)
    ensures KeyedById(RegisterHostsCache(cache, regs))
  {
    if regs != [] {
      RegisterHostsKeyed(cache, regs[..|regs| - 1]);
    }
  }

  /** From a cache where nothing is marked, registerHost of each registration
      in turn marks exactly the IDs of the registrations, adding no other key. */
  lemma {:induction false} RegisterHostsMarks(cache: Cache, regs: seq<Registration>)
    requires NoneMarked(cache)
    ensures RegisterHostsCache(cache, regs).Keys == cache.Keys + RegIds(regs)
    ensures forall id | id in RegisterHostsCache(cache, regs) ::
              RegisterHostsCache(cache, regs)[id].isRegistered <==> id in RegIds(regs)
  {
    if regs != [] {
      var init, s := regs[..|regs| - 1], regs[|regs| - 1];
      RegisterHostsMarks(cache, init);
      assert forall k | 0 <= k < |init| :: init[k] == regs[k];
      assert RegIds(regs) == RegIds(init) + {s.id};
    }
  }

  /** One refresh round from a swept cache: the sweep that ends it deregisters
      exactly the cached services not seen in the round, and afterwards the
      cache holds exactly the services seen. */
  lemma RoundKeepsSeen(cache: Cache, regs: seq<Registration>)
    requires NoneMarked(cache)
    ensures Unmarked(RegisterHostsCache(cache, regs)) == cache.Keys - RegIds(regs)
    ensures Sweep(RegisterHostsCache(cache, regs)).Keys == RegIds(regs)
  {
    RegisterHostsMarks(cache, regs);
  }

  /** Registrations that share an ID share their tags too. */
  predicate ConsistentTags(regs: seq<Registration>)
  {
    forall j, k | 0 <= j < |regs| && 0 <= k < |regs| && regs[j].id == regs[k].id :: regs[j].tags == regs[k].tags
  }

  /** After registerHost of each registration, every one of them is cached,
      marked, under its tags. */
  lemma {:induction false} RegisterHostsMatch(cache: Cache, regs: seq<Registration>)
    requires ConsistentTags(regs)
    ensures forall k | 0 <= k < |regs| ::
              TagsMatch(RegisterHostsCache(cache, regs), regs[k]) && RegisterHostsCache(cache, regs)[regs[k].id].isRegistered
  {
    if regs != [] {
      var init, s := regs[..|regs| - 1], regs[|regs| - 1];
      assert forall k | 0 <= k < |init| :: init[k] == regs[k];
      assert ConsistentTags(init);
      RegisterHostsMatch(cache, init);
    }
  }

  /** When every registration is already cached under its tags, registerHost
      of each calls the registry not at all and changes only marks. */
  lemma {:induction false} QuietWhenAllMatch(cache: Cache, regs: seq<Registration>)
    requires forall k | 0 <= k < |regs| :: TagsMatch(cache, regs[k])
    ensures RegisterHostsCalls(cache, regs) == []
    ensures RegisterHostsCache(cache, regs).Keys == cache.Keys
    ensures forall id | id in cache :: RegisterHostsCache(cache, regs)[id].service == cache[id].service
  {
    if regs != [] {
      var init := regs[..|regs| - 1];
      assert forall k | 0 <= k < |init| :: init[k] == regs[k];
      QuietWhenAllMatch(cache, init);
    }
  }

  /** A second round over the same registrations, after the sweep of the
      first, registers nothing: the registry is called only for changes. */
  lemma SecondRoundQuiet(cache: Cache, regs: seq<Registration>)
    requires ConsistentTags(regs)
    ensures RegisterHostsCalls(Sweep(RegisterHostsCache(cache, regs)), regs) == []
  {
    var first := RegisterHostsCache(cache, regs);
    RegisterHostsMatch(cache, regs);
    assert forall k | 0 <= k < |regs| :: TagsMatch(Sweep(first), regs[k]);
    QuietWhenAllMatch(Sweep(first), regs);
  }

  /** Every call registerHost makes registers one of the registrations, at
      most one call each. */
  lemma {:induction false} RegisterHostsCallsAreRegs(cache: Cache, regs: seq<Registration>)
    ensures |RegisterHostsCalls(cache, regs)| <= |regs|
    ensures forall c | c in RegisterHostsCalls(cache, regs) :: c.RegisterCall? && c.service in regs
  {
    if regs != [] {
      var init := regs[..|regs| - 1];
      RegisterHostsCallsAreRegs(cache, init);
      assert forall r | r in init :: r in regs;
    }
  }

  /** register and registerHost differ only for an ID cached under other
      tags: register merely marks it, registerHost replaces it. */
  lemma RegisterAgreesUnlessRetagged(cache: Cache, s: Registration)
    ensures AfterRegister(cache, s) == AfterRegisterHost(cache, s) <==> s.id !in cache || TagsMatch(cache, s)
  {
    if s.id in cache && !TagsMatch(cache, s) {
      assert AfterRegister(cache, s)[s.id].service.tags != AfterRegisterHost(cache, s)[s.id].service.tags;
    }
  }

  /** The IDs RegisterHosts builds carry the prefix LoadCache looks for, so a
      later LoadCache takes them back into the cache. */
  lemma RegistrationIdsPrefixed(f: Follower, ma: MasterHost, lookup: string -> Option<string>)
    ensures ParsePID(f.pid).Some? ==> HasPrefix(FollowerRegistration(f, lookup).id, ServicePrefix)
    ensures HasPrefix(MasterRegistration(ma, lookup).id, ServicePrefix)
  {
    assert HasPrefix(ServicePrefix + "mesos:", ServicePrefix);
    HasPrefixAppend(ServicePrefix + "mesos:", f.id, ServicePrefix);
    HasPrefixAppend(ServicePrefix + "mesos:" + f.id, ":", ServicePrefix);
    HasPrefixAppend(ServicePrefix + "mesos:" + f.id + ":", f.hostname, ServicePrefix);
    HasPrefixAppend(ServicePrefix + "mesos:", ma.host, ServicePrefix);
    HasPrefixAppend(ServicePrefix + "mesos:" + ma.host, ":", ServicePrefix);
    HasPrefixAppend(ServicePrefix + "mesos:" + ma.host + ":", ma.port, ServicePrefix);
  }

  /** The cache entry LoadCache builds from a catalog row: unmarked, no check. */
  function LoadedEntry(row: CatalogService): CacheEntry
  {
    CacheEntry(Registration(row.serviceId, row.serviceName, row.servicePort, row.serviceAddress, row.serviceTags, None), false)
  }

  class Mesos {
    var serviceCache: Cache
    ghost var calls: seq<ConsulCall>

    ghost predicate Valid()
      reads this
    {
      KeyedById(serviceCache)
    }

    /** The model's initial state: an empty cache and no call yet. */
    constructor ()
      ensures Valid()
      ensures serviceCache == map[] && calls == []
    {
      serviceCache := map[];
      calls := [];
    }

    /** registerHost: with the ID cached under the same tags, only mark it;
        otherwise store `s` marked (before the call, so it stays even when
        the call fails) and register it. */
    method RegisterHost(s: Registration)
      requires Valid()
      modifies this
      ensures Valid()
      ensures serviceCache == AfterRegisterHost(old(serviceCache), s)
      ensures calls == old(calls) + RegisterHostCalls(old(serviceCache), s)
    {
      if s.id in serviceCache {
        var same := SliceEq(s.tags, serviceCache[s.id].service.tags);
        if same {
          serviceCache := serviceCache[s.id := serviceCache[s.id].(isRegistered := true)];
          return;
        }
        serviceCache := serviceCache - {s.id};
      }
      serviceCache := serviceCache[s.id := CacheEntry(s, true)];
      calls := calls + [RegisterCall(s)];
    }

    /** register: a cached ID is only marked; a new one is stored marked and
        registered. */
    method Register(s: Registration)
      requires Valid()
      modifies this
      ensures Valid()
      ensures serviceCache == AfterRegister(old(serviceCache), s)
      ensures calls == old(calls) + (if s.id in old(serviceCache) then [] else [RegisterCall(s)])
    {
      if s.id in serviceCache {
        serviceCache := serviceCache[s.id := serviceCache[s.id].(isRegistered := true)];
        return;
      }
      serviceCache := serviceCache[s.id := CacheEntry(s, true)];
      calls := calls + [RegisterCall(s)];
    }

    /** deregister: visit every entry once, in the map's order; deregister
        and delete an unmarked one, clear the mark of a marked one. `order`
        is the order in which the unmarked IDs were met: each of them once. */
    method Deregister() returns (ghost order: seq<string>)
      requires Valid()
      modifies this
      ensures Valid()
      ensures serviceCache == Sweep(old(serviceCache))
      ensures Distinct(order)
      ensures forall k | 0 <= k < |order| :: order[k] in Unmarked(old(serviceCache))
      ensures forall id | id in Unmarked(old(serviceCache)) :: id in order
      ensures calls == old(calls) + DeregisterCalls(old(serviceCache), order)
    {
      ghost var start := serviceCache;
      var cache := serviceCache;
      ghost var log: seq<ConsulCall> := [];
      var todo := cache.Keys;
      ghost var visited: seq<string> := [];
      assert SweepRest(start, todo) == start;
      while todo != {}
        invariant SweepState(start, todo, visited, cache, log)
        modifies {}
        decreases |todo|
      {
        var id :| id in todo;
        SweepStateStep(start, todo, visited, cache, log, id);
        var e := cache[id];
        if !e.isRegistered {
          log := log + [DeregisterCall(e.service)];
          cache := cache - {id};
        } else {
          cache := cache[id := e.(isRegistered := false)];
        }
        visited := visited + [id];
        todo := todo - {id};
      }
      assert SweepRest(start, todo) == Sweep(start);
      order := UnmarkedIn(start, visited);
      assert log == DeregisterCalls(start, order);
      UnmarkedInCovers(start, visited);
      serviceCache := cache;
      calls := calls + log;
    }

    /** RegisterHosts: registerHost for every follower, then for every master.
        A follower pid that parsePID cannot take apart panics; the model stops
        there, with `completed` false, after the followers before it. */
    method RegisterHosts(sj: StateJSON, masters: seq<MasterHost>, lookup: string -> Option<string>)
      returns (completed: bool)
      requires Valid()
      modifies this
      ensures Valid()
      ensures completed <==> AllPidsParse(sj.followers)
      ensures var regs := FollowerRegistrations(sj.followers[..ParsedPrefix(sj.followers)], lookup)
                          + (if completed then MasterRegistrations(masters, lookup) else []);
              && serviceCache == RegisterHostsCache(old(serviceCache), regs)
              && calls == old(calls) + RegisterHostsCalls(old(serviceCache), regs)
    {
      completed := RegisterFollowers(sj.followers, lookup);
      ghost var followerRegs := FollowerRegistrations(sj.followers[..ParsedPrefix(sj.followers)], lookup);
      if !completed {
        assert followerRegs + [] == followerRegs;
        return;
      }
      ghost var mid := serviceCache;
      ghost var midCalls := calls;
      RegisterMasters(masters, lookup);
      RegisterHostsAppend(old(serviceCache), followerRegs, MasterRegistrations(masters, lookup));
      ConcatAssoc(old(calls), RegisterHostsCalls(old(serviceCache), followerRegs),
        RegisterHostsCalls(mid, MasterRegistrations(masters, lookup)));
    }

    /** The followers' loop of RegisterHosts: registerHost for each follower
        up to the first pid that does not parse. */
    method RegisterFollowers(fs: seq<Follower>, lookup: string -> Option<string>) returns (completed: bool)
      requires Valid()
      modifies this
      ensures Valid()
      ensures completed <==> ParsedPrefix(fs) == |fs|
      ensures completed <==> AllPidsParse(fs)
      ensures serviceCache == RegisterHostsCache(old(serviceCache), FollowerRegistrations(fs[..ParsedPrefix(fs)], lookup))
      ensures calls == old(calls) + RegisterHostsCalls(old(serviceCache), FollowerRegistrations(fs[..ParsedPrefix(fs)], lookup))
    {
      var i := 0;
      while i < |fs|
        invariant 0 <= i <= |fs|
        invariant Valid()
        invariant AllPidsParse(fs[..i])
        invariant serviceCache == RegisterHostsCache(old(serviceCache), FollowerRegistrations(fs[..i], lookup))
        invariant calls == old(calls) + RegisterHostsCalls(old(serviceCache), FollowerRegistrations(fs[..i], lookup))
      {
        if ParsePID(fs[i].pid).None? {
          ParsedPrefixAt(fs, i);
          return false;
        }
        var s := FollowerRegistration(fs[i], lookup);
        ghost var before := FollowerRegistrations(fs[..i], lookup);
        FollowerRegistrationsSnoc(fs, i, lookup);
        RegisterHostsSnoc(old(serviceCache), before, s);
        RegisterHost(s);
        ConcatAssoc(old(calls), RegisterHostsCalls(old(serviceCache), before), RegisterHostCalls(RegisterHostsCache(old(serviceCache), before), s));
        i := i + 1;
      }
      ParsedPrefixAt(fs, i);
      return true;
    }

    /** The masters' loop of RegisterHosts. */
    method RegisterMasters(masters: seq<MasterHost>, lookup: string -> Option<string>)
      requires Valid()
      modifies this
      ensures Valid()
      ensures serviceCache == RegisterHostsCache(old(serviceCache), MasterRegistrations(masters, lookup))
      ensures calls == old(calls) + RegisterHostsCalls(old(serviceCache), MasterRegistrations(masters, lookup))
    {
      var j := 0;
      while j < |masters|
        invariant 0 <= j <= |masters|
        invariant Valid()
        invariant serviceCache == RegisterHostsCache(old(serviceCache), MasterRegistrations(masters[..j], lookup))
        invariant calls == old(calls) + RegisterHostsCalls(old(serviceCache), MasterRegistrations(masters[..j], lookup))
      {
        var s := MasterRegistration(masters[j], lookup);
        ghost var before := MasterRegistrations(masters[..j], lookup);
        MasterRegistrationsSnoc(masters, j, lookup);
        RegisterHostsSnoc(old(serviceCache), before, s);
        RegisterHost(s);
        ConcatAssoc(old(calls), RegisterHostsCalls(old(serviceCache), before), RegisterHostCalls(RegisterHostsCache(old(serviceCache), before), s));
        j := j + 1;
      }
      assert masters[..j] == masters;
    }

    /** LoadCache: for every service name the catalog lists, query its
        instances and seed the cache with those whose ID has the prefix,
        unmarked. The first failing query ends the load with its error, the
        rows already seen staying seeded. */
    method LoadCache(listing: Result<seq<string>>, query: string -> Result<seq<CatalogService>>)
      returns (err: Option<string>)
      requires Valid()
      modifies this
      ensures Valid()
      ensures calls == old(calls)
      ensures listing.Err? ==> err == Some(listing.error) && serviceCache == old(serviceCache)
      ensures listing.Ok? ==>
                var names := listing.value;
                var n := AnsweredPrefix(names, query);
                && serviceCache == Seed(old(serviceCache), Rows(names[..n], query), LoadedEntry)
                && (err.None? <==> AllAnswered(names, query))
                && (n < |names| ==> err == Some(query(names[n]).error))
    {
      if listing.Err? {
        return Some(listing.error);
      }
      var names := listing.value;
      var i := 0;
      while i < |names|
        invariant 0 <= i <= |names|
        invariant AllAnswered(names[..i], query)
        invariant serviceCache == Seed(old(serviceCache), Rows(names[..i], query), LoadedEntry)
        invariant Valid() && calls == old(calls)
      {
        var answer := query(names[i]);
        if answer.Err? {
          AnsweredPrefixAt(names, i, query);
          return Some(answer.error);
        }
        RowsSnoc(names, i, query);
        SeedAppend(old(serviceCache), Rows(names[..i], query), answer.value, LoadedEntry);
        SeedRows(answer.value);
        i := i + 1;
      }
      AnsweredPrefixAt(names, i, query);
      return None;
    }

    /** The inner loop of LoadCache: store each prefixed row, unmarked. */
    method SeedRows(rows: seq<CatalogService>)
      requires Valid()
      modifies this
      ensures Valid() && calls == old(calls)
      ensures serviceCache == Seed(old(serviceCache), rows, LoadedEntry)
    {
      var j := 0;
      while j < |rows|
        invariant 0 <= j <= |rows|
        invariant serviceCache == Seed(old(serviceCache), rows[..j], LoadedEntry)
        invariant Valid() && calls == old(calls)
      {
        var s := rows[j];
        assert rows[..j + 1][..j] == rows[..j];
        if HasPrefix(s.serviceId, ServicePrefix) {
          serviceCache := serviceCache[s.serviceId := LoadedEntry(s)];
        }
        j := j + 1;
      }
      assert rows[..j] == rows;
    }
  }
}
