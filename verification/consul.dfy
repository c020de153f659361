/** consul/cache.go and consul/consul.go: the Consul registry back end. It
    keeps its own cache of the services it registered (the package-level
    `serviceCache`, nil until CacheCreate) and one agent client per address.
    Agent calls are recorded in a ghost log, their outcome is a parameter;
    building a client (newAgent: TLS, certificates, HTTP) is not part of
    this model, a client is known only by its address. */
module Consul {
  import opened Wrappers
  import opened GoStrings
  import opened Catalog
  import opened Visiting

  /** registry.Check */
  datatype Check = Check(script: string, ttl: string, http: string, interval: string)

  /** registry.Service as consul.go reads it, the address of the agent to
      register with included. */
  datatype Service = Service(
    id: string,
    name: string,
    port: int,
    address: string,
    tags: seq<string>,
    check: Option<Check>,
    agent: string)

  /** consulapi.AgentServiceCheck, the fields Register sets. */
  datatype AgentCheck = AgentCheck(ttl: string, script: string, http: string, interval: string)

  /** consulapi.AgentServiceRegistration; `tags` is None while Go's slice is nil. */
  datatype AgentRegistration = AgentRegistration(
    id: string,
    name: string,
    port: int,
    address: string,
    tags: Option<seq<string>>,
    check: Option<AgentCheck>)

  /** A cache entry: the registration, the agent it went to, and the mark. */
  datatype CacheEntry = CacheEntry(service: AgentRegistration, agent: string, isRegistered: bool)

  type Cache = map<string, CacheEntry>

  /** An agent client, known by the address it talks to. */
  datatype Client = Client(address: string)

  /** A call on an agent, or on CacheProcessDeregister (whose body is not
      part of this model). */
  datatype AgentCall =
    | ServiceRegister(agent: string, registration: AgentRegistration)
    | ServiceDeregister(agent: string, serviceId: string)
    | ProcessDeregister(serviceId: string)

  /** newAgent: no client for the empty address. */
  function NewAgent(address: string): (cl: Option<Client>)
    ensures cl.None? <==> address == ""
    ensures cl.Some? ==> cl.value.address == address
  {
    if address == "" then None else Some(Client(address))
  }

  /** The agents map once a client for `address` is known: one is created
      only when the address has none yet. */
  function Memo(agents: map<string, Option<Client>>, address: string): map<string, Option<Client>>
  {
    if address in agents then agents else agents[address := NewAgent(address)]
  }

  /** The agents map with a client for each address of `addresses`. */
  function WithAgents(agents: map<string, Option<Client>>, addresses: set<string>): (r: map<string, Option<Client>>)
    ensures r.Keys == agents.Keys + addresses
  {
    map a | a in agents.Keys + addresses :: if a in agents then agents[a] else NewAgent(a)
  }

  /** Asking for a client again never creates another: the first one stays. */
  lemma MemoIdempotent(agents: map<string, Option<Client>>, address: string)
    ensures Memo(Memo(agents, address), address) == Memo(agents, address)
    ensures address in Memo(agents, address)
    ensures forall a | a in agents :: a in Memo(agents, address) && Memo(agents, address)[a] == agents[a]
  {
  }

  /** Memoising one address more is the same as adding it to the set. */
  lemma {:induction false} MemoWithAgents(agents: map<string, Option<Client>>, addresses: set<string>, address: string)
    ensures Memo(WithAgents(agents, addresses), address) == WithAgents(agents, addresses + {address})
  {
    var lhs, rhs := Memo(WithAgents(agents, addresses), address), WithAgents(agents, addresses + {address});
    assert lhs.Keys == rhs.Keys;
    forall a | a in lhs
      ensures lhs[a] == rhs[a]
    {
    }
  }

  /** CacheCreate's result: a cache is made only when there is none. */
  function Created(cache: Option<Cache>): (r: Option<Cache>)
    ensures r.Some?
    ensures cache.Some? ==> r == cache
    ensures cache.None? ==> r.value == map[]
  {
    if cache.None? then Some(map[]) else cache
  }

  /** Creating twice is creating once. */
  lemma CreatedIdempotent(cache: Option<Cache>)
    ensures Created(Created(cache)) == Created(cache)
  {
  }

  /** CacheLookup: nil for an ID not cached; otherwise a Service with the
      stored ID, name, port, address and tags, no check and no agent. */
  function CacheLookup(cache: Option<Cache>, id: string): (r: Option<Service>)
    ensures r.None? <==> cache.None? || id !in cache.value
    ensures r.Some? ==>
              var s := cache.value[id].service;
              && r.value.id == s.id && r.value.name == s.name && r.value.port == s.port
              && r.value.address == s.address
              && r.value.tags == (if s.tags.Some? then s.tags.value else [])
              && r.value.check.None? && r.value.agent == ""
  {
    if cache.Some? && id in cache.value then
      var s := cache.value[id].service;
      Some(Service(s.id, s.name, s.port, s.address, if s.tags.Some? then s.tags.value else [], None, ""))
    else None
  }

  /** CacheDelete's result: the key removed, if there is a cache at all. */
  function Deleted(cache: Option<Cache>, id: string): (r: Option<Cache>)
    ensures r.Some? <==> cache.Some?
    ensures r.Some? ==> r.value.Keys == cache.value.Keys - {id}
    ensures r.Some? ==> forall k | k in r.value :: r.value[k] == cache.value[k]
  {
    if cache.Some? && id in cache.value then Some(cache.value - {id}) else cache
  }

  /** CacheMark's result: a cached ID is marked; nothing is ever added. */
  function Marked(cache: Option<Cache>, id: string): (r: Option<Cache>)
    ensures r.Some? <==> cache.Some?
    ensures r.Some? ==> r.value.Keys == cache.value.Keys
    ensures r.Some? ==> forall k | k in r.value ::
              && r.value[k].service == cache.value[k].service
              && r.value[k].agent == cache.value[k].agent
              && r.value[k].isRegistered == (k == id || cache.value[k].isRegistered)
  {
    if cache.Some? && id in cache.value then Some(cache.value[id := cache.value[id].(isRegistered := true)])
    else cache
  }

  /** A deleted ID is not found, and every other ID is found as before. */
  lemma LookupAfterDelete(cache: Option<Cache>, id: string, other: string)
    requires other != id
    ensures CacheLookup(Deleted(cache, id), id).None?
    ensures CacheLookup(Deleted(cache, id), other) == CacheLookup(cache, other)
  {
  }

  /** Marking changes nothing CacheLookup can see. */
  lemma LookupAfterMark(cache: Option<Cache>, id: string, other: string)
    ensures CacheLookup(Marked(cache, id), other) == CacheLookup(cache, other)
  {
  }

  /** The registration Register sends: tags only when there are some. */
  function RegistrationOf(service: Service): (s: AgentRegistration)
    requires service.check.Some?
    ensures s.tags.Some? <==> |service.tags| > 0
    ensures s.tags.Some? ==> s.tags.value == service.tags
  {
    var c := service.check.value;
    AgentRegistration(service.id, service.name, service.port, service.address,
      if |service.tags| > 0 then Some(service.tags) else None,
      Some(AgentCheck(c.ttl, c.script, c.http, c.interval)))
  }

  /** What Register stores, CacheLookup gives back: the service without its
      check and agent. */
  lemma RegisterThenLookup(cache: Cache, service: Service)
    requires service.check.Some?
    ensures CacheLookup(Some(cache[service.id := CacheEntry(RegistrationOf(service), service.agent, true)]), service.id)
         == Some(service.(check := None, agent := ""))
  {
  }

  /** The entry CacheLoad builds from a catalog row: unmarked, no check. */
  function LoadedEntry(row: CatalogService): CacheEntry
  {
    CacheEntry(AgentRegistration(row.serviceId, row.serviceName, row.servicePort, row.serviceAddress,
      Some(row.serviceTags), None), "", false)
  }

  /** The package cache exists and holds `id` (a lookup in a nil map finds
      nothing). */
  predicate Cached(cache: Option<Cache>, id: string)
  {
    cache.Some? && id in cache.value
  }

  /** What CacheProcessDeregister does to one valid entry is a parameter:
      the entry it leaves under the ID, or None when it deletes it. */
  type Process = (string, CacheEntry) -> Option<CacheEntry>

  /** What becomes of one entry of `cache` when Deregister visits it: a
      valid entry is processed; any other is deleted exactly when its agent
      deregistration succeeds, and otherwise left as it was. */
  function Outcome(cache: Cache, isValid: string -> bool, deregOk: string -> bool, process: Process, id: string): Option<CacheEntry>
    requires id in cache
  {
    if isValid(id) then process(id, cache[id])
    else if deregOk(id) then None
    else Some(cache[id])
  }

  /** The cache after Deregister. A valid entry becomes what
      CacheProcessDeregister leaves; an entry that is not valid goes only
      when its agent deregistration succeeded, and stays unchanged when it
      failed. No entry is added. */
  function SweepInvalid(cache: Cache, isValid: string -> bool, deregOk: string -> bool, process: Process): (r: Cache)
    ensures r.Keys == set id | id in cache && (if isValid(id) then process(id, cache[id]).Some? else !deregOk(id))
    ensures forall id | id in r :: r[id] == if isValid(id) then process(id, cache[id]).value else cache[id]
  {
    map id | id in cache && Outcome(cache, isValid, deregOk, process, id).Some? :: Outcome(cache, isValid, deregOk, process, id).value
  }

  /** SweepInvalid part way, the IDs in `todo` still to be visited. */
  function SweepInvalidRest(cache: Cache, isValid: string -> bool, deregOk: string -> bool, process: Process, todo: set<string>): Cache
  {
    map id | id in cache && (id in todo || Outcome(cache, isValid, deregOk, process, id).Some?) ::
      if id in todo then cache[id] else Outcome(cache, isValid, deregOk, process, id).value
  }

  /** The calls Deregister makes visiting `visited` in order: a valid entry
      goes to CacheProcessDeregister, any other to its agent. */
  function DeregisterLog(cache: Cache, isValid: string -> bool, visited: seq<string>): (log: seq<AgentCall>)
    requires forall k | 0 <= k < |visited| :: visited[k] in cache
    ensures |log| == |visited|
  {
    if visited == [] then []
    else
      var id := visited[|visited| - 1];
      DeregisterLog(cache, isValid, visited[..|visited| - 1])
        + [if isValid(id) then ProcessDeregister(id) else ServiceDeregister(cache[id].agent, cache[id].service.id)]
  }

  /** Each visited entry gets exactly one call, of the kind its validity says. */
  lemma {:induction false} DeregisterLogAt(cache: Cache, isValid: string -> bool, visited: seq<string>, k: nat)
    requires forall j | 0 <= j < |visited| :: visited[j] in cache
    requires k < |visited|
    ensures var id := visited[k];
            DeregisterLog(cache, isValid, visited)[k]
            == if isValid(id) then ProcessDeregister(id) else ServiceDeregister(cache[id].agent, cache[id].service.id)
  {
    if k < |visited| - 1 {
      var init := visited[..|visited| - 1];
      DeregisterLogAt(cache, isValid, init, k);
    }
  }

  /** The agent addresses of the entries among `visited` that are not valid. */
  function InvalidAgents(cache: Cache, isValid: string -> bool, visited: seq<string>): set<string>
  {
    set k | 0 <= k < |visited| && visited[k] in cache && !isValid(visited[k]) :: cache[visited[k]].agent
  }

  /** The state of Deregister's loop, the IDs in `todo` still to be visited. */
  ghost predicate DeregisterState(
    start: Cache, isValid: string -> bool, deregOk: string -> bool, process: Process,
    agents0: map<string, Option<Client>>,
    todo: set<string>, visited: seq<string>,
    cache: Cache, agents: map<string, Option<Client>>, log: seq<AgentCall>)
  {
    && Visited(start.Keys, todo, visited)
    && cache == SweepInvalidRest(start, isValid, deregOk, process, todo)
    && agents == WithAgents(agents0, InvalidAgents(start, isValid, visited))
    && log == DeregisterLog(start, isValid, visited)
  }

  lemma InvalidAgentsSnoc(start: Cache, isValid: string -> bool, visited: seq<string>, id: string)
    requires id in start
    ensures isValid(id) ==> InvalidAgents(start, isValid, visited + [id]) == InvalidAgents(start, isValid, visited)
    ensures !isValid(id) ==>
              InvalidAgents(start, isValid, visited + [id]) == InvalidAgents(start, isValid, visited) + {start[id].agent}
  {
    var v := visited + [id];
    assert forall k | 0 <= k < |visited| :: v[k] == visited[k];
    assert v[|visited|] == id;
  }

  lemma DeregisterLogSnoc(start: Cache, isValid: string -> bool, visited: seq<string>, id: string)
    requires forall k | 0 <= k < |visited| :: visited[k] in start
    requires id in start
    ensures DeregisterLog(start, isValid, visited + [id])
         == DeregisterLog(start, isValid, visited)
            + [if isValid(id) then ProcessDeregister(id) else ServiceDeregister(start[id].agent, start[id].service.id)]
  {
    assert (visited + [id])[..|visited|] == visited;
  }

  lemma SweepInvalidRestStep(start: Cache, isValid: string -> bool, deregOk: string -> bool, process: Process, todo: set<string>, id: string)
    requires id in todo && id in start
    ensures SweepInvalidRest(start, isValid, deregOk, process, todo)[id] == start[id]
    ensures SweepInvalidRest(start, isValid, deregOk, process, todo - {id})
         == match Outcome(start, isValid, deregOk, process, id)
            case None => SweepInvalidRest(start, isValid, deregOk, process, todo) - {id}
            case Some(e) => SweepInvalidRest(start, isValid, deregOk, process, todo)[id := e]
  {
  }

  /** Deregister's loop starts in its state: nothing visited, nothing changed. */
  lemma DeregisterStart(start: Cache, isValid: string -> bool, deregOk: string -> bool, process: Process, agents0: map<string, Option<Client>>)
    ensures DeregisterState(start, isValid, deregOk, process, agents0, start.Keys, [], start, agents0, [])
  {
    assert SweepInvalidRest(start, isValid, deregOk, process, start.Keys) == start;
    assert WithAgents(agents0, {}) == agents0;
  }

  /** Once every entry has been visited, the loop has swept the whole cache. */
  lemma DeregisterDone(start: Cache, isValid: string -> bool, deregOk: string -> bool, process: Process)
    ensures SweepInvalidRest(start, isValid, deregOk, process, {}) == SweepInvalid(start, isValid, deregOk, process)
  {
  }

  /** Visiting a valid entry keeps the state of Deregister's loop. */
  lemma DeregisterStepValid(
    start: Cache, isValid: string -> bool, deregOk: string -> bool, process: Process,
    agents0: map<string, Option<Client>>,
    todo: set<string>, visited: seq<string>,
    cache: Cache, agents: map<string, Option<Client>>, log: seq<AgentCall>, id: string)
    requires DeregisterState(start, isValid, deregOk, process, agents0, todo, visited, cache, agents, log)
    requires id in todo && isValid(id)
    ensures id in cache && cache[id] == start[id]
    ensures |todo - {id}| < |todo|
    ensures DeregisterState(start, isValid, deregOk, process, agents0, todo - {id}, visited + [id],
              match process(id, start[id]) case None => cache - {id} case Some(e) => cache[id := e],
              agents, log + [ProcessDeregister(id)])
  {
    VisitStep(start.Keys, todo, visited, id);
    SweepInvalidRestStep(start, isValid, deregOk, process, todo, id);
    DeregisterLogSnoc(start, isValid, visited, id);
    InvalidAgentsSnoc(start, isValid, visited, id);
  }

  /** Visiting an entry that is not valid keeps the state of Deregister's loop. */
  lemma DeregisterStepInvalid(
    start: Cache, isValid: string -> bool, deregOk: string -> bool, process: Process,
    agents0: map<string, Option<Client>>,
    todo: set<string>, visited: seq<string>,
    cache: Cache, agents: map<string, Option<Client>>, log: seq<AgentCall>, id: string)
    requires DeregisterState(start, isValid, deregOk, process, agents0, todo, visited, cache, agents, log)
    requires id in todo && !isValid(id)
    ensures id in cache && cache[id] == start[id]
    ensures |todo - {id}| < |todo|
    ensures DeregisterState(start, isValid, deregOk, process, agents0, todo - {id}, visited + [id],
              if deregOk(id) then cache - {id} else cache,
              Memo(agents, start[id].agent),
              log + [ServiceDeregister(start[id].agent, start[id].service.id)])
  {
    VisitStep(start.Keys, todo, visited, id);
    SweepInvalidRestStep(start, isValid, deregOk, process, todo, id);
    DeregisterLogSnoc(start, isValid, visited, id);
    InvalidAgentsSnoc(start, isValid, visited, id);
    MemoWithAgents(agents0, InvalidAgents(start, isValid, visited), start[id].agent);
  }

  class Consul {
    var agents: map<string, Option<Client>>
    var serviceCache: Option<Cache>
    ghost var calls: seq<AgentCall>

    /** New: no agents yet; the package cache is still nil. */
    constructor New()
      ensures agents == map[] && serviceCache.None? && calls == []
    {
      agents := map[];
      serviceCache := None;
      calls := [];
    }

    /** client: nil for the empty address, with the map untouched; otherwise
        the stored client, created on first use. */
    method GetClient(address: string) returns (cl: Option<Client>)
      modifies this
      ensures serviceCache == old(serviceCache) && calls == old(calls)
      ensures address == "" ==> cl.None? && agents == old(agents)
      ensures address != "" ==> agents == Memo(old(agents), address) && cl == agents[address]
      ensures address != "" && address in old(agents) ==> cl == old(agents)[address]
    {
      if address == "" {
        return None;
      }
      if address !in agents {
        agents := agents[address := NewAgent(address)];
      }
      return agents[address];
    }

    method CacheCreate()
      modifies this
      ensures serviceCache == Created(old(serviceCache))
      ensures agents == old(agents) && calls == old(calls)
    {
      if serviceCache.None? {
        serviceCache := Some(map[]);
      }
    }

    method CacheDelete(id: string)
      modifies this
      ensures serviceCache == Deleted(old(serviceCache), id)
      ensures agents == old(agents) && calls == old(calls)
    {
      if serviceCache.Some? && id in serviceCache.value {
        serviceCache := Some(serviceCache.value - {id});
      }
    }

    method CacheMark(id: string)
      modifies this
      ensures serviceCache == Marked(old(serviceCache), id)
      ensures agents == old(agents) && calls == old(calls)
    {
      if serviceCache.Some? && id in serviceCache.value {
        serviceCache := Some(serviceCache.value[id := serviceCache.value[id].(isRegistered := true)]);
      }
    }

    /** CacheLoad: a client for `host`, the catalog's service names, then
        each name's rows; every row whose ID carries the prefix is stored,
        unmarked. The first error is returned; rows stored before it stay.
        While the package cache is still nil the first prefixed row cannot
        be stored: the load stops there (`completed` false). */
    method CacheLoad(host: string, listing: Result<seq<string>>, query: string -> Result<seq<CatalogService>>)
      returns (err: Option<string>, completed: bool)
      modifies this
      ensures calls == old(calls)
      ensures agents == if host == "" then old(agents) else Memo(old(agents), host)
      ensures listing.Err? ==> completed && err == Some(listing.error) && serviceCache == old(serviceCache)
      ensures listing.Ok? ==>
                var names := listing.value;
                var n := AnsweredPrefix(names, query);
                && serviceCache == (if old(serviceCache).Some?
                                    then Some(Seed(old(serviceCache).value, Rows(names[..n], query), LoadedEntry))
                                    else None)
                && (completed <==> old(serviceCache).Some? || SeededIds(Rows(names[..n], query)) == {})
                && (completed ==> (err.None? <==> AllAnswered(names, query)))
                && (completed && n < |names| ==> err == Some(query(names[n]).error))
    {
      var _ := GetClient(host);
      if listing.Err? {
        return Some(listing.error), true;
      }
      var names := listing.value;
      ghost var start := if serviceCache.Some? then serviceCache.value else map[];
      var i := 0;
      while i < |names|
        invariant 0 <= i <= |names|
        invariant AllAnswered(names[..i], query)
        invariant serviceCache.Some? <==> old(serviceCache).Some?
        invariant serviceCache.Some? ==> serviceCache == Some(Seed(start, Rows(names[..i], query), LoadedEntry))
        invariant serviceCache.None? ==> SeededIds(Rows(names[..i], query)) == {}
        invariant old(serviceCache).Some? ==> start == old(serviceCache).value
        invariant agents == if host == "" then old(agents) else Memo(old(agents), host)
        invariant calls == old(calls)
      {
        var answer := query(names[i]);
        if answer.Err? {
          AnsweredPrefixAt(names, i, query);
          return Some(answer.error), true;
        }
        RowsSnoc(names, i, query);
        SeededIdsAppend(Rows(names[..i], query), answer.value);
        if serviceCache.Some? {
          SeedAppend(start, Rows(names[..i], query), answer.value, LoadedEntry);
        }
        var stored := SeedRows(answer.value);
        if !stored {
          AnsweredPrefixAtLeast(names, i + 1, query);
          RowsSeededGrow(names, i + 1, AnsweredPrefix(names, query), query);
          return None, false;
        }
        i := i + 1;
      }
      AnsweredPrefixAt(names, i, query);
      return None, true;
    }

    /** The inner loop of CacheLoad. On a nil cache it stops at the first
        row it would store. */
    method SeedRows(rows: seq<CatalogService>) returns (completed: bool)
      modifies this
      ensures agents == old(agents) && calls == old(calls)
      ensures old(serviceCache).Some? ==>
                completed && serviceCache == Some(Seed(old(serviceCache).value, rows, LoadedEntry))
      ensures old(serviceCache).None? ==> serviceCache.None? && (completed <==> SeededIds(rows) == {})
    {
      var j := 0;
      while j < |rows|
        invariant 0 <= j <= |rows|
        invariant serviceCache.Some? <==> old(serviceCache).Some?
        invariant serviceCache.Some? ==> serviceCache == Some(Seed(old(serviceCache).value, rows[..j], LoadedEntry))
        invariant serviceCache.None? ==> SeededIds(rows[..j]) == {}
        invariant agents == old(agents) && calls == old(calls)
      {
        var s := rows[j];
        assert rows[..j + 1][..j] == rows[..j];
        if HasPrefix(s.serviceId, ServicePrefix) {
          if serviceCache.None? {
            assert s.serviceId in SeededIds(rows);
            return false;
          }
          serviceCache := Some(serviceCache.value[s.serviceId := LoadedEntry(s)]);
        }
        assert rows[..j + 1] == rows[..j] + [s];
        SeededIdsAppend(rows[..j], [s]);
        j := j + 1;
      }
      assert rows[..j] == rows;
      return true;
    }

    /** Register: a cached ID is only marked, with no agent call. Otherwise
        the registration goes to the service's agent (created on first use);
        only when the agent accepts it (`agentOk`) is it cached, marked.
        Storing it into a nil cache is where the call stops (`completed`
        false), after the agent call. */
    method Register(service: Service, agentOk: bool) returns (completed: bool)
      requires !Cached(serviceCache, service.id) ==> service.check.Some?
      modifies this
      ensures old(serviceCache).Some? ==> serviceCache.Some? && old(serviceCache).value.Keys <= serviceCache.value.Keys
      ensures Cached(old(serviceCache), service.id) ==>
                && completed
                && serviceCache == Marked(old(serviceCache), service.id)
                && agents == old(agents) && calls == old(calls)
      ensures !Cached(old(serviceCache), service.id) ==>
                && agents == Memo(old(agents), service.agent)
                && calls == old(calls) + [ServiceRegister(service.agent, RegistrationOf(service))]
                && (completed <==> !agentOk || old(serviceCache).Some?)
                && serviceCache == if agentOk && old(serviceCache).Some?
                                   then Some(old(serviceCache).value[service.id := CacheEntry(RegistrationOf(service), service.agent, true)])
                                   else old(serviceCache)
    {
      if Cached(serviceCache, service.id) {
        CacheMark(service.id);
        return true;
      }
      if service.agent !in agents {
        agents := agents[service.agent := NewAgent(service.agent)];
      }
      var s := RegistrationOf(service);
      calls := calls + [ServiceRegister(service.agent, s)];
      if !agentOk {
        return true;
      }
      if serviceCache.None? {
        return false;
      }
      serviceCache := Some(serviceCache.value[s.id := CacheEntry(s, service.agent, false)]);
      CacheMark(s.id);
      assert serviceCache.value == old(serviceCache).value[s.id := CacheEntry(s, service.agent, true)];
      return true;
    }

    /** Deregister: visit every cached entry once. A valid one (the oracle
        `isValid` stands for CacheIsValid) is handed to CacheProcessDeregister,
        whose effect on the entry is `process`; any other is deregistered
        with its agent and deleted only when that succeeds (`deregOk`).
        `order` is the order of the visit. */
    method Deregister(isValid: string -> bool, deregOk: string -> bool, process: Process) returns (ghost order: seq<string>)
      modifies this
      ensures serviceCache.Some? <==> old(serviceCache).Some?
      ensures old(serviceCache).None? ==> agents == old(agents) && calls == old(calls) && order == []
      ensures old(serviceCache).Some? ==>
                var start := old(serviceCache).value;
                && serviceCache == Some(SweepInvalid(start, isValid, deregOk, process))
                && Visited(start.Keys, {}, order)
                && agents == WithAgents(old(agents), InvalidAgents(start, isValid, order))
                && calls == old(calls) + DeregisterLog(start, isValid, order)
    {
      if serviceCache.None? {
        return [];
      }
      ghost var start := serviceCache.value;
      ghost var agents0 := agents;
      var cache := serviceCache.value;
      var ags := agents;
      ghost var log: seq<AgentCall> := [];
      var todo := cache.Keys;
      ghost var visited: seq<string> := [];
      DeregisterStart(start, isValid, deregOk, process, agents0);
      while todo != {}
        invariant DeregisterState(start, isValid, deregOk, process, agents0, todo, visited, cache, ags, log)
        modifies {}
        decreases |todo|
      {
        var id :| id in todo;
        if isValid(id) {
          DeregisterStepValid(start, isValid, deregOk, process, agents0, todo, visited, cache, ags, log, id);
          log := log + [ProcessDeregister(id)];
          match process(id, cache[id]) {
            case None => cache := cache - {id};
            case Some(e) => cache := cache[id := e];
          }
        } else {
          DeregisterStepInvalid(start, isValid, deregOk, process, agents0, todo, visited, cache, ags, log, id);
          var b := cache[id];
          if b.agent !in ags {
            ags := ags[b.agent := NewAgent(b.agent)];
          }
          log := log + [ServiceDeregister(b.agent, b.service.id)];
          if deregOk(id) {
            cache := cache - {id};
          }
        }
        visited := visited + [id];
        todo := todo - {id};
      }
      DeregisterDone(start, isValid, deregOk, process);
      order := visited;
      serviceCache := Some(cache);
      agents := ags;
      calls := calls + log;
    }
  }
}
