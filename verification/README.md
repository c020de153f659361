# mesos-consul, modelled in Dafny

mesos-consul keeps a Consul service registry in step with a Mesos cluster.

- It learns the current Mesos leader from ZooKeeper.
- It polls the leader's `state.json`.
- It registers one Consul service per port of every running task, plus one per follower and per master.
- It deregisters whatever it registered earlier that is no longer seen.

Bookkeeping happens in service caches: maps from service ID to the registration, its agent address and an `isRegistered` mark. Consul and the Mesos cache each keep one.

This project models that core.

- Code that updates state becomes classes whose fields are updated by methods with `modifies` clauses: the caches, the Consul agent map, the leader record, the ZooKeeper detector and the configuration records.
- Code that only computes becomes functions and lemmas: name cleaning, PID parsing, port-range expansion, check interpolation, leader election among ZooKeeper nodes, and the regex lists.
- Every call made to Consul or to the Mesos cache is recorded in a log field or a returned trace. Lemmas state how those logs relate to the inputs.

Modules follow the Go files:

| module | Go file |
|---|---|
| `MesosRegister` | mesos/register.go |
| `Consul` | consul/cache.go and consul/consul.go |
| `ZkDetect` | mesos/zkdetect/detect.go |
| `MesosRefresh` | mesos/mesos.go |
| `MesosState` | mesos/state.go |
| `MesosUtil` | mesos/util.go |
| `MesosZk` | mesos/zk.go |
| `MesosPrivilege` | mesos/privilege.go |
| `MesosRegexList` | mesos/regex_list.go |
| `MesosFollower` | mesos/follower.go |
| `ConsulConfig` | consul/config.go |
| `Config` | config/flags.go and config/config.go |

Helper modules:

- `Wrappers` holds Option and Result.
- `GoStrings` holds the parts of Go's `strings` and `strconv` that the core uses: `Index`, `Split`, `Join`, `TrimSpace`, `ToLower`, `Atoi` and `Itoa`.
- `MesosTypes` holds the shapes of the Mesos state document.
- `Catalog` holds the Consul catalog listing used to seed both caches.
- `Visiting` describes a walk over a map's keys in an unspecified order.

The Go files come from different revisions of the repository. Each is modelled on its own terms.

- The Mesos cache is keyed by service ID with an `isRegistered` mark in mesos/register.go.
- consul/cache.go and consul/consul.go keep a package-level cache with per-agent clients.
- mesos/follower.go and mesos/state.go both look a follower up by ID and are modelled separately.

## Model

| member | source | states |
|---|---|---|
| MesosRegister.SliceEq | mesos/register.go:107-119 | the tag comparison answers true exactly when the two lists are equal |
| MesosRegister.Sweep | mesos/register.go:173-184 | after deregister only marked entries survive, each unmarked and with its service unchanged |
| MesosRegister.DeregisterCalls | mesos/register.go:174-181 | one Consul deregistration per unmarked entry visited |
| MesosRegister.UnmarkedInCovers | mesos/register.go:174-181 | the entries deregistered are exactly the unmarked ones, each once |
| MesosRegister.MasterTags | mesos/register.go:82-86 | a master is always tagged `master`, and `leader` exactly when it is the leader |
| MesosRegister.FollowerRegistrations | mesos/register.go:59-75 | one registration per follower, in order |
| MesosRegister.MasterRegistrations | mesos/register.go:77-101 | one registration per master, in order |
| MesosRegister.ParsedPrefix | mesos/register.go:60-64 | how many followers are registered before a PID that does not parse stops the loop |
| MesosRegister.ParsedPrefixAt | mesos/register.go:60-64 | the stopping point is the first follower whose PID does not parse; all followers are done iff every PID parses |
| MesosRegister.RegisterHostsAppend | mesos/register.go:55-103 | registering two batches in turn equals registering them together, for the cache and for the calls |
| MesosRegister.RegisterHostsKeyed | mesos/register.go:121-149 | every cache entry stays keyed by its own service ID |
| MesosRegister.RegisterHostsMarks | mesos/register.go:121-149 | from an unmarked cache, a round adds exactly the registered IDs and marks exactly those |
| MesosRegister.RoundKeepsSeen | mesos/register.go:121-184 | a round followed by deregister keeps exactly the IDs registered in that round |
| MesosRegister.RegisterHostsMatch | mesos/register.go:121-149 | with consistent tags, every host is afterwards cached with matching tags and marked |
| MesosRegister.QuietWhenAllMatch | mesos/register.go:123-131 | hosts already cached with equal tags cause no Consul call and change no stored service |
| MesosRegister.SecondRoundQuiet | mesos/register.go:55-184 | a second polling round over the same hosts makes no register call |
| MesosRegister.RegisterHostsCallsAreRegs | mesos/register.go:121-149 | host registration makes at most one call per host, and only register calls for the given hosts |
| MesosRegister.RegisterAgreesUnlessRetagged | mesos/register.go:121-169 | register and registerHost leave the same cache iff the ID is new or its tags match: register never compares tags |
| MesosRegister.RegistrationIdsPrefixed | mesos/register.go:64-91 | follower and master service IDs start with `mesos-consul:` |
| MesosRegister.Mesos.RegisterHost | mesos/register.go:121-149 | a matching cached host is only marked; a new or retagged host is stored, marked and registered |
| MesosRegister.Mesos.Register | mesos/register.go:151-169 | a cache hit only marks and makes no call; a new ID is stored, marked and registered |
| MesosRegister.Mesos.Deregister | mesos/register.go:173-184 | the cache becomes its sweep, and each unmarked entry is deregistered exactly once, in the visiting order |
| MesosRegister.Mesos.RegisterHosts | mesos/register.go:55-103 | followers are registered until one PID does not parse, and the masters after them only if every PID parsed |
| MesosRegister.Mesos.RegisterFollowers | mesos/register.go:59-75 | the loop over followers equals registering the parsed prefix of the list |
| MesosRegister.Mesos.RegisterMasters | mesos/register.go:77-101 | the loop over masters equals registering every master registration in order |
| MesosRegister.Mesos.LoadCache | mesos/register.go:17-53 | a listing error changes nothing; otherwise services are seeded until the first failing query, whose error is returned |
| MesosRegister.Mesos.SeedRows | mesos/register.go:35-47 | only `mesos-consul:` rows are added, unmarked, and no call is made |
| Catalog.AnsweredPrefix | consul/cache.go:38-44 | the services queried before the first failing catalog query |
| Catalog.AnsweredPrefixAt | consul/cache.go:38-44 | the loop stops at the first failing query; it finishes iff every query succeeds |
| Catalog.RowsSnoc | consul/cache.go:44-56 | rows are gathered name by name, in listing order |
| Catalog.SeedKeys | consul/cache.go:44-56 | seeding adds exactly the IDs prefixed `mesos-consul:` |
| Catalog.SeedKeepsOthers | consul/cache.go:44-56 | an ID that no prefixed row carries is neither added nor changed |
| Catalog.SeedLastRow | consul/cache.go:45-56 | a prefixed row is stored as the last row with that ID describes it |
| Catalog.SeedAppend | consul/cache.go:44-56 | seeding two batches in turn equals seeding them together |
| Consul.NewAgent | consul/consul.go:49-57 | no client for an empty address; otherwise a client for that address |
| Consul.WithAgents | consul/consul.go:38-43 | the agent map after a run of lookups holds the old addresses plus the new ones |
| Consul.MemoIdempotent | consul/consul.go:38-43 | a second lookup of the same address changes nothing, and stored clients are kept |
| Consul.MemoWithAgents | consul/consul.go:38-43 | looking up one more address extends the set of memoized addresses |
| Consul.Created | consul/cache.go:22-26 | the cache exists afterwards; an existing cache is kept, a missing one starts empty |
| Consul.CreatedIdempotent | consul/cache.go:22-26 | creating twice equals creating once |
| Consul.CacheLookup | consul/cache.go:66-80 | nil for an absent ID; otherwise the stored ID, name, port, address and tags with no check |
| Consul.Deleted | consul/cache.go:84-88 | exactly that key is removed; every other entry is untouched |
| Consul.Marked | consul/cache.go:93-97 | only a present ID becomes marked; no entry is created and no service changes |
| Consul.LookupAfterDelete | consul/cache.go:66-88 | a lookup after deleting the ID finds nothing, and other IDs are unaffected |
| Consul.LookupAfterMark | consul/cache.go:66-97 | marking never changes what a lookup returns |
| Consul.RegistrationOf | consul/consul.go:140-155 | the agent registration carries tags exactly when the service has some |
| Consul.RegisterThenLookup | consul/consul.go:157-164 | after a successful register, a lookup returns the service without check and agent |
| Consul.SweepInvalid | consul/consul.go:170-184 | a valid entry becomes what CacheProcessDeregister leaves of it (or goes, if it deletes it); an invalid entry survives, unchanged, only when its deregistration fails; nothing is added |
| Consul.DeregisterLog | consul/consul.go:170-184 | one call per visited entry |
| Consul.DeregisterLogAt | consul/consul.go:172-181 | each valid entry is handed to CacheProcessDeregister; each invalid one to its agent's deregistration |
| Consul.Consul.New | consul/consul.go:23-28 | no agents, no cache, no calls |
| Consul.Consul.GetClient | consul/consul.go:32-44 | no client and no change for `""`; otherwise the agent is created once and the stored client returned |
| Consul.Consul.CacheCreate | consul/cache.go:22-26 | the cache becomes the created cache |
| Consul.Consul.CacheDelete | consul/cache.go:84-88 | the cache loses exactly that key |
| Consul.Consul.CacheMark | consul/cache.go:93-97 | the cache becomes its marked form |
| Consul.Consul.CacheLoad | consul/cache.go:30-62 | a listing error changes nothing; otherwise prefixed services are seeded until the first failing query, whose error is returned; on a nil cache the load stops at the first prefixed row and finishes iff no answered row has the prefix |
| Consul.Consul.SeedRows | consul/cache.go:44-56 | only `mesos-consul:` rows are added, unmarked; on a nil cache it stops at the first such row and finishes iff there is none |
| Consul.Consul.Register | consul/consul.go:126-165 | a cached ID is only marked, with no agent call; a new ID is registered with its agent and is stored and marked only when the agent accepts it; on a nil cache an accepted registration stops at the store |
| Consul.Consul.Deregister | consul/consul.go:170-193 | every entry is visited once; valid entries go through CacheProcessDeregister, invalid ones are deleted iff their deregistration succeeds; the calls are the deregistration log |
| ZkDetect.ParseZk | mesos/zkdetect/detect.go:73-83 | parse errors and any scheme other than `zk` are errors; on success there are hosts and the URL path |
| ZkDetect.ParseZkHosts | mesos/zkdetect/detect.go:79-82 | the hosts are the URL host split on `,`, in order |
| ZkDetect.NodeSeq | mesos/zkdetect/detect.go:223-231 | a sequence number exists only for `info_` names with a decimal uint64 suffix |
| ZkDetect.Top | mesos/zkdetect/detect.go:219-244 | the selected sequence number never exceeds MaxUint64 |
| ZkDetect.TopIndex | mesos/zkdetect/detect.go:222-236 | the position of the selected node, or -1 |
| ZkDetect.TopIsEarliestMinimum | mesos/zkdetect/detect.go:219-244 | `""` iff no node is eligible; otherwise the eligible node with the smallest sequence, the earliest on ties |
| ZkDetect.TopIsListed | mesos/zkdetect/detect.go:222-236 | a non-empty selection is a member of the list |
| ZkDetect.SelectTopNode | mesos/zkdetect/detect.go:219-244 | the loop returns the specified top node |
| ZkDetect.MixedShapeTop | mesos/zkdetect/detect.go:219-244 | among sequence numbers 46, 32 and 61 mixed with non-nodes, the node numbered 32 wins |
| ZkDetect.MixedEntriesExample | mesos/zkdetect/detect_test.go:422-434 | the test's mixed list selects `info_0000000032` |
| ZkDetect.GatherContents | mesos/zkdetect/detect.go:116-148 | the leader node's data becomes Leader, and every other eligible node's data goes into Masters, in list order |
| ZkDetect.GatherFails | mesos/zkdetect/detect.go:120-136 | the snapshot fails iff fetching some eligible node's data fails |
| ZkDetect.ClusterDetector.constructor | mesos/zkdetect/detect.go:65-67 | no leader node and no notification yet |
| ZkDetect.ClusterDetector.ChildrenChanged | mesos/zkdetect/detect.go:97-153 | a failed listing changes nothing; otherwise the leader node is the top node, and exactly one notification is sent, unless a fetch fails |
| ZkDetect.ClusterDetector.MasterLost | mesos/zkdetect/detect.go:193-198 | the leader node is cleared, and nil is notified once only if one was set |
| MesosRefresh.RangeTexts | mesos/mesos.go:139-144 | the port text has ranges iff it contains `[` |
| MesosRefresh.Span | mesos/mesos.go:150-152 | a range contributes `hi-lo+1` ports, or none when `lo > hi` |
| MesosRefresh.SpanAt | mesos/mesos.go:150-152 | the k-th port of a range is `lo+k` |
| MesosRefresh.RangeBounds | mesos/mesos.go:146-149 | one pair of bounds per range text |
| MesosRefresh.YankPorts | mesos/mesos.go:138-156 | the method computes the specified port list |
| MesosRefresh.YankRanges | mesos/mesos.go:146-155 | the loop over range texts appends each range's ports in range order |
| MesosRefresh.AppendRange | mesos/mesos.go:150-152 | the inner loop appends exactly the ports of one range |
| MesosRefresh.ExpandLength | mesos/mesos.go:150-152 | the result length is the sum of the range widths |
| MesosRefresh.ExpandAppend | mesos/mesos.go:146-155 | expansion distributes over concatenation, so order is kept |
| MesosRefresh.YankRenderPorts | mesos/mesos.go:138-156 | rendering ranges as `[a-b, c-d]` and yanking gives back their ports in order |
| MesosRefresh.LoadState | mesos/mesos.go:53-79 | as written: no leader IP is an error with no fetch; a redirect refetches once from the reported IP; a leader without `@` yields the empty state |
| MesosRefresh.LoadStateIntended | mesos/mesos.go:53-79 | fails iff there is no leader IP or the fetched leader field lacks `@` (then with "can't connect to Mesos"); otherwise it agrees with loadState as written, with the same fetches |
| MesosRefresh.LoadStateStable | mesos/mesos.go:71-76 | when the leader reports itself there is exactly one fetch |
| MesosRefresh.PortServices | mesos/mesos.go:115-127 | one service per port |
| MesosRefresh.PortServicesAt | mesos/mesos.go:115-127 | the k-th service is built from the k-th port |
| MesosRefresh.Registers | mesos/mesos.go:127 | one register call per service, in order |
| MesosRefresh.RegisterPorts | mesos/mesos.go:115-129 | the port loop registers each port's service in order |
| MesosRefresh.RegisterTasks | mesos/mesos.go:109-131 | the task loop registers the services of serving tasks; it finishes iff no port text fails to parse, and its calls are always those of the tasks before the first failing one |
| MesosRefresh.TasksBeforeStep | mesos/mesos.go:109-131 | a task with services adds them to the registrations so far; a failing task ends them there |
| MesosRefresh.FrameworksBeforeStep | mesos/mesos.go:108-132 | a framework whose tasks all succeed adds their services; a failing one adds those of its tasks before the failing task and ends the registrations there |
| MesosRefresh.ParseState | mesos/mesos.go:107-136 | the nested loops produce the specified calls; when they stop early there is no deregister, and the calls are the registrations of every task before the failing one, in its framework and the earlier ones |
| MesosRefresh.DeregisterLast | mesos/mesos.go:107-136 | deregister is called exactly once, after all register calls |
| MesosRefresh.ServiceIdParts | mesos/mesos.go:117-119 | a service ID splits into host, cleaned name and port, and the port reads back |
| MesosRefresh.RefreshLoaded | mesos/mesos.go:38-50 | a load error or an empty leader is reported without any call; otherwise the state is parsed and no error is returned |
| MesosRefresh.Refresh | mesos/mesos.go:37-51 | as written, over loadState as written: a load error or an empty leader is reported without any call, and a leader field without `@` is reported as "Empty master"; otherwise the state is parsed |
| MesosRefresh.RefreshIntended | mesos/mesos.go:37-51 | over the intended loadState: a leader field without `@` is reported as "can't connect to Mesos"; every other outcome is as written |
| MesosRefresh.RecoveredPanicLosesError | mesos/mesos.go:57-61 | as written, a leader field without `@` yields the empty state, whose leader is empty, instead of the intended error |
| MesosState.GetFollowerById | mesos/state.go:17-26 | the hostname of the first follower with that ID, else an error naming the ID |
| MesosState.InterpolateNoGroup | mesos/state.go:56-63 | a string with no brace group is returned unchanged |
| MesosState.InterpolateNoOpen | mesos/state.go:56-63 | a string with no `{` is returned unchanged |
| MesosState.InterpolateAppend | mesos/state.go:56-63 | interpolation works group by group, and substituted text is not rescanned |
| MesosState.InterpolateGroup | mesos/state.go:56-78 | a brace group is replaced as varReplace says |
| MesosState.NestedOpenKept | mesos/state.go:67-78 | a group that is neither `{port}` nor `{host}` is left as is |
| MesosState.InterpolateTemplate | mesos/state.go:56-78 | both groups of a two-group template are replaced and the text around them is kept |
| MesosState.InterpolateHealthUrl | mesos/state.go:56-78 | `http://{host}:{port}/health` becomes the host and port filled in |
| MesosState.GetCheck | mesos/state.go:33-52 | each field is its last matching label (case-insensitive), interpolated except the interval, or the default |
| MesosState.NoLabelKeepsDefault | mesos/state.go:34-51 | with no recognised key the default check is kept |
| MesosUtil.Filter | mesos/util.go:18-20 | a filter keeps only characters that pass, and only ones from its input |
| MesosUtil.CleanName | mesos/util.go:11-21 | the output has only lowercase letters, digits, `-` and `.` |
| MesosUtil.CleanNameIsOnePass | mesos/util.go:11-21 | cleaning deletes `_` and every character outside `[A-Za-z0-9_.-]`, keeps order, and lowercases |
| MesosUtil.CleanOnePassFixes | mesos/util.go:18-20 | an already clean name is left unchanged |
| MesosUtil.CleanNameIdempotent | mesos/util.go:18-20 | cleaning twice equals cleaning once |
| MesosUtil.ParsePID | mesos/util.go:25-30 | the host after `@` in the part before the first `:`, and the port after it |
| MesosUtil.ParsePIDRoundTrip | mesos/util.go:25-30 | `type@host:port` parses back to `(host, port)` |
| MesosUtil.LeaderIP | mesos/util.go:32-37 | defined iff the leader has `@`, and free of `:` |
| MesosUtil.LeaderIPRoundTrip | mesos/util.go:32-37 | `name@host:port` gives back `host` |
| MesosUtil.LeaderIPExample | mesos/util_test.go:8-10 | the test's leader gives `124.123.123.121` |
| MesosUtil.ToIP | mesos/util.go:39-46 | the resolved address, or the host itself when lookup fails |
| MesosUtil.ToPortOfDecimal | mesos/util.go:48-55 | a decimal port string reads back as its value |
| MesosZk.Octets | mesos/zk.go:57-58 | four bytes, each below 256 |
| MesosZk.PackedOctets | mesos/zk.go:57-58 | the bytes are big-endian: they pack back into the IP |
| MesosZk.QuadParts | mesos/zk.go:59-60 | a dotted quad has four parts |
| MesosZk.ParseQuadDottedQuad | mesos/zk.go:56-60 | the dotted quad reads back as the IP, most significant byte first |
| MesosZk.LeaderHost | mesos/zk.go:47-61 | nil gives `""`, an empty hostname the dotted quad, and otherwise the resolved address or the hostname |
| MesosZk.LeaderHostEmpty | mesos/zk.go:47-62 | the host is empty only for nil info or a hostname resolving to `""` |
| MesosZk.LeaderRecord.constructor | mesos/zk.go:42-43 | no host, no port, not started |
| MesosZk.LeaderRecord.OnMasterChanged | mesos/zk.go:44-66 | the host follows the info; the port changes only with a non-empty host; `started` closes only once |
| MesosZk.LeaderRecord.GetLeader | mesos/zk.go:72-76 | the current host and port |
| MesosZk.Callbacks | mesos/zk.go:42-65 | over many callbacks `started` closes exactly once and the last info decides the host |
| MesosPrivilege.Privilege.constructor | mesos/privilege.go:12-17 | each list is kept and compiled in its own regex list |
| MesosPrivilege.Privilege.Allowed | mesos/privilege.go:19-31 | allowed iff (no whitelist regex or it matches) and (no blacklist regex or it does not match) |
| MesosPrivilege.EmptyListsAllowAll | mesos/privilege.go:12-31 | with both lists empty every name is allowed |
| MesosRegexList.CompilePattern | mesos/regex_list.go:31 | a regex exactly when the pattern compiles, carrying that pattern |
| MesosRegexList.CompileForgetsOnError | mesos/regex_list.go:32-38 | as written, a bad pattern replaces a set regex with nil, while the intended reading keeps it |
| MesosRegexList.KeepLastChanges | mesos/regex_list.go:33-34 | kept-last compilation changes the regex only into the compiled alternation |
| MesosRegexList.CompileReadingsAgree | mesos/regex_list.go:15-40 | both readings agree from an empty start, for an empty list, or for a good pattern |
| MesosRegexList.AlternationKeepsElements | mesos/regex_list.go:29-31 | the alternation is the `\|`-join of the list and splits back into it |
| MesosRegexList.RegexList.constructor | mesos/regex_list.go:15-23 | the list is kept; an empty list leaves no regex |
| MesosRegexList.RegexList.Compile | mesos/regex_list.go:25-40 | an empty list leaves the regex; a non-empty one overwrites it with the compile result, nil on error |
| MesosRegexList.RegexList.CompileKeepLast | mesos/regex_list.go:25-40 | compilation that keeps the last regex when the pattern does not compile |
| MesosRegexList.RegexList.MatchString | mesos/regex_list.go:42-49 | the default without a regex, otherwise the regex's verdict |
| MesosFollower.HostById | mesos/follower.go:8-16 | the hostname of the first follower with that ID; an error iff none has it |
| MesosFollower.HostByIdIsListed | mesos/follower.go:11 | a found hostname belongs to a listed follower |
| ConsulConfig.AuthVar.constructor | consul/config.go:68-72 | disabled, no username, no password |
| ConsulConfig.AuthVar.Set | consul/config.go:78-90 | always enables; splits at the first colon, or else sets the name and keeps the password |
| ConsulConfig.AuthVar.String | consul/config.go:92-98 | the username alone iff there is no password, else `user:password` |
| ConsulConfig.TrailingColonPrintsName | consul/config.go:78-98 | `user:` prints back as `user`, the one input that does not round-trip |
| Config.SetAuth | config/flags.go:12-24 | with a colon, name before it and password after it (colons kept); otherwise the value and the old password |
| Config.AuthText | config/flags.go:26-32 | the username alone iff the password is empty, else `user:password` |
| Config.SetThenString | config/flags.go:12-32 | on a fresh value, printing after setting gives the text back unless its first colon ends it |
| Config.TrailingColonDropped | config/flags.go:12-32 | `user:` gives an empty password and prints as `user` |
| Config.PasswordSurvives | config/flags.go:19-32 | without a colon the old password is kept and printed |
| Config.Auth.constructor | config/config.go:7-11 | the given enabled flag and no credentials |
| Config.Auth.Set | config/flags.go:12-24 | always enables; the credentials are those of the split |
| Config.Auth.String | config/flags.go:26-32 | the username alone iff there is no password |
| Config.SSL.constructor | config/config.go:13-18 | the given flags and no certificate files |
| Config.Configuration.constructor | config/config.go:20-27 | a one-minute refresh and empty strings |
| Config.DefaultConfig | config/config.go:29-43 | one-minute refresh, empty registry, token and ZooKeeper address, auth off, SSL off but verifying, fresh records |
| Config.SetThenPrint | config/flags.go:12-32 | a fresh record set with a value prints that value back, with the same exception |
| Config.DefaultConfigsApart | config/config.go:30-42 | two calls share no Auth or SSL record |

## Left out

- newAgent (consul/consul.go:49-124): TLS configuration, certificate files and HTTP client construction are foreign I/O. An agent is modelled only by its address.
- MesosRegister.Mesos.RegisterHosts: a follower PID without `@` before its first `:` makes parsePID index out of range, and the panic ends the process. The model stops there, returns `completed == false` and keeps the calls made so far.
- Nil-client dereferences: a nil client in consul/consul.go would panic. The model keeps an absent client as `None` and records the call anyway.
- Consul.Consul.Register requires a check on a new service. The source dereferences the check without testing it, so a nil check would panic.
- Consul.Consul.Register, Consul.Consul.CacheLoad, Consul.Consul.SeedRows: storing into the package cache while it is still nil panics and ends the process. The model stops there with `completed == false` and the cache still nil; what happened before the store (the agent call, the catalog queries) is kept.
- Consul.Consul.Register: newCacheEntry is not part of this model. The entry it builds is taken to hold the registration and the agent address, unmarked, as the Mesos-side cache entries do.
- CacheIsValid and CacheProcessDeregister are not part of this model. Validity is a predicate parameter. The hand-over to CacheProcessDeregister is a logged call, and its effect on the entry it is given is the `process` parameter (the entry it leaves, or none).
- Consul.Consul.Deregister: any agent calls CacheProcessDeregister makes, and any effect it has on entries other than the one it is given, are not modelled.
- getMasters and registry.DefaultCheck are not part of this model. The masters and the default check are parameters.
- loadFromMaster (HTTP GET and JSON decoding) is the `fetch` parameter. Its `log.Fatal` on a failed request is not modelled.
- MesosRefresh.LoadState: the panic raised by leaderIP on a leader field without `@` is recovered inside loadState. The model returns what the recovered call returns, and Refresh follows it; RefreshIntended uses the corrected LoadStateIntended (see Findings).
- loadFromMaster: when http.NewRequest fails, `req` is nil and `req.Header.Set` panics; loadState recovers that into the empty state with no error. `fetch` is total, so this path is not modelled.
- MesosRefresh.ParseState: a port text without `[`, or a range without `-`, makes yankPorts index out of range. The panic is not recovered and ends the process. The model stops there with `completed == false` and the register calls made so far (those of every earlier task, in the failing framework and the ones before it), and issues no deregister.
- MesosRefresh.YankPorts: a range whose upper end is MaxInt64 makes the Go loop never end. The model gives up on the whole port text (`None`, see `Endless`), so ParseState stops there with `completed == false`, as for a port text that panics.
- GoStrings.Atoi: out-of-range numbers are clamped to the int64 limits, as strconv.Atoi does. Its error is otherwise dropped, as the source drops it.
- ZkDetect.Top: a node numbered MaxUint64 equals the initial `leaderSeq` and so is never selected. The model keeps that edge (`Selectable`).
- Go map iteration order is unspecified. The deregistration loops visit keys in an order returned as a ghost out-parameter, and every lemma holds for any order.
- The package-level `serviceCache` of consul/cache.go becomes a field of the `Consul` object (next to `agents`, which is a field in the source too), so two `Consul` values do not share one cache as they would in Go.
- MesosRegister.Mesos.constructor: the Mesos struct of mesos/mesos.go has no ServiceCache, and where the register.go revision creates its cache is not part of this model. The constructor's empty cache and empty call log are the model's initial state, not a claim about mesos.go:25-26.
- The Consul catalog queries in LoadCache and CacheLoad are parameters. Only the prefix filter over their answers is modelled.
- The detect goroutine loop, its connection handling, rate limiting, Done/Cancel and Detect's compare-and-swap are concurrency and timers. Only the "master lost" rule is kept.
- The mutexes and the `started` channel in mesos/zk.go are modelled as a closing counter.
- The regular-expression engine is a parameter: whether a pattern compiles, and whether it matches.
- `net.LookupIP` and `url.Parse` are parameters. A successful lookup is the first address as a string.
- zkDetector and leaderDetect setup in mesos/zk.go: the connection and its 2-minute timeout are left out.
- Logging is left out.
- main.go, registry/registry.go, flag parsing, help texts and `IsEnabled` are process plumbing and are not part of this model.
- buildTaskTag and buildRegisterTaskTags are not part of this model: their implementation is not among the source files.

## Findings

| source | as written | input that shows it | evidently intended | confidence | as-written member | corrected member |
|---|---|---|---|---|---|---|
| mesos/regex_list.go:32-38 | a compile error stores nil in `Regex`, replacing any earlier regex | Compile with a non-empty list whose `\|`-join does not compile, after a regex was set | keep the last regex, as the comment on lines 33-34 says | not executed | MesosRegexList.CompileForgetsOnError | MesosRegexList.KeepLastChanges |
| mesos/mesos.go:57-61 | the deferred recover assigns a local `err` that is never returned (the results are unnamed), so a recovered panic returns an empty state and a nil error | a fetched state whose leader field has no `@`, so leaderIP panics at line 73 | loadState returns the error "can't connect to Mesos" | not executed | MesosRefresh.RecoveredPanicLosesError | MesosRefresh.LoadStateIntended, MesosRefresh.RefreshIntended |
