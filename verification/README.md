# Verified model of stateful parts of vmware-nsx

This project models, in Dafny, the parts of the VMware NSX plugins for Neutron
that hold state with real invariants, and proves what those parts are for.
Run `dafny verify dfyconfig.toml` to check every file.

| File | What it models |
|---|---|
| `ApiClientPool.dfy` | the NSX API client's state: providers, their semaphore and cookie, the priority queue of connections, the connections checked out; each operation as one atomic step, and the invariant |
| `ApiClientSystem.dfy` | green threads sharing one client: every interleaving of checkouts, logins, waits, redirects, cookie resets and releases |
| `EventletApiClient.dfy` | the client as a class: constructor, acquire, the three kinds of release, redirect checkout, cookies; each method is proved to be one step of the pool model |
| `ApiRequest.dfy` | the redirect loop with its `finally` release and the retry loop, with other threads running at every blocking point |
| `EdgeVnics.dfy` | the table of edge vnic bindings: layout, two allocators, release |
| `MetadataNetworks.dfy` | the metadata access network of a router, with the re-entrant interface calls and failures at every call |
| `ExternalDns.dfy` | port DNS rows and the external service that must agree with them |
| `LsnStore.dfy` | the backend's logical service nodes and the local store, with failures and lost replies |
| `ReplayTraces.dfy` | traces of calls that may be refused, shared by two of the migrations below, with counts of events |
| `OctaviaReplay.dfy` | migration of a load balancer with rollback by cascade delete |
| `SecurityGroupReplay.dfy` | migration of security groups and the deferred bulk creation of their rules |
| `NetworkReplay.dfy` | migration of networks, subnets and ports with deferred DHCP |
| `PrepareObjects.dfy` | preparation of networks, subnets, routers and ports for the destination |
| `PluginFilter.dfy` | in-place filtering of listed objects by the requester's plugin |
| `Filters.dfy` | what it means for a list to be another one without some of its elements |
| `Options.dfy` | the optional value used by all of them |

Outside systems are modelled by what they can answer. The NSX servers are an
oracle that gives a reply for every pass of the request loop and an end for
every login; the Neutron calls and the NSX backend are tables whose calls
succeed or raise as an arbitrary list of outcomes says; the destination of a
migration and the Octavia driver answer the n-th call of a run as an arbitrary
function of n says, and every event of a trace carries that very answer.
Results are stated for every such list or function.

The pool's queue is a map from connections to priorities, and equal priorities
are broken arbitrarily. A `Yield` in `ApiRequest.dfy` stands for any number of
steps of other threads; what a thread may rely on meanwhile is
`ApiClientSystem.OthersKeepMine`. `MAX_VNIC_NUM` and `MAX_TUNNEL_NUM` are the
symbols `V` and `T`.

Where the code does not do what it seems meant to do, the model follows the
code and a theorem gives the exact condition:

* a redirect checkout that takes a connection from the queue tests the cookie of
  the one it puts back last, and so may return one without logging in
  (`ApiClientSystem.RedirectSkipsLogin`, with runs in
  `ApiClientSystem.LoginIsSkipped` and `ApiClientSystem.LoginIsSkippedForLast`);
* if the login of a checkout is cut short, its connection stays leased; and if
  that was a redirect's, the connection given back before is given back again,
  which leaves its provider with one connection too many
  (`ApiClientPool.SecondReleaseOverfills`) unless the redirect had checked out
  that very connection: then this is its release, and nothing stays leased
  (`ApiRequests.ApiRequest.IssueRequest`, `ApiRequests.RetakesIff`);
* a request that was given a connection never returns the connections it
  obtains by redirects (`ApiRequests.ApiRequest.IssueRequest`);
* with `T = 1` the remainder test of the vnic allocator never holds
  (`EdgeVnics.AllocateSucceedsIff`);
* a single failure can leave a metadata network without interface: that of the
  scheduling call, or one that is not of the three handled classes
  (`MetadataNetworks.OrphanIff`, `MetadataNetworks.ScheduleFailure`);
* a port update can leave external DNS records wrong
  (`ExternalDns.UpdateAgreesIff`, with a run in `ExternalDns.StaleRecordStays`).

## Model

| member | source | states |
|---|---|---|
| ApiClientSystem.ConnectionsConserved | vmware_nsx/api_client/base.py:90-174 | in every interleaving of all threads' steps, each known provider has exactly the number of releasable connections it was given, over queue and holders, and the queue holds no `no_release` and no checked-out connection |
| ApiClientSystem.LoginsExclusive | vmware_nsx/api_client/base.py:176-195 | in every run at most one login per provider is in flight, the provider keeps its semaphore object, and once nobody is logging in or just woken the semaphore is free and every waiter can proceed, also after logins that raised |
| ApiClientSystem.NextKeepsInv | vmware_nsx/api_client/base.py:90-195 | every atomic step of every thread, also a login that raises or is answered 401, or a waiter that is killed, keeps conservation, distinct priorities, lease accounting and mutual exclusion of logins |
| ApiClientSystem.RunInv | vmware_nsx/api_client/base.py:90-195 | all of these hold in every state of every run from a fresh client |
| ApiClientSystem.RunExtends | vmware_nsx/api_client/base.py:85-88 | over any stretch of a run no provider, semaphore object or quota is lost or replaced |
| ApiClientSystem.RedirectSkipsLogin | vmware_nsx/api_client/eventlet_client.py:95-134 | a redirect checkout leaves its caller without login and cookie exactly when a connection was picked from a queue that holds others, the target has no cookie, and the last of those others, which the refill loop leaves in the variable it asks about, belongs to a provider with one; and it logs in to a provider with a cookie exactly in the opposite case |
| ApiClientSystem.LoginIsSkipped | vmware_nsx/api_client/eventlet_client.py:95-134 | a run of seven steps from a fresh client with two providers after which a thread uses a connection to a provider without cookie that nobody logged in to |
| ApiClientSystem.LoginIsSkippedForLast | vmware_nsx/api_client/eventlet_client.py:95-134 | a run of five steps in which the same happens although the connection picked came off the queue last |
| ApiClientSystem.OthersKeepMine | vmware_nsx/api_client/base.py:90-195 | a step of one thread never touches another thread's leases and never forgets a provider |
| ApiClientSystem.CookieChanges | vmware_nsx/api_client/base.py:176-195 | in a step of a thread the cookie of a provider changes only if that thread's login to it ends, to what that login returned, or if a request of that thread is answered 401, to none |
| ApiClientSystem.AcquireLogsIn | vmware_nsx/api_client/base.py:90-123 | a checkout goes on to a login, on the semaphore of the connection's provider, exactly if asked to and if the provider has no cookie; the login then runs if the semaphore is free and waits if not |
| ApiClientPool.UnavailableGoesLast | vmware_nsx/api_client/base.py:154-170 | a release after a 503 moves all queued connections of that provider behind all others, the released one last, keeps the order within both groups and loses none |
| ApiClientPool.SentBackOrder | vmware_nsx/api_client/base.py:154-170 | the new priorities given by the drain-and-refill loop are distinct, above all old ones and in the old order |
| ApiClientPool.CheckoutKeepsInv | vmware_nsx/api_client/base.py:90-123 | a checkout, also one that replaces an idle connection, exchanges connections one for one and keeps the invariant |
| ApiClientPool.ReleaseKeepsInv | vmware_nsx/api_client/base.py:125-174 | so does every kind of release: plain, bad state, service unavailable, unknown provider, `no_release` |
| ApiClientPool.RedirectKeepsInv | vmware_nsx/api_client/eventlet_client.py:75-135 | so does a redirect checkout, which adds exactly the configured number of connections for a new target |
| ApiClientPool.CookieKeepsInv | vmware_nsx/api_client/base.py:85-88 | so does replacing a cookie |
| ApiClientPool.CheckoutMeans | vmware_nsx/api_client/base.py:90-123 | a checkout takes one entry off the queue and leases it, or a new connection to the same server in its place, with the priority it had, and changes nothing else |
| ApiClientPool.ReleaseMeans | vmware_nsx/api_client/base.py:125-174 | a release ends exactly that lease; the connection comes back with the priority of its lease, as itself or, if bad, as a new one to the same server, and not at all if it is `no_release` or its provider unknown |
| ApiClientPool.RedirectMeans | vmware_nsx/api_client/eventlet_client.py:75-135 | a redirect checkout hands out a connection to the target: the one picked with its priority, else a `no_release` one, else one of a new provider, which has no cookie, a semaphore of its own and its other connections queued at priority 0 |
| ApiClientPool.SecondReleaseOverfills | vmware_nsx/api_client/request.py:201-212 | giving back a connection that was given back already and that its user does not have any more queues one entry too many for its provider and for no other, and unless it is replaced as bad the same connection is then queued twice or queued while somebody else uses it |
| EventletApiClients.EventletApiClient.constructor | vmware_nsx/api_client/eventlet_client.py:34-73 | each listed provider starts with `n` queued connections for each time it is listed, with distinct ascending priorities from 1 and the next priority above all |
| EventletApiClients.EventletApiClient.AcquireConnection | vmware_nsx/api_client/base.py:90-123 | hands out a connection whose priority no queued one undercuts, or a fresh one to the same server in its place if it was idle too long, leased with that priority, and nothing if there are no providers |
| EventletApiClients.EventletApiClient.ReleaseConnection | vmware_nsx/api_client/base.py:125-174 | the drain, renumber and refill loops amount to the atomic release of the model, for every combination of flags |
| EventletApiClients.EventletApiClient.AcquireRedirectConnection | vmware_nsx/api_client/eventlet_client.py:75-135 | picks a queued connection of the target that none of the target undercuts in priority, else makes a `no_release` one, else sets up the new provider; and reports which connection the cookie test looks at: the last one the refill loop put back, or the result if it put none back |
| EventletApiClients.EventletApiClient.Drain | vmware_nsx/api_client/base.py:156-167 | empties the queue in priority order and renumbers the provider's connections |
| EventletApiClients.EventletApiClient.AddProvider | vmware_nsx/api_client/eventlet_client.py:118-130 | queues all but one of the configured number of connections at priority 0, with a fresh semaphore and no cookie |
| EventletApiClients.EventletApiClient.SetAuthCookie | vmware_nsx/api_client/base.py:85-88 | the provider has this cookie and its old semaphore object, no other provider changes, and an unknown one is not added |
| ApiRequests.ApiRequest.IssueRequest | vmware_nsx/api_client/request.py:77-212 | outcome, passes and messages are those of the redirect loop, or none if the checkout's login is cut short; a request that acquires its own connection ends with exactly the leases it began with iff no checkout's login was cut short, or the one cut short was that of a redirect that checked out the connection just given back; else with one more, the one that redirect took, and the connection given back before is given back a second time; one given a connection ends with all leases it began with and one more per other server visited; the last connection is released with the flags for a bad one exactly on an exception and for an unavailable server exactly on a socket error or a 503; after a 401 the server that answered has no cookie; no connections and waiting are answered only in such states of the client |
| ApiRequests.ApiRequest.Redirecting | vmware_nsx/api_client/request.py:97-199 | the loop's outcome, passes, moves and number of HTTP messages are those of `Follow`, also when a redirect's login is cut short; the flags for the release are set exactly on an exception, or on a socket error or a 503; and after a 401 the server that answered has no cookie |
| ApiRequests.ApiRequest.Pass | vmware_nsx/api_client/request.py:98-173 | one pass resets the cookie of the connection's provider exactly if the answer is a 401, and changes no other cookie or semaphore; it flags an exception as a bad connection and a socket error or a 503 as an unavailable server |
| ApiRequests.VerdictMeans | vmware_nsx/api_client/request.py:98-173 | only a 301 or 307 with redirects left is followed, and without a usable location answered with 500; any other answer is returned as it is, a socket error counts as no answer and any other failure as an exception |
| ApiRequests.TargetOfMeans | vmware_nsx/api_client/request.py:229-269 | an absolute path stays on the server; http and https locations with a host lead to that host and port, with TLS exactly for https; nothing else leads anywhere |
| ApiRequests.FollowEnds | vmware_nsx/api_client/request.py:97-199 | every pass but the last is a 301 or 307 to a usable location, all but a failed connection and an interruption before sending send one message, and the last pass, or the login that was cut short, decides the outcome |
| ApiRequests.ApiRequest.MoveTo | vmware_nsx/api_client/request.py:254-269 | a redirect to another server gives back the connection and checks out the one picked in the state that leaves, or only adds one if the connection was supplied; if its login is cut short the new lease stands but the caller does not learn of it |
| ApiRequests.RetakesIff | vmware_nsx/api_client/request.py:254-263 | a redirect checks out the connection it gave back only if that is a releasable one to the target and no queued one of the target comes before it, and, unless it has the shared priority 0, exactly then |
| ApiRequests.FollowBounds | vmware_nsx/api_client/request.py:97-199 | at most `left + 1` passes, one message in each but perhaps the last, fewer moves than passes unless a login was cut short, and a redirect status is returned exactly when the limit is spent on usable redirects |
| ApiRequests.ApiRequest.HandleRequest | vmware_nsx/api_client/eventlet_request.py:117-160 | the attempts are consecutive and each is what the world makes of it (`IsLog`); each but the last got no answer, an exception or a 401, 403 or 503, and the last did not, or is attempt `retries + 1`, or a timeout strikes, or it made a second release, after which a request is not followed further (`Ends`); the caller gets the last attempt's status, a 401, 403 or 503 only from attempt `retries + 1` (`Reported`); messages are the sum over the attempts, at most `(retries + 1) * (redirects + 1)`; leases are as before unless the last attempt kept one; with and without a connection supplied |
| ApiRequests.EndsMean | vmware_nsx/api_client/eventlet_request.py:127-160 | what `Ends` and `Reported` amount to: the statuses retried are 401, 403 and 503 and no others, and a response comes back exactly if the last attempt has one that is not retried or no attempt is left |
| ApiRequests.LogIsDetermined | vmware_nsx/api_client/eventlet_request.py:127-160 | while connections are at hand and none is released twice, `IsLog` and `Ends` admit one sequence of attempts only, and so one response |
| EdgeVnics.AllocateSucceedsIff | vmware_nsx/db/nsxv_db.py:211-233 | with all networks placed by this allocator, it succeeds iff fewer than `V - 1` are live, takes a vnic nobody uses and overwrites no binding; with `T = 1` it always fails |
| EdgeVnics.VnicsStayDistinct | vmware_nsx/db/nsxv_db.py:211-233 | in every run of allocations for unbound networks and releases, live networks sit on pairwise different vnics |
| EdgeVnics.TunnelSucceedsIff | vmware_nsx/db/nsxv_db.py:236-269 | with the metadata network bound, another network gets a slot, never on the metadata vnic, iff fewer than `(V - 2) * T` others are live, whichever row comes first |
| EdgeVnics.MetadataVnicStaysAlone | vmware_nsx/db/nsxv_db.py:236-269 | in every run that binds the metadata network first and then serves and frees others, none of them is ever on its vnic |
| EdgeVnics.OneLeader | vmware_nsx/db/nsxv_db.py:226-226 | among the tunnel indexes of one vnic exactly the first has remainder 1 modulo `T` |
| EdgeVnics.SlotCount | vmware_nsx/db/nsxv_db.py:188-200 | the layout has `T` slots for each of its vnics, here without one vnic to be skipped |
| EdgeVnics.OtherSlots | vmware_nsx/db/nsxv_db.py:188-200 | outside the metadata network's vnic there are `(V - 2) * T` slots, of which exactly as many are taken as there are other live networks |
| EdgeVnics.LeaderCount | vmware_nsx/db/nsxv_db.py:188-200 | there are `V - 1` slots the remainder test can choose |
| EdgeVnics.EdgeVnicBindings.InitEdgeVnicBinding | vmware_nsx/db/nsxv_db.py:188-200 | the nested loops add exactly the free rows with vnic 1 to `V - 1` and, for vnic `v`, tunnels `(v - 1) * T + 1` to `v * T`, unless one of them is there already, and then nothing; with no other rows the edge is laid out |
| EdgeVnics.EdgeVnicBindings.AllocateEdgeVnic | vmware_nsx/db/nsxv_db.py:211-233 | whatever the rows, the loop binds a free row with remainder 1 modulo the number of rows of vnic 1, fails only if there is none, and divides by zero exactly if vnic 1 has no rows but another has a free one; on a laid-out edge that number is `T` |
| EdgeVnics.EdgeVnicBindings.AllocateEdgeVnicWithTunnelIndex | vmware_nsx/db/nsxv_db.py:236-269 | binds some free row of the edge, outside the vnic of a row of the metadata network if there is one, and changes no other; it fails only if there is no such row |
| EdgeVnics.EdgeVnicBindings.FreeEdgeVnicByNetwork | vmware_nsx/db/nsxv_db.py:300-308 | frees the one row of the network on the edge; no row and several rows are different errors, each raised exactly then, that change nothing |
| EdgeVnics.FirstVnicCount | vmware_nsx/db/nsxv_db.py:214-219 | on a laid-out edge vnic 1 has `T` rows |
| MetadataNetworks.Plugin.Run | vmware_nsx/dhcp_meta/rpc.py:92-242 | after every sequence of tenants' requests in which nothing raises, each router has at most one metadata interface, has one exactly if it is meant to, and no metadata network lacks its interface |
| MetadataNetworks.Plugin.Serve | vmware_nsx/plugins/nsx_v3/plugin.py:2515-2640 | a request changes what tenants own exactly as it would without metadata networks |
| MetadataNetworks.Plugin.HandleRouterMetadataAccess | vmware_nsx/dhcp_meta/rpc.py:92-143 | whatever raises, only metadata interfaces of this router change, there is at most one, and no handled exception escapes; if nothing raises the router has one afterwards exactly as the answer says; if one call raises, its exception comes out exactly if it is not a handled one; a re-entrant call changes nothing and makes no call |
| MetadataNetworks.Plugin.CreateMetadataAccessNetwork | vmware_nsx/dhcp_meta/rpc.py:176-216 | if nothing raises the router has its network; if one call raises, what is left is exactly what `CreateEnd` says: nothing, the network without interface, or all of it with the agent not notified; tenants' objects are as before in any case |
| MetadataNetworks.Plugin.AttachMetadataNetwork | vmware_nsx/dhcp_meta/rpc.py:188-208 | subnet, interface and notification: with one failure the exception that comes out, and an interface exactly if the failure is that of the notification |
| MetadataNetworks.OrphanIff | vmware_nsx/dhcp_meta/rpc.py:187-216 | of the single failures, exactly that of the scheduling and the unhandled ones of the four calls after it leave a network without interface; exactly that of the notification leaves all in place without the agent's knowledge |
| MetadataNetworks.LeftBehind | vmware_nsx/dhcp_meta/rpc.py:187-216 | concrete failures for both cases |
| MetadataNetworks.ScheduleFailure | vmware_nsx/dhcp_meta/rpc.py:187-187 | a run on a fresh plugin in which only the scheduling raises, and a network without interface is left |
| MetadataNetworks.Plugin.DestroyMetadataAccessNetwork | vmware_nsx/dhcp_meta/rpc.py:219-242 | removes interface and network together if nothing raises; if one call raises, what is left is exactly what `DestroyEnd` says: both kept, both gone, the interface added again, or the network without it; without a metadata interface it changes nothing |
| MetadataNetworks.Plugin.AddRouterInterface | vmware_nsx/plugins/nsx_v3/plugin.py:2515-2640 | adds the interface and reacts to it, or takes it back after an error, unless that fails too |
| MetadataNetworks.Plugin.RemoveRouterInterface | vmware_nsx/plugins/nsx_v3/plugin.py:2642-2752 | removes the interface and reacts to it, or does nothing |
| MetadataNetworks.Plugin.UpdateSubnet | vmware_nsx/plugins/nsx_v3/plugin.py:1175-1190 | after DHCP of a subnet is switched, every router is in agreement again, including several interfaces per router |
| MetadataNetworks.Plugin.FindMetadataPort | vmware_nsx/dhcp_meta/rpc.py:146-150 | finds a port with the metadata address, or none exactly if no port has it |
| MetadataNetworks.Plugin.FindDhcpDisabledSubnetByPort | vmware_nsx/dhcp_meta/rpc.py:153-165 | finds a subnet whose DHCP is off exactly if some port has an address on one |
| MetadataNetworks.AttachAgrees | vmware_nsx/dhcp_meta/rpc.py:110-122 | the handler's answer to an added interface restores agreement of every router |
| MetadataNetworks.DetachAgrees | vmware_nsx/dhcp_meta/rpc.py:123-137 | the handler's answer to a removed interface restores agreement of every router |
| MetadataNetworks.SwitchAgrees | vmware_nsx/plugins/nsx_v3/plugin.py:1178-1190 | the handler's answer completes an agreement half broken by switching DHCP |
| MetadataNetworks.LastPort | vmware_nsx/dhcp_meta/rpc.py:131-131 | testing for a single port is testing that no tenant's interface is left |
| MetadataNetworks.OnlyTenantsCount | vmware_nsx/dhcp_meta/rpc.py:153-173 | metadata subnets never count as subnets without DHCP |
| ExternalDns.UpdateAgreesIff | vmware_nsx/extension_drivers/dns_integration.py:145-203 | given agreement, an update leaves the published records equal to each row's name and domain for each address iff it is safe: a new name differs from the one shown, or domain or addresses change, or there are none; and without a new name an address goes away only if the pair sent last is the one removed |
| ExternalDns.OrdinaryRunAgrees | vmware_nsx/extension_drivers/dns_integration.py:93-203 | in every run with served, non-default domains and addresses changed through `fixed_ips`, records and rows agree after each event, however stale the previous pairs are and also when domains change |
| ExternalDns.SafeRunAgrees | vmware_nsx/extension_drivers/dns_integration.py:476-546 | they agree in every run whose updates are safe, in any networks |
| ExternalDns.OrdinaryIsSafe | vmware_nsx/extension_drivers/dns_integration.py:179-203 | an ordinary event is safe and keeps the shown name equal to the name sent |
| ExternalDns.CreateAgrees | vmware_nsx/extension_drivers/dns_integration.py:476-490 | creating a port keeps agreement, whatever its network and request |
| ExternalDns.DeleteAgrees | vmware_nsx/extension_drivers/dns_integration.py:529-546 | deleting a port removes exactly its records |
| ExternalDns.StaleRecordStays | vmware_nsx/extension_drivers/dns_integration.py:192-203 | a run of four events from the empty driver (served network, port, network no longer served, new address) in which the service agrees before the last event and keeps a record of an address no port has after it |
| ExternalDns.UnsafeRecord | vmware_nsx/extension_drivers/dns_integration.py:493-526 | for every unsafe update there is a record of the port that is wrong afterwards |
| ExternalDns.DnsExtensionDriver.ProcessCreatePort | vmware_nsx/extension_drivers/dns_integration.py:93-143 | stores a row unless the network's domain is the default one or neither name nor domain is requested; it sends the name requested, in the domain requested for the port, else in the network's, and nothing without an external network, a name or a domain |
| ExternalDns.DnsExtensionDriver.UpdateDnsDb | vmware_nsx/extension_drivers/dns_integration.py:145-177 | the pair sent so far becomes the previous one on a rename or a new address |
| ExternalDns.DnsExtensionDriver.ProcessUpdatePort | vmware_nsx/extension_drivers/dns_integration.py:179-220 | row and response name in all five cases |
| ExternalDns.DnsExtensionDriver.UpdatePortInExternalDnsService | vmware_nsx/extension_drivers/dns_integration.py:493-526 | removes the previous pair for the old addresses before sending the current one for the new |
| ExternalDns.DnsExtensionDriver.UpdatePort | vmware_nsx/extension_drivers/dns_integration.py:179-203 | the whole update is the step the theorems speak of; on a served network a new name is the one the row then shows and sends, in the network's domain, and has a record for each address if the update concerns the service |
| ExternalDns.DnsExtensionDriver.CreatePort | vmware_nsx/extension_drivers/dns_integration.py:476-490 | the whole creation is the step the theorems speak of; the records added are exactly the requested name in the port's own domain, else the network's, for each address, if a row sends anything |
| ExternalDns.DnsExtensionDriver.DeletePort | vmware_nsx/extension_drivers/dns_integration.py:529-546 | the whole deletion is the step the theorems speak of; the records removed are exactly the name and domain of the row for each address |
| ExternalDns.CreatedRowMeans | vmware_nsx/extension_drivers/dns_integration.py:93-143 | a new row shows the name requested and sends it in the port's own domain if one is requested, else in the network's, on external networks only |
| ExternalDns.UpdatedRowMeans | vmware_nsx/extension_drivers/dns_integration.py:145-177 | on a rename or a new address the pair sent so far becomes the previous one; a rename sends the new name in the network's domain, or stops sending if it is empty; otherwise the row stays |
| ExternalDns.ProcessedMeans | vmware_nsx/extension_drivers/dns_integration.py:179-220 | which of the five cases applies, and the name in the response of each |
| ExternalDns.RepublishedMeans | vmware_nsx/extension_drivers/dns_integration.py:493-526 | record by record: published afterwards are those of the row's current pair for the new addresses, and those published before that are not of its previous pair for the old addresses, or all those before if nothing of concern changed |
| ExternalDns.RenameSends | vmware_nsx/extension_drivers/dns_integration.py:145-203 | a rename on a served network leaves a row that shows and sends the new name in the network's domain, and a record for each address |
| LsnStore.PersistentLsnManager.Run | vmware_nsx/dhcp_meta/lsnmanager.py:393-506 | after any commands, however calls fail, every stored LSN and port is on the backend with the same attributes, and every stored port's LSN is stored |
| LsnStore.PersistentLsnManager.LsnGet | vmware_nsx/dhcp_meta/lsnmanager.py:400-414 | returns a stored LSN of the network; only with sync and errors enabled may it store one first, and then the one it returns; when no query raises the result is determined: the one row, else nothing or an error as asked, or with sync the one LSN of the backend, which is stored |
| LsnStore.PersistentLsnManager.LsnCreate | vmware_nsx/dhcp_meta/lsnmanager.py:425-433 | success adds one LSN on both sides; failure leaves the store as before and the backend too if the compensating delete takes effect, else one extra LSN there |
| LsnStore.PersistentLsnManager.LsnDelete | vmware_nsx/dhcp_meta/lsnmanager.py:435-437 | rows go first, with their ports; the backend's LSN may survive, a row never does |
| LsnStore.PersistentLsnManager.LsnDeleteByNetwork | vmware_nsx/dhcp_meta/lsnmanager.py:127-131 | removes rows of that network only; if no query raises, the one LSN of the network is gone from the store, and from the backend if deletes work; none is no error and several are one, and then nothing changes |
| LsnStore.PersistentLsnManager.LsnPortGet | vmware_nsx/dhcp_meta/lsnmanager.py:439-479 | the port returned is stored and carries the subnet or MAC asked for; errors store no port; when no query raises a stored port is found, and one that only the backend has is pulled through the overriding LSN lookup |
| LsnStore.PersistentLsnManager.LsnPortCreate | vmware_nsx/dhcp_meta/lsnmanager.py:491-501 | as for LSNs: added on both sides or on neither, or only on the backend if compensation fails; it succeeds if nothing raises, the LSN is stored and subnet and MAC are new |
| LsnStore.PersistentLsnManager.LsnPortDelete | vmware_nsx/dhcp_meta/lsnmanager.py:503-506 | the row goes first |
| LsnStore.PersistentLsnManager.LsnPortDispose | vmware_nsx/dhcp_meta/lsnmanager.py:202-222 | removes the row of that MAC only, and if deletes work the port of the backend too; asks for the deletion of the metadata switch port exactly after removing the port of the metadata address, whose failure is ignored |
| LsnStore.PersistentLsnManager.LsnPortDhcpSetup | vmware_nsx/dhcp_meta/lsnmanager.py:224-250 | success leaves one new port on both sides under an LSN of the network; a plug conflict leaves both sides without the port if deletes work and no reply is lost, and is a configuration error whenever the port was there to be plugged; other failures after the creation leave it in place; a missing switch is a configuration error that changes nothing; without sync the LSN rows stay as they were |
| LsnStore.PersistentLsnManager.LsnSave | vmware_nsx/db/lsn_db.py:31-35 | stores a row unless the database refuses a missing or repeated key |
| LsnStore.PersistentLsnManager.LsnPortSave | vmware_nsx/db/nsx_models.py:271-288 | stores a row unless primary key, unique subnet, unique MAC or foreign key forbids it |
| LsnStore.PersistentLsnManager.LsnForNetworkGet | vmware_nsx/nsxlib/mh/lsn.py:65-75 | an id exactly if one LSN carries the network's tag, nothing if several do |
| OctaviaReplay.Migration.MigrateLoadBalancer | vmware_nsx/api_replay/client.py:1136-1257 | for all answers, either every call of the plan was made and succeeded, or they were up to the first refusal followed, with errors ignored, by the cascade delete of what had been created; on success the trace is the load balancer, a call per listener, for each pool its creation with its listener, each member on its own subnet or else on that of the VIP, and its monitor, and for each listener its policies with their rules; one error is counted per failure that is ignored |
| OctaviaReplay.RefusedEndsInDelete | vmware_nsx/api_replay/client.py:1102-1104 | with errors ignored the last event is then the delete, and it lists in order exactly the listeners and pools whose creation succeeded, each pool with the health monitor created for it; with errors not ignored the trace ends with the refusal |
| OctaviaReplay.CreatedListenersAre | vmware_nsx/api_replay/client.py:1151-1175 | a listener is listed for deletion exactly if its creation succeeded |
| OctaviaReplay.CreatedPoolsAre | vmware_nsx/api_replay/client.py:1151-1221 | a pool is listed for deletion exactly if its creation succeeded, with a health monitor only if that was created for it |
| OctaviaReplay.ListsAreCreated | vmware_nsx/api_replay/client.py:1151-1153 | where each health monitor is for the last pool created, as in every prefix of the plan, the lists kept for deletion by position are those that the events give by id |
| OctaviaReplay.TidyPlan | vmware_nsx/api_replay/client.py:1180-1226 | in the plan each health monitor comes after its own pool and before the next |
| OctaviaReplay.PlanIs | vmware_nsx/api_replay/client.py:1136-1257 | the plan told by listener, pool and policy, call by call, without the functions it is made of |
| OctaviaReplay.MemberCallsAre | vmware_nsx/api_replay/client.py:1190-1206 | one call per member of a pool, in order, on the member's own subnet, or on that of the VIP if it has none |
| OctaviaReplay.KeysAre | vmware_nsx/api_replay/client.py:1156-1178 | policies are asked for once per listener, in the order of the listeners |
| OctaviaReplay.Migration.MigrateListeners | vmware_nsx/api_replay/client.py:1156-1178 | the listener loop keeps the deletion body apart from the body it resets |
| OctaviaReplay.Migration.MigratePool | vmware_nsx/api_replay/client.py:1180-1226 | pool, members and health monitor in order, each noted for deletion once created |
| OctaviaReplay.Migration.MigratePolicies | vmware_nsx/api_replay/client.py:1228-1255 | one call per policy with its rules, in the order of the listeners |
| SecurityGroupReplay.Migration.MigrateSecurityGroups | vmware_nsx/api_replay/client.py:439-552 | the trace is, group by group, what each group calls for, and then the bulk requests of the groups made, in source order; the run ends early exactly at the first refusal that is not survived, which is the last event, and everything before it is as in a full run; the errors counted are the refusals survived, other than those of missing rules |
| SecurityGroupReplay.SavedOnce | vmware_nsx/api_replay/client.py:507-530 | each rule of a new group is matched by a default rule or saved as often as the source has it, under its own tenant only |
| SecurityGroupReplay.GroupedPartitions | vmware_nsx/api_replay/client.py:507-527 | grouping loses and repeats no rule, and each tenant's list is its rules in source order |
| SecurityGroupReplay.MatchMeans | vmware_nsx/api_replay/client.py:506-520 | a rule is left out exactly if a default rule has its direction, ethertype and remote group and no protocol; a rule without tenant is saved under the default one |
| SecurityGroupReplay.KeptIsFilter | vmware_nsx/api_replay/client.py:506-520 | the rules kept are exactly those no default rule matches, in source order |
| SecurityGroupReplay.TenantIsFilter | vmware_nsx/api_replay/client.py:521-527 | the rules saved for a tenant are exactly that tenant's, in source order |
| SecurityGroupReplay.TenantsInOrder | vmware_nsx/api_replay/client.py:521-527 | tenants come in the order of their first rule |
| SecurityGroupReplay.QueueIs | vmware_nsx/api_replay/client.py:504-530 | the groups queued are exactly those made that have a rule to add, in source order |
| SecurityGroupReplay.AllSent | vmware_nsx/api_replay/client.py:534-551 | a group whose requests all succeed has every saved rule sent once |
| SecurityGroupReplay.Migration.GroupRules | vmware_nsx/api_replay/client.py:506-527 | the nested loops compute the kept rules, grouped |
| SecurityGroupReplay.Migration.SendRules | vmware_nsx/api_replay/client.py:534-551 | one request per tenant in order with that tenant's saved rules, up to the first that is refused, which is counted and ends the run exactly if errors are not ignored |
| SecurityGroupReplay.Migration.AddMissingRules | vmware_nsx/api_replay/client.py:458-481 | an existing group gets one request for each of its rules whose id the destination lacks, in order and for no other, up to the first refusal that is not a conflict, which ends the run whether or not errors are ignored |
| SecurityGroupReplay.MissingCallsAre | vmware_nsx/api_replay/client.py:458-481 | the requests for a group that exists are one for each rule whose id it has not, as often as it is listed and in source order |
| SecurityGroupReplay.MissingMembers | vmware_nsx/api_replay/client.py:461-468 | a rule is requested exactly if the source group has it and the destination group has no rule of that id |
| SecurityGroupReplay.Migration.CreateGroup | vmware_nsx/api_replay/client.py:484-502 | the group is asked for first and then each of its tags in order, and it counts as made, with the default rules it came with, only if all of them were created |
| SecurityGroupReplay.SurvivedMeans | vmware_nsx/api_replay/client.py:458-552 | a conflict over a missing rule is survived and not counted, any other refusal of one ends the run, and any refusal of anything else is counted and survived exactly if errors are ignored |
| NetworkReplay.Migration.MigrateNetworks | vmware_nsx/api_replay/client.py:694-983 | the trace is one segment per network, external ones first; all are finished, or the last one ends with the only refusal of the run that is not survived: any, if errors are not ignored, else that of a subnet or its tag unless it is a bad request; in each, subnets are created without DHCP, then ports, then at most one subnet gets DHCP, none of an external network; the errors counted are the refusals survived |
| NetworkReplay.Migration.MigrateNetwork | vmware_nsx/api_replay/client.py:739-981 | a network present is skipped without a call, any other is asked for with its tags; a refused one gets nothing more, any other is complete: each missing subnet, each port and DHCP, with exactly the calls that the answers so far allow; or it is cut short by a fatal refusal of its own, of a subnet, of a port or of DHCP, with nothing after it |
| NetworkReplay.SelectsCover | vmware_nsx/api_replay/client.py:727-734 | the two selections together are a permutation of the source |
| NetworkReplay.Ordered | vmware_nsx/api_replay/client.py:727-734 | the reordering is a permutation of the source networks with all external ones first and each kind in source order |
| NetworkReplay.OneDeferred | vmware_nsx/api_replay/client.py:789-813 | at most one subnet of a network is deferred |
| NetworkReplay.DeferredMeans | vmware_nsx/api_replay/client.py:789-813 | the deferred subnet is the first missing one with DHCP, of a network that is not external |
| NetworkReplay.MissingIsFilter | vmware_nsx/api_replay/client.py:765-788 | the subnets asked for are exactly those of the network that the destination lacks, in order |
| NetworkReplay.SubnetCallsAre | vmware_nsx/api_replay/client.py:789-829 | a subnet is created with DHCP off and with its host routes unless it is the deferred one, then tagged |
| NetworkReplay.ListedExactly | vmware_nsx/api_replay/client.py:789-825 | one subnet at most is listed for DHCP, none on an external network, and one is exactly if the deferred subnet was created with its tags |
| NetworkReplay.DhcpExactly | vmware_nsx/api_replay/client.py:963-981 | in a finished network DHCP is switched on exactly for what the deferred subnet became, with its host routes, which its creation did not carry |
| NetworkReplay.Migration.CreateSubnets | vmware_nsx/api_replay/client.py:765-829 | one create call per missing subnet, in order, with its tags, DHCP off, and without host routes exactly for the deferred one, up to the first refusal that is not survived; the new ids and the list for DHCP are those of the subnets created |
| NetworkReplay.Migration.MigratePorts | vmware_nsx/api_replay/client.py:831-961 | each port of the source leads, in order, to the calls its owner and network call for, up to the first refusal if errors are not ignored |
| NetworkReplay.Migration.MigratePort | vmware_nsx/api_replay/client.py:834-961 | a gateway port updates its router, internal, existing, load balancer, DHCP and floating IP ports are skipped, any other is created and tagged, and attached to its router if it is an interface on a subnet just created; a refusal is counted and survived exactly if errors are ignored |
| NetworkReplay.PortCallsAre | vmware_nsx/api_replay/client.py:880-955 | a port is created on its network, tagged, and attached to its device exactly if that is a router interface on a subnet created now |
| NetworkReplay.NewIdsMean | vmware_nsx/api_replay/client.py:814-825 | a missing subnet is known by the id it got exactly if it was created with all its tags |
| NetworkReplay.SurvivedMeans | vmware_nsx/api_replay/client.py:739-981 | of a subnet or its tags only a bad request is survived with errors ignored, of anything else any refusal, of nothing any if errors are not ignored |
| NetworkReplay.Migration.CreateSubnet | vmware_nsx/api_replay/client.py:814-829 | the subnet is asked for with DHCP off and its own or no host routes, then its tags; the loop goes on exactly if all calls succeeded or errors are ignored and the refusal is a bad request; a refused tag counts as a refused subnet |
| NetworkReplay.Migration.EnableDhcp | vmware_nsx/api_replay/client.py:963-981 | one call per listed subnet, with its routes |
| NetworkReplay.Migration.Reorder | vmware_nsx/api_replay/client.py:727-734 | the loop computes the order |
| PrepareObjects.NetworkIdempotent | vmware_nsx/api_replay/utils.py:188-273 | preparing a network twice is preparing it once, and a network is left alone exactly if it is ready |
| PrepareObjects.NetworkBodyReady | vmware_nsx/api_replay/utils.py:188-273 | the result has nothing to drop, no null provider field, no flat type, no vxlan type with a segmentation id, no vlan type with a physical network |
| PrepareObjects.ExternalNetworkFields | vmware_nsx/api_replay/utils.py:233-259 | a prepared external network has no provider type or segmentation id, and a physical network iff the map names one |
| PrepareObjects.SubnetIdempotent | vmware_nsx/api_replay/utils.py:275-290 | preparing a subnet twice is preparing it once |
| PrepareObjects.RouterIdempotent | vmware_nsx/api_replay/utils.py:169-182 | preparing a router twice is preparing it once |
| PrepareObjects.PortIdempotentIff | vmware_nsx/api_replay/utils.py:292-330 | a prepared port never has both MAC learning and port security; preparing it again changes nothing if the backend takes at least one address pair, and else exactly if the port lists none |
| PrepareObjects.NetworkFields | vmware_nsx/api_replay/utils.py:188-273 | each field of a prepared network, told by type of network: which provider fields are kept, replaced or dropped, which zone hints survive, the VNI from the map, the new name of an internal network, and all else copied or dropped by name |
| PrepareObjects.SubnetFields | vmware_nsx/api_replay/utils.py:275-290 | each field of a prepared subnet: the IPv6 modes are gone for version 4 or if null, all else is copied or dropped by name |
| PrepareObjects.RouterFields | vmware_nsx/api_replay/utils.py:169-182 | each field of a prepared router: the zone hints that survive, all else copied or dropped by name |
| PrepareObjects.PortFields | vmware_nsx/api_replay/utils.py:292-330 | each field of a prepared port: the address pairs kept, security off and groups emptied with MAC learning, the vif id, device fields set, all else copied or dropped by name |
| PrepareObjects.Item.DropFields | vmware_nsx/api_replay/utils.py:130-136 | copies all fields but those named |
| PrepareObjects.Item.PrepareNetwork | vmware_nsx/api_replay/utils.py:188-273 | the deletions and settings amount to the function the theorems speak of |
| PrepareObjects.Item.PrepareSubnet | vmware_nsx/api_replay/utils.py:275-290 | likewise for subnets |
| PrepareObjects.Item.PreparePort | vmware_nsx/api_replay/utils.py:292-330 | likewise for ports |
| PrepareObjects.Item.PrepareRouter | vmware_nsx/api_replay/utils.py:169-182 | likewise for routers |
| PluginFilter.EntryList.FilterResultsByPlugin | vmware_nsx/plugins/nsx/utils.py:63-85 | the list becomes exactly the order-preserving filter of what it was, duplicates included; without a project or entries it stays, and a requester without plugin is an error that leaves it |
| PluginFilter.FilterStep | vmware_nsx/plugins/nsx/utils.py:71-83 | removing the first equal of an entry that is walked past removes that very entry |
| PluginFilter.FilterCounts | vmware_nsx/plugins/nsx/utils.py:71-83 | the filter keeps every visible entry as often as it was listed and no other |
| PluginFilter.FilterKeeps | vmware_nsx/plugins/nsx/utils.py:71-83 | what is kept, in order: entries without a project and those whose project is mapped to the requester's plugin |

## Left out

- ApiRequests.ApiRequest.IssueRequest: an acquire that finds the queue empty ends the modelled request as waiting, which also stands for being killed there; the code blocks until a connection is put back. HTTP headers, bodies and URL strings are not modelled, a location header is taken as parsed.
- ApiRequests.ApiRequest.HandleRequest: after a second release the request is not followed into further attempts, though the code makes them, since the queue may then hold a connection twice.
- ApiRequests.ApiRequest.MoveTo: a redirect location names its port; without one the code looks the provider up under the default port but compares connections with the missing one.
- ApiClientPool.RedirectKeepsInv: connections of equal priority can be compared, in any order. Python 3 raises an error instead when it compares two connections at priority 0, as a redirect to a new target queues them if three or more connections are configured.
- ApiClientSystem.LoginsExclusive: says that a waiter can proceed, not that a fair scheduler will let it.
- ApiClientSystem.NextKeepsInv: a login that raises or is killed inside an acquire or a redirect checkout leaves the connection checked out for good, as in the code, and the thread stranded, unless the request still has the connection by name; when it has is left open here and stated by `ApiRequests.ApiRequest.IssueRequest`. A second release is not a step, since it breaks the invariant; what it does is `ApiClientPool.SecondReleaseOverfills`.
- EventletApiClients.EventletApiClient.AcquireConnection: whether a connection was idle too long is a parameter, since it depends on the clock.
- EdgeVnics.AllocateSucceedsIff: for edges with the full layout or with no rows; specific allocation and deletion of rows, which bypass the layout, are left out.
- MetadataNetworks.Plugin.Run: exact only while nothing raises; with failures the model proves at most one metadata interface per router and untouched tenants' objects, and what exactly is left after a single failure of one creation or removal. SNAT rules and firewall updates are part of the calls that may raise.
- MetadataNetworks.Plugin.CreateMetadataAccessNetwork: exact for at most one failure; after several, only that tenants' objects and other routers are untouched.
- MetadataNetworks.Plugin.Serve: tenants do not use the reserved gateway address, do not attach ports to metadata networks and do not switch DHCP of metadata subnets. Native metadata mode never calls these handlers.
- MetadataNetworks.Plugin.RemoveRouterInterface: removes by port; lookup by subnet finds the same port because a router cannot have two interfaces on one subnet.
- ExternalDns.UpdateAgreesIff: an external DNS driver is configured and its own calls succeed; without one nothing is ever published. Whether the update changes a domain shown in the port dictionary is a parameter.
- LsnStore.PersistentLsnManager.LsnPortDhcpSetup: switch lookups, plugging and DHCP configuration are parameters for how they end.
- OctaviaReplay.Migration.MigrateLoadBalancer: bodies are reduced to ids, certificates and health monitor contents are left out; ids named by the load balancer exist in the source's listings, where the code would raise a key error.
- SecurityGroupReplay.Migration.MigrateSecurityGroups: source groups have distinct ids.
- NetworkReplay.Migration.MigrateNetworks: subnets named by a network exist in the source's listing; subnet pools, QoS and the bodies built by the preparation are left out.
- PrepareObjects.NetworkIdempotent: zone hints are lists, and a network of the internal project has a name; the code raises otherwise.
- PrepareObjects.PortIdempotentIff: the number of address pairs is a constant of a library that is not part of this model; it is a symbol here, and nothing suggests that it is 0.
- Metadata setup of an LSN port passes a wrong argument to its own cleanup and is left out.
- Configuration generation tracking, the pool of green threads and logging are left out.
- The order in which load balancers, routers, floating IPs, QoS and firewall objects are migrated is left out: one request per object without further state.
- vSphere access, devstack scripts, command line tools and option definitions hold no invariant of this kind.
