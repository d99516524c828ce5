# vSphere provider reconcilers in Dafny

This project models the core of a Terraform provider for VMware vSphere. The provider reconciles four
kinds of inventory object with a vCenter endpoint:

- datacenters;
- clusters, with their DRS and HA settings;
- ESXi hosts, added to a cluster or as standalone hosts;
- resource pools, with their CPU and memory allocations.

Each object kind has Create, Read, (Update) and Delete callbacks. They resolve the object by name and
inventory path, translate the declared configuration into vSphere's types, submit requests, and write
what vSphere reports back into Terraform state.

Module layout:

| module | file | what it models |
|---|---|---|
| `Wrappers` | `wrappers.dfy` | `Option` and `Result` |
| `Text` | `text.dfy` | the parts of Go's `strings` and `strconv` the provider uses |
| `Allocation` | `allocation.dfy` | `getAllocationInfo` and `putAllocationInfo` |
| `ClusterConfig` | `cluster_config.dfy` | the DRS and HA translators and the cluster read-back |
| `Paths` | `paths.dfy` | `getHost`'s expected path and comparison; `getResourcePool`'s search |
| `Remote` | `endpoint.dfy` | the endpoint: an inventory plus a log of submitted requests |
| `Datacenter`, `Cluster`, `Host`, `ResourcePool` | one file each | the reconcilers |

The reconcilers change state step by step, so they are methods. Each object's `schema.ResourceData` is a
class. The declared attributes are `const` fields. The Id, `object_id` and the blocks written back are
`var` fields.

The endpoint is the class `Remote.Endpoint`. It holds:

- the datacenters, clusters, hosts and pools that govmomi's finder searches;
- a `log` of every state-changing request;
- the allocation vSphere gives a new pool for the fields its create request leaves unset.

Every submit method appends its request to the log. It applies the request's effect only when the
request succeeds. Whether it succeeds is not decided by the model: each request comes with its reply, a
`Submission`, passed in by the caller. A reply is either rejected at submission or accepted and run to a
task outcome (success, an SSL certificate fault carrying the host's thumbprint, or another fault). So
each method's contract covers every possible reply.

Terraform's `GetOk` treats a zero value as unset. The model follows this: `""`, `0` and `false` mean "not
set". A repeated block (`cpu`, `memory`, `drs`, `ha`) is a sequence, and the block count is its length.

Behaviour that follows the code rather than the documented intent:

- DRS and HA values are read with `d.Get`, which never returns nil. So an empty automation level or
  monitoring value is rejected, and `drs {}` or `ha {}` fails validation instead of enabling the facet
  with defaults (cluster.go:150-156, 176-182).
- A custom share count is parsed with `strconv.Atoi`, so a negative count such as `"-5"` is accepted as
  a custom level (resource_pool.go:292).
- Cluster Create creates the empty cluster before Update validates the `drs` and `ha` blocks. A
  multiplicity or enum error therefore still leaves one CreateCluster request in the log
  (cluster.go:256-276). Update alone submits nothing on such an error.
- Datacenter Read and Create clear the Id before they format their error. The messages therefore read
  `datacenter '' not found` and `error creating datacenter ''` (datacenter.go:52-53, 78-79).

## Model

| member | source | states |
|---|---|---|
| Text.Atoi | vsphere/resource_vsphere_resource_pool.go:292-295 | a string is accepted only if it is a sign followed by digits, or digits alone, and its value fits in 64 bits; the errors are strconv's syntax and range messages, and a leading digit run beyond 2^64-1 is a range error |
| Text.OverflowReportedBeforeBadCharacter | vsphere/resource_vsphere_resource_pool.go:292-295 | a digit run too large for 64 bits followed by a non-digit is reported as out of range, not as a syntax error |
| Text.AtoiOfItoa | vsphere/resource_vsphere_resource_pool.go:331-333 | parsing the decimal that Itoa writes for a 64-bit number gives that number back |
| Text.DecimalValueOfNatToDecimal | vsphere/resource_vsphere_resource_pool.go:323-328 | the decimal spelling of a natural number denotes that number |
| Text.Itoa | vsphere/resource_vsphere_cluster.go:232 | the decimal spelling is non-empty and begins with a digit or '-' |
| Text.ItoaIsNotAWord | vsphere/resource_vsphere_resource_pool.go:331-335 | a number's spelling is never a level name such as "low" |
| Text.SuffixIsContained | vsphere/resource_vsphere_resource_pool.go:110 | a string contains each of its suffixes |
| Text.FormatBool | vsphere/resource_vsphere_resource_pool.go:329 | "true" exactly for true and "false" exactly for false |
| Allocation.DeclaredShares | vsphere/resource_vsphere_resource_pool.go:285-305 | unset shares mean normal; low, normal and high keep their level; anything else is accepted iff strconv.Atoi accepts it, and then becomes a custom level with that count, else an error quoting Atoi's message |
| Allocation.GetAllocationInfo | vsphere/resource_vsphere_resource_pool.go:270-317 | more than one block is an error; no block changes nothing; one block stores expandable_reservation, shares (normal when unset), and reservation and limit only when non-zero; a rejected share value leaves expandable_reservation already stored |
| Allocation.PutAllocationInfo | vsphere/resource_vsphere_resource_pool.go:319-338 | reservation and limit are written, in decimal, exactly when non-zero; expandable_reservation is always written; shares is the decimal count for a custom level and the level name otherwise |
| Allocation.MoreThanOneSectionRejected | vsphere/resource_vsphere_resource_pool.go:276-279 | two or more blocks are rejected with "only 1 <type> allocation section permitted", whatever they hold |
| Allocation.NoSectionLeavesAllocationUntouched | vsphere/resource_vsphere_resource_pool.go:274-275 | no block leaves the allocation exactly as it was |
| Allocation.SingleSectionFields | vsphere/resource_vsphere_resource_pool.go:280-312 | one valid block yields a complete allocation with the block's flag and shares; reservation and limit are the block's when non-zero and unchanged otherwise |
| Allocation.SingleSectionAcceptedIff | vsphere/resource_vsphere_resource_pool.go:285-299 | one block is accepted iff its shares are unset, a level name, or accepted by strconv.Atoi |
| Allocation.SectionRoundTrip | vsphere/resource_vsphere_resource_pool.go:270-338 | a block whose shares are spelled canonically, translated and written back, gives the block itself |
| Allocation.SharesReadBackRoundTrip | vsphere/resource_vsphere_resource_pool.go:331-335 | for every share setting vSphere can hold, the shares value written back is accepted again with the same level, and with the same count for a custom level; a named level's computed count reads back as 0, because only the level name is written |
| ClusterConfig.GetClusterDrsConfigInfo | vsphere/resource_vsphere_cluster.go:133-163 | no block gives no facet; more than one is an error; one block gives an enabled facet iff its automation level is manual, partiallyAutomated or fullyAutomated, and the invalid-level error otherwise |
| ClusterConfig.GetClusterDasConfigInfo | vsphere/resource_vsphere_cluster.go:165-212 | no block gives no facet; more than one is an error; one block is accepted iff both monitoring values are valid and it declares no admission control policy entry; vm_monitoring is checked first, then host_monitoring; an entry in an otherwise valid block is the panic at line 198, as an error |
| ClusterConfig.ClusterSpec | vsphere/resource_vsphere_cluster.go:286-294 | the spec exists iff both translations succeed; the DRS error wins, else the HA error; the spec carries exactly the two translated facets, and a facet is present iff exactly one block was declared |
| ClusterConfig.ApplyClusterSpec | vsphere/resource_vsphere_cluster.go:299-306 | a facet in the spec replaces the cluster's; an absent facet leaves it alone |
| ClusterConfig.ReadDrsSection | vsphere/resource_vsphere_cluster.go:229-235 | a drs block is written iff DRS is enabled, holding the override flag, the threshold in decimal and the automation level |
| ClusterConfig.ReadHaSection | vsphere/resource_vsphere_cluster.go:236-242 | an ha block is written iff HA is enabled, holding both monitoring values and the admission control flag |
| ClusterConfig.IntendedDasConfigInfo | vsphere/resource_vsphere_cluster.go:165-212 | the HA translation with the policy list read as the list it is: one block is accepted iff both monitoring values are valid, and then gives the enabled facet with those values; otherwise as written |
| ClusterConfig.DeclaredPolicyPanics | vsphere/resource_vsphere_cluster.go:196-198 | an ha block with valid monitoring values and a policy entry fails as written, and is accepted by the intended translation |
| ClusterConfig.AdmissionControlPolicyIgnored | vsphere/resource_vsphere_cluster.go:196-206 | in the intended translation the policy entries never reach the HA facet, and a block without entries translates as written |
| ClusterConfig.DrsRoundTrip | vsphere/resource_vsphere_cluster.go:139-160 | a valid drs block, applied to any cluster and read back, gives the same block |
| ClusterConfig.HaRoundTrip | vsphere/resource_vsphere_cluster.go:171-209 | a valid ha block without policy entries, applied to any cluster and read back, gives the same block |
| ClusterConfig.DrsReapplyIsIdempotent | vsphere/resource_vsphere_cluster.go:229-235 | translating the drs block read back yields the same DRS facet again |
| Paths.ExpectedHostPath | vsphere/resource_vsphere_host.go:285-289 | the expected path starts with /<datacenter>/host/ and ends with /<host> |
| Paths.GetHost | vsphere/resource_vsphere_host.go:281-304 | a failed search is passed through; a host at the expected path is found; a host anywhere else is returned with an error starting "found host" |
| Paths.ExpectedPathDeterminesParent | vsphere/resource_vsphere_host.go:285-289 | two expected paths for one datacenter and host agree only if they name the same parent folder |
| Paths.HostInOtherClusterIsMismatch | vsphere/resource_vsphere_host.go:297-301 | a host in cluster X looked up under cluster Y is a mismatch, never adopted |
| Paths.ClusteredHostLookedUpStandaloneIsMismatch | vsphere/resource_vsphere_host.go:285-301 | a clustered host looked up as standalone is a mismatch, unless the cluster has the host's name |
| Paths.FirstMatch | vsphere/resource_vsphere_resource_pool.go:260-265 | the index found is the first candidate whose path ends with the suffix; none is found iff no candidate does |
| Paths.GetResourcePool | vsphere/resource_vsphere_resource_pool.go:248-268 | a failed search is passed through; the result is a candidate under /<parent>/Resources/<name>; one exists iff any candidate matches; otherwise "resource pool <name> was not found" |
| Paths.GetResourcePoolPicksFirst | vsphere/resource_vsphere_resource_pool.go:260-265 | the pool picked comes no later than any matching candidate |
| Remote.NotFoundErrorSaysNotFound | vsphere/resource_vsphere_resource_pool.go:110 | the finder's not-found error contains "not found" |
| Remote.MergeAllocation | vsphere/resource_vsphere_resource_pool.go:198 | each allocation field the request sets replaces the pool's; unset fields keep the pool's value |
| Remote.UpdatePools | vsphere/resource_vsphere_resource_pool.go:198 | only the pool with the given reference changes, and it gets the merged configuration |
| Remote.Endpoint.FindDatacenter | vsphere/resource_vsphere_datacenter.go:32-46 | found iff a datacenter of that name exists; otherwise the error says "not found" |
| Remote.Endpoint.FindCluster | vsphere/resource_vsphere_cluster.go:124-128 | found iff the datacenter has a cluster of that name, with that cluster's configuration |
| Remote.Endpoint.FindHostSystem | vsphere/resource_vsphere_host.go:291-295 | found iff exactly one host has the name, and then it is that host |
| Remote.Endpoint.ResourcePoolList | vsphere/resource_vsphere_resource_pool.go:254-258 | a non-empty list of inventory pools, or an error saying "not found" |
| Remote.Endpoint.FindParentPool | vsphere/resource_vsphere_resource_pool.go:118-123 | the pool found sits at /<datacenter>/host/<parent>/Resources |
| Remote.Endpoint.SubmitCreateDatacenter | vsphere/resource_vsphere_datacenter.go:75 | logs the request; the datacenter exists afterwards iff it succeeded |
| Remote.Endpoint.SubmitDestroyDatacenter | vsphere/resource_vsphere_datacenter.go:96-103 | logs the request; on success the datacenter is gone together with its clusters and every host and pool under its inventory path; on failure nothing else changes |
| Remote.Endpoint.SubmitCreateCluster | vsphere/resource_vsphere_cluster.go:267 | logs the request; on success the cluster exists with DRS and HA off |
| Remote.Endpoint.SubmitReconfigureCluster | vsphere/resource_vsphere_cluster.go:299-306 | logs the request; on success the spec is applied to the cluster |
| Remote.HostsNotUnder | vsphere/resource_vsphere_datacenter.go:96-103 | exactly the hosts outside a destroyed object's inventory path survive its destroy |
| Remote.PoolsNotUnder | vsphere/resource_vsphere_datacenter.go:96-103 | exactly the pools outside a destroyed object's inventory path survive its destroy |
| Remote.ClustersOutside | vsphere/resource_vsphere_datacenter.go:96-103 | exactly the clusters of other datacenters, with their configurations, survive a datacenter's destroy |
| Remote.Endpoint.SubmitDestroyCluster | vsphere/resource_vsphere_cluster.go:320-327 | logs the request; on success the cluster is gone together with every host and pool under its inventory path; the datacenters are untouched |
| Remote.Endpoint.SubmitAddHost | vsphere/resource_vsphere_host.go:118-122 | logs the request; on success the host appears at its expected path |
| Remote.Endpoint.SubmitDestroyComputeResource | vsphere/resource_vsphere_host.go:235-242 | logs the request; on success the compute resource's hosts are gone |
| Remote.Endpoint.SubmitCreateResourcePool | vsphere/resource_vsphere_resource_pool.go:137-141 | logs the request; on success a pool appears under the parent, with the requested allocation merged onto the defaults |
| Remote.Endpoint.SubmitUpdateResourcePool | vsphere/resource_vsphere_resource_pool.go:198-202 | logs the request; on success the pool's configuration is merged with the spec |
| Remote.Endpoint.SubmitDestroyResourcePool | vsphere/resource_vsphere_resource_pool.go:218-225 | logs the request; on success the pool is gone |
| Datacenter.Read | vsphere/resource_vsphere_datacenter.go:48-59 | a datacenter that is gone clears the Id, and the error names the cleared Id |
| Datacenter.Create | vsphere/resource_vsphere_datacenter.go:61-85 | an existing datacenter is adopted without a request; otherwise exactly one create is submitted; success makes the Id the name; failure clears it |
| Datacenter.Delete | vsphere/resource_vsphere_datacenter.go:87-106 | a missing datacenter is an error quoting the lookup, without a request; otherwise exactly one destroy, whose fault is the error; on success the datacenter, its clusters and the hosts and pools under it are gone |
| Cluster.FindCluster | vsphere/resource_vsphere_cluster.go:116-131 | found iff the datacenter exists and holds a cluster named by the Id |
| Cluster.Update | vsphere/resource_vsphere_cluster.go:279-309 | a lookup or validation error is returned as is and submits nothing; otherwise exactly one reconfigure carrying both translated facets, whose fault is the error |
| Cluster.Create | vsphere/resource_vsphere_cluster.go:247-277 | a missing datacenter clears the Id, returns the lookup's message and changes nothing; a missing cluster is created first, and a failure clears the Id; then the Id is the name, Update's single reconfigure follows, the error is its fault or the validation message, and the cluster holds the new or existing configuration with the spec applied iff the reconfigure succeeded; without an error, each declared drs or ha block reads back unchanged; datacenters, hosts and pools are untouched |
| Cluster.Read | vsphere/resource_vsphere_cluster.go:214-245 | a missing cluster clears the Id and returns the lookup's message; an enabled facet is written as one block; a disabled facet leaves the state untouched |
| Cluster.Delete | vsphere/resource_vsphere_cluster.go:311-330 | a missing cluster is the lookup's error without a request; otherwise exactly one destroy, whose fault is the error; on success the cluster and the hosts and pools under it are gone |
| Host.ClusterName | vsphere/resource_vsphere_host.go:265-271 | the cluster is passed on iff cluster_id is set |
| Host.FindHost | vsphere/resource_vsphere_host.go:252-279 | a missing datacenter fails the lookup; otherwise it is getHost on the host name |
| Host.LookupErrorIsNotAMismatch | vsphere/resource_vsphere_host.go:83 | only a host at the wrong path gives an error starting "found host" |
| Host.License | vsphere/resource_vsphere_host.go:100-103 | the license key is passed iff set, and it is the declared key |
| Host.ConnectAttempts | vsphere/resource_vsphere_host.go:118-139 | one or two connect specs; a second one iff ssl_no_verify is set and the first failed with the certificate fault, and it carries that fault's thumbprint |
| Host.ConnectError | vsphere/resource_vsphere_host.go:118-139 | the add succeeds iff the first attempt does, or the retry is taken and succeeds; otherwise the error of the last attempt |
| Host.AddHostRequests | vsphere/resource_vsphere_host.go:118-131 | one AddHost request per connect spec, in order |
| Host.UnverifiedCertificateFailsAtOnce | vsphere/resource_vsphere_host.go:122-138 | without ssl_no_verify a certificate fault fails the add after one attempt, with the fault's message |
| Host.TwoCertificateFaultsStopAfterTwoAttempts | vsphere/resource_vsphere_host.go:126-138 | two certificate faults in a row give exactly two attempts and an error, never a third |
| Host.RetrySucceedsOnlyWithPinnedThumbprint | vsphere/resource_vsphere_host.go:126-134 | a host added after a failed first attempt was added by a second attempt carrying the first fault's thumbprint |
| Host.AddHostWithRetry | vsphere/resource_vsphere_host.go:152-173 | the requests logged are the connect attempts; the error is ConnectError's; the host appears at its expected path iff the add succeeded |
| Host.AddedHostIsFound | vsphere/resource_vsphere_host.go:177-189 | a host added where none of its name existed is found at its expected path afterwards |
| Host.FindHostReturn | vsphere/resource_vsphere_host.go:273-278 | findHost returns a host exactly when it returns no error, and that is exactly when the host is at its expected path |
| Host.MismatchBranchHasNoHost | vsphere/resource_vsphere_host.go:80-86 | create's "found host" branch is reached with a nil host |
| Host.Read | vsphere/resource_vsphere_host.go:181-191 | a host not at its expected path clears the Id and returns the error; otherwise object_id is its reference |
| Host.Create | vsphere/resource_vsphere_host.go:69-179 | a host at the wrong path is an error without a request; a host in place is adopted; an unresolvable datacenter or cluster is that lookup's error; otherwise the add with retry, then the Id is the host name and the host is read back; a host new by name ends with object_id the new reference, and every failure leaves object_id as it was |
| Host.FirstHostsError | vsphere/resource_vsphere_host.go:220-227 | no error iff every compute resource lists its hosts |
| Host.LastComputeResource | vsphere/resource_vsphere_host.go:218-233 | the last compute resource among the children; none iff there is none |
| Host.ScanHostFolder | vsphere/resource_vsphere_host.go:215-232 | the first failure to list a compute resource's hosts, else the last compute resource, whatever object_id is |
| Host.IntendedScan | vsphere/resource_vsphere_host.go:218-230 | the compute resource it picks is a compute resource among the children |
| Host.IntendedScanPicksHostingResource | vsphere/resource_vsphere_host.go:228-230 | the intended scan picks the compute resource whose first host is the host being removed |
| Host.ScanAsWrittenPicksAnotherHostsResource | vsphere/resource_vsphere_host.go:228-230 | with two standalone hosts, removing the first makes the scan end on the second host's compute resource |
| Host.Delete | vsphere/resource_vsphere_host.go:193-250 | keep does nothing; a lookup error is returned; a clustered host is left alone; otherwise the compute resource the scan ends on is destroyed, and the destroy's fault is the error |
| ResourcePool.FindResourcePool | vsphere/resource_vsphere_resource_pool.go:230-246 | a missing datacenter fails the lookup; otherwise it is getResourcePool; a pool found is in the inventory |
| ResourcePool.FindErrorsSayNotFound | vsphere/resource_vsphere_resource_pool.go:108-110 | every lookup error contains "not found", so Create always reaches its create path |
| ResourcePool.PoolSpec | vsphere/resource_vsphere_resource_pool.go:127-135 | the spec exists iff both allocations translate; the CPU error wins |
| ResourcePool.GetPoolSpec | vsphere/resource_vsphere_resource_pool.go:188-196 | the two getAllocationInfo calls on fresh allocations yield PoolSpec |
| ResourcePool.MissingPoolHasNoMatch | vsphere/resource_vsphere_resource_pool.go:260-267 | when the lookup fails in an existing datacenter, no pool lies under the parent with the name |
| ResourcePool.CreatedPoolIsFound | vsphere/resource_vsphere_resource_pool.go:118-149 | a pool created under the parent's root pool is the one the next lookup finds |
| ResourcePool.AppliedSectionReadsBack | vsphere/resource_vsphere_resource_pool.go:319-338 | a block applied to a pool and read back gives the block, unless the pool's own reservation or limit shows through |
| ResourcePool.PoolRoundTrip | vsphere/resource_vsphere_resource_pool.go:171-172 | with each block read from its own allocation, the declared cpu and memory blocks read back unchanged |
| ResourcePool.MemoryBlockShowsCpuAllocation | vsphere/resource_vsphere_resource_pool.go:172 | a pool with CPU reservation 100 and memory reservation 200 has its memory block read back with 100 |
| ResourcePool.Create | vsphere/resource_vsphere_resource_pool.go:103-151 | a pool found is adopted without a request; on "not found" exactly one create under the parent's root pool, and the new pool is what the next lookup finds; the Id is the name and object_id the pool's reference; a missing datacenter, parent or invalid allocation is that message without a request, and a failed create is its fault |
| ResourcePool.Read | vsphere/resource_vsphere_resource_pool.go:153-176 | a missing pool clears the Id; otherwise both blocks are written from the CPU allocation, as written, and object_id is the reference |
| ResourcePool.Update | vsphere/resource_vsphere_resource_pool.go:178-205 | a missing pool clears the Id; a validation error submits nothing; otherwise exactly one reconfigure under the declared name, whose fault is the error |
| ResourcePool.Delete | vsphere/resource_vsphere_resource_pool.go:207-228 | keep does nothing; a missing pool is an error without a request; otherwise exactly one destroy, whose fault is the error |

## Left out

- The provider and client setup (`Provider`, `providerConfigure` and `config.go`) and `main.go` are not part of this model. The endpoint is a parameter of every callback.
- The datastore and folder resources and the virtual machine tests are not part of this model.
- `getFinder` (vsphere/provider.go:58-83) is modelled as a lookup of `datacenter_id` on the endpoint. Every resource declares `datacenter_id` as required, so the `DefaultDatacenter` branch for an unset value is left out.
- A nil client, network errors and certificate handshakes are left out. Failures of `Folders`, `Configuration`, `Properties` and `Children` calls are left out too: these calls always succeed in the model.
- Host.AddHostWithRetry: assumes the `Properties` read of the failed task succeeds. The source skips the retry when that read fails.
- govmomi's wildcard matching is simplified. `*/<host>` matches every host of that name, and `*/Resources/<name>` matches every pool whose path ends that way. Neither search is limited to the anchored datacenter.
- Remote.Endpoint.FindParentPool: the parent's root pool is looked up at `/<datacenter>/host/<parent>/Resources`, not under any folder the `*` in the source's pattern could match. When several pools match, the model takes the first; govmomi reports an error.
- Host.Delete: the host folder's children are a parameter. They are not derived from the endpoint's inventory.
- Remote.Endpoint.SubmitUpdateResourcePool: vSphere renames the pool to the declared name; the model keeps its path.
- vSphere also creates root pools for new clusters and standalone hosts. The model does not create them.
- ClusterConfig.ApplyClusterSpec: a facet in the spec replaces the cluster's facet whole. On the wire, zero values inside a facet are omitted, and vSphere then keeps its own values for them.
- ClusterConfig.GetClusterDasConfigInfo: the panic at cluster.go:198 is modelled as the error `PolicyPanic`. A panic ends the provider process, where an error only ends the callback. Either way no request follows it (see Findings).
- ClusterConfig.HaRoundTrip: covers only ha blocks without admission control policy entries, because the source panics on any entry.
- Host.Create: at host.go:84 the source logs a path through the nil host that findHost returns with a mismatch error (see Findings). The model returns the mismatch error.
- Logging is left out.
- Error texts produced by govmomi and vSphere faults are symbolic strings. strconv's own quoting of the input in its errors is modelled without escaping.
- 32-bit `int` arithmetic is not modelled. The model uses Go's 64-bit `int`, which is where `Atoi`'s range applies.

## Findings

| source | as written | input that shows it | evidently intended | confidence | as-written member | corrected member |
|---|---|---|---|---|---|---|
| vsphere/resource_vsphere_host.go:228-229 | the `break` leaves only the type switch, so the scan ends on the last compute resource of the host folder, and Delete destroys that one | two standalone hosts: host-1 in domain-s1 and host-2 in domain-s2; deleting host-1 destroys domain-s2 | stop at the compute resource whose first host is the host being removed | high, not executed | Host.ScanAsWrittenPicksAnotherHostsResource | Host.IntendedScanPicksHostingResource |
| vsphere/resource_vsphere_resource_pool.go:172 | the `memory` block is written from the CPU allocation | a pool with CPU reservation 100 and memory reservation 200 reads back memory reservation "100" | write the `memory` block from the memory allocation | high, not executed | ResourcePool.MemoryBlockShowsCpuAllocation | ResourcePool.PoolRoundTrip |
| vsphere/resource_vsphere_host.go:80-85 | findHost returns a nil host with a path-mismatch error, and the log line then reads that host's inventory path | host h registered under cluster c2 while cluster_id is c1 | return the mismatch error without reading the nil host | high, not executed | Host.MismatchBranchHasNoHost | Host.Create |
| vsphere/resource_vsphere_cluster.go:196-198 | the policy list is asserted to `[]map[string]interface{}`, but helper/schema returns a list as `[]interface{}`, so any declared entry panics | an ha block with vm_monitoring "vmMonitoringOnly", host_monitoring "enabled" and one admissionControlPolicy entry | read the list as `[]interface{}`; the entries are then collected into `props`, which nothing uses, so the block translates as if it declared none | high, not executed | ClusterConfig.DeclaredPolicyPanics | ClusterConfig.AdmissionControlPolicyIgnored |

The reconcilers follow the code as written. `Host.Delete` uses the scan as written, `ResourcePool.Read`
writes both blocks from the CPU allocation, and the cluster reconcilers fail on a policy entry. The
corrected definitions are `Host.IntendedScan`, `ResourcePool.ReadBackState` and
`ClusterConfig.IntendedDasConfigInfo`. The lemmas in the last column are proved about those definitions.
