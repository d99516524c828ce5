/** The vSphere endpoint as the reconcilers see it: an inventory of
    datacenters, clusters, hosts and resource pools that govmomi's finder
    searches, and a log of every state-changing request submitted to it.
    Whether a request succeeds is not decided here: each request comes
    with its reply, a `Submission`, supplied by the caller as an oracle. */
module Remote {
  import opened Wrappers
  import opened Text
  import opened Allocation
  import opened ClusterConfig
  import opened Paths

  /** The terminal state of a vSphere task: success, the certificate fault
      that carries the host's SSL thumbprint, or any other fault. */
  datatype TaskOutcome = Success | SSLVerifyFault(thumbprint: string) | OtherFault(msg: string)

  /** The reply to a request: rejected when submitted, or accepted and run
      to the given outcome (a synchronous call is accepted with Success). */
  datatype Submission = Rejected(msg: string) | Accepted(outcome: TaskOutcome)

  predicate Succeeded(s: Submission) { s == Accepted(Success) }

  function FaultMessage(o: TaskOutcome): string
    requires !o.Success?
  {
    match o
    case SSLVerifyFault(_) => "Authenticity of the host's SSL certificate is not verified."
    case OtherFault(m) => m
  }

  /** The error a failed request returns: the rejection, or the task's fault. */
  function SubmissionError(s: Submission): string
    requires !Succeeded(s)
  {
    match s
    case Rejected(m) => m
    case Accepted(o) => FaultMessage(o)
  }

  /** types.HostConnectSpec */
  datatype HostConnectSpec = HostConnectSpec(
    force: bool,
    hostName: string,
    userName: string,
    password: string,
    sslThumbprint: string)

  /** A state-changing request, as submitted. */
  datatype Mutation =
    | CreateDatacenter(name: string)
    | DestroyDatacenter(name: string)
    | CreateCluster(datacenter: string, name: string)
    | ReconfigureCluster(datacenter: string, name: string, clusterSpec: ClusterConfigSpec)
    | DestroyCluster(datacenter: string, name: string)
    | AddHost(datacenter: string, cluster: Option<string>, connectSpec: HostConnectSpec, license: Option<string>)
    | DestroyComputeResource(ref: string)
    | CreateResourcePool(parentRef: string, name: string, poolSpec: ResourceConfigSpec)
    | UpdateResourcePool(ref: string, name: string, poolSpec: ResourceConfigSpec)
    | DestroyResourcePool(ref: string)

  /** A child of a datacenter's host folder: a standalone compute resource
      with the references of its hosts (or the error reading them), or
      anything else (a cluster, a folder). */
  datatype Child = ComputeResource(ref: string, hosts: Result<seq<string>>) | OtherChild(ref: string)

  /** govmomi's find.NotFoundError text. */
  function NotFoundError(kind: string, path: string): string
  {
    kind + " '" + path + "' not found"
  }

  lemma NotFoundErrorSaysNotFound(kind: string, path: string)
    ensures Contains(NotFoundError(kind, path), "not found")
  {
    var s := NotFoundError(kind, path);
    assert s[|s| - |"not found"|..] == "not found";
    SuffixIsContained(s, "not found");
  }

  /** The hosts of a given name, in inventory order. */
  function HostsNamed(hs: seq<HostSystem>, name: string): (r: seq<HostSystem>)
    ensures forall i :: 0 <= i < |r| ==> r[i].name == name && r[i] in hs
  {
    if hs == [] then []
    else (if hs[0].name == name then [hs[0]] else []) + HostsNamed(hs[1..], name)
  }

  /** The hosts whose reference is not in `refs`. */
  function HostsOutside(hs: seq<HostSystem>, refs: seq<string>): (r: seq<HostSystem>)
    ensures forall i :: 0 <= i < |r| ==> r[i].ref !in refs && r[i] in hs
  {
    if hs == [] then []
    else (if hs[0].ref in refs then [] else [hs[0]]) + HostsOutside(hs[1..], refs)
  }

  /** The pools whose inventory path ends with `suffix`, in inventory order. */
  function PoolsEndingWith(ps: seq<PoolEntry>, suffix: string): (r: seq<PoolEntry>)
    ensures forall i :: 0 <= i < |r| ==> HasSuffix(r[i].inventoryPath, suffix) && r[i] in ps
  {
    if ps == [] then []
    else (if HasSuffix(ps[0].inventoryPath, suffix) then [ps[0]] else []) + PoolsEndingWith(ps[1..], suffix)
  }

  /** The pools at exactly `path`, in inventory order. */
  function PoolsAt(ps: seq<PoolEntry>, path: string): (r: seq<PoolEntry>)
    ensures forall i :: 0 <= i < |r| ==> r[i].inventoryPath == path && r[i] in ps
  {
    if ps == [] then []
    else (if ps[0].inventoryPath == path then [ps[0]] else []) + PoolsAt(ps[1..], path)
  }

  /** The hosts whose inventory path is not under `prefix`. */
  function HostsNotUnder(hs: seq<HostSystem>, prefix: string): (r: seq<HostSystem>)
    ensures forall i :: 0 <= i < |r| ==> !HasPrefix(r[i].inventoryPath, prefix) && r[i] in hs
    ensures forall h :: h in hs && !HasPrefix(h.inventoryPath, prefix) ==> h in r
  {
    if hs == [] then []
    else (if HasPrefix(hs[0].inventoryPath, prefix) then [] else [hs[0]]) + HostsNotUnder(hs[1..], prefix)
  }

  /** The pools whose inventory path is not under `prefix`. */
  function PoolsNotUnder(ps: seq<PoolEntry>, prefix: string): (r: seq<PoolEntry>)
    ensures forall i :: 0 <= i < |r| ==> !HasPrefix(r[i].inventoryPath, prefix) && r[i] in ps
    ensures forall p :: p in ps && !HasPrefix(p.inventoryPath, prefix) ==> p in r
  {
    if ps == [] then []
    else (if HasPrefix(ps[0].inventoryPath, prefix) then [] else [ps[0]]) + PoolsNotUnder(ps[1..], prefix)
  }

  /** The clusters of every datacenter but `datacenter`. */
  function ClustersOutside(clusters: map<(string, string), ClusterConfigInfo>, datacenter: string)
    : (r: map<(string, string), ClusterConfigInfo>)
    ensures forall k :: k in r <==> k in clusters && k.0 != datacenter
    ensures forall k :: k in r ==> r[k] == clusters[k]
  {
    map k | k in clusters && k.0 != datacenter :: clusters[k]
  }

  /** The inventory path prefix of everything in a datacenter. */
  function DatacenterPrefix(datacenter: string): string { "/" + datacenter + "/" }

  /** The inventory path prefix of the hosts and pools of a cluster. */
  function ClusterPrefix(datacenter: string, cluster: string): string
  {
    "/" + datacenter + "/host/" + cluster + "/"
  }

  /** The pools whose reference is not `ref`. */
  function PoolsWithout(ps: seq<PoolEntry>, ref: string): (r: seq<PoolEntry>)
    ensures forall i :: 0 <= i < |r| ==> r[i].ref != ref && r[i] in ps
  {
    if ps == [] then []
    else (if ps[0].ref == ref then [] else [ps[0]]) + PoolsWithout(ps[1..], ref)
  }

  /** vSphere applying an allocation to what a pool holds: every field the
      request sets replaces the current one (an int64 field is not sent
      while it is 0, a nil-able field while it is nil). */
  function MergeAllocation(current: Allocation, request: Allocation): (a: Allocation)
    ensures Complete(current) ==> Complete(a)
    ensures request.reservation != 0 ==> a.reservation == request.reservation
    ensures request.reservation == 0 ==> a.reservation == current.reservation
    ensures request.limit != 0 ==> a.limit == request.limit
    ensures request.limit == 0 ==> a.limit == current.limit
    ensures request.expandableReservation.Some? ==> a.expandableReservation == request.expandableReservation
    ensures request.expandableReservation.None? ==> a.expandableReservation == current.expandableReservation
    ensures request.shares.Some? ==> a.shares == request.shares
    ensures request.shares.None? ==> a.shares == current.shares
  {
    Allocation(
      if request.reservation != 0 then request.reservation else current.reservation,
      if request.limit != 0 then request.limit else current.limit,
      if request.expandableReservation.Some? then request.expandableReservation else current.expandableReservation,
      if request.shares.Some? then request.shares else current.shares)
  }

  function MergeSpec(current: ResourceConfigSpec, request: ResourceConfigSpec): ResourceConfigSpec
  {
    ResourceConfigSpec(
      MergeAllocation(current.cpuAllocation, request.cpuAllocation),
      MergeAllocation(current.memoryAllocation, request.memoryAllocation))
  }

  predicate CompleteSpec(s: ResourceConfigSpec) { Complete(s.cpuAllocation) && Complete(s.memoryAllocation) }

  /** The pools after a reconfigure of the pool `ref`. */
  function UpdatePools(ps: seq<PoolEntry>, ref: string, request: ResourceConfigSpec): (r: seq<PoolEntry>)
    ensures |r| == |ps|
    ensures forall i :: 0 <= i < |ps| ==>
      r[i].inventoryPath == ps[i].inventoryPath && r[i].ref == ps[i].ref &&
      r[i].config == (if ps[i].ref == ref then MergeSpec(ps[i].config, request) else ps[i].config)
  {
    if ps == [] then []
    else
      var p := ps[0];
      [if p.ref == ref then p.(config := MergeSpec(p.config, request)) else p] + UpdatePools(ps[1..], ref, request)
  }

  /** The path of the implicit root pool of a cluster or standalone host
      under a datacenter's host folder. */
  function ParentPoolPath(datacenter: string, parent: string): string
  {
    "/" + datacenter + "/host/" + parent + "/Resources"
  }

  class Endpoint {
    var datacenters: set<string>
    var clusters: map<(string, string), ClusterConfigInfo>
    var hosts: seq<HostSystem>
    var pools: seq<PoolEntry>
    /** Every state-changing request submitted, in order. */
    var log: seq<Mutation>
    /** What vSphere gives a new pool for what its create request leaves unset. */
    const poolDefaults: Allocation

    /** vSphere reports every pool's allocations in full. */
    ghost predicate Valid()
      reads this
    {
      Complete(poolDefaults) && forall i :: 0 <= i < |pools| ==> CompleteSpec(pools[i].config)
    }

    constructor (datacenters: set<string>, clusters: map<(string, string), ClusterConfigInfo>,
                 hosts: seq<HostSystem>, pools: seq<PoolEntry>, poolDefaults: Allocation)
      requires Complete(poolDefaults)
      requires forall i :: 0 <= i < |pools| ==> CompleteSpec(pools[i].config)
      ensures Valid() && this.log == []
      ensures this.datacenters == datacenters && this.clusters == clusters
      ensures this.hosts == hosts && this.pools == pools && this.poolDefaults == poolDefaults
    {
      this.datacenters, this.clusters, this.hosts, this.pools := datacenters, clusters, hosts, pools;
      this.poolDefaults := poolDefaults;
      this.log := [];
    }

    // ----- Lookups (govmomi's finder) -----

    /** finder.Datacenter */
    function FindDatacenter(name: string): (r: Result<string>)
      reads this
      ensures r.Ok? <==> name in datacenters
      ensures r.Err? ==> Contains(r.msg, "not found")
    {
      if name in datacenters then Ok(name)
      else NotFoundErrorSaysNotFound("datacenter", name); Err(NotFoundError("datacenter", name))
    }

    /** finder.Cluster, with the finder anchored at `datacenter`. */
    function FindCluster(datacenter: string, name: string): (r: Result<ClusterConfigInfo>)
      reads this
      ensures r.Ok? <==> (datacenter, name) in clusters
      ensures r.Ok? ==> r.value == clusters[(datacenter, name)]
    {
      if (datacenter, name) in clusters then Ok(clusters[(datacenter, name)])
      else Err(NotFoundError("cluster", name))
    }

    /** finder.HostSystem on the pattern `*` + "/" + name: exactly one host of
        that name, or an error. */
    function FindHostSystem(name: string): (r: Result<HostSystem>)
      reads this
      ensures r.Ok? ==> r.value in hosts && r.value.name == name
      ensures r.Ok? <==> |HostsNamed(hosts, name)| == 1
    {
      var matches := HostsNamed(hosts, name);
      if |matches| == 0 then Err(NotFoundError("host", "*/" + name))
      else if |matches| > 1 then Err("path '*/" + name + "' resolves to multiple hosts")
      else Ok(matches[0])
    }

    /** finder.ResourcePoolList on the pattern `*` + "/Resources/" + name. */
    function ResourcePoolList(name: string): (r: Result<seq<PoolEntry>>)
      reads this
      ensures r.Ok? ==> |r.value| > 0 && forall i :: 0 <= i < |r.value| ==> r.value[i] in pools
      ensures r.Err? ==> Contains(r.msg, "not found")
    {
      var matches := PoolsEndingWith(pools, "/Resources/" + name);
      if |matches| == 0 then
        NotFoundErrorSaysNotFound("resource pool", "*/Resources/" + name);
        Err(NotFoundError("resource pool", "*/Resources/" + name))
      else Ok(matches)
    }

    /** finder.ResourcePool on the parent's root pool. */
    function FindParentPool(datacenter: string, parent: string): (r: Result<PoolEntry>)
      reads this
      ensures r.Ok? ==> r.value in pools && r.value.inventoryPath == ParentPoolPath(datacenter, parent)
    {
      var matches := PoolsAt(pools, ParentPoolPath(datacenter, parent));
      if |matches| > 0 then Ok(matches[0])
      else Err(NotFoundError("resource pool", "/" + datacenter + "/*/" + parent + "/Resources"))
    }

    // ----- State-changing requests -----

    method SubmitCreateDatacenter(name: string, reply: Submission)
      modifies this
      ensures log == old(log) + [CreateDatacenter(name)]
      ensures datacenters == if Succeeded(reply) then old(datacenters) + {name} else old(datacenters)
      ensures clusters == old(clusters) && hosts == old(hosts) && pools == old(pools)
    {
      log := log + [CreateDatacenter(name)];
      if Succeeded(reply) {
        datacenters := datacenters + {name};
      }
    }

    /** Destroying a datacenter removes it with everything in it: its
        clusters, and the hosts and pools under its inventory path. */
    method SubmitDestroyDatacenter(name: string, reply: Submission)
      requires Valid()
      modifies this
      ensures Valid()
      ensures log == old(log) + [DestroyDatacenter(name)]
      ensures datacenters == if Succeeded(reply) then old(datacenters) - {name} else old(datacenters)
      ensures clusters == if Succeeded(reply) then ClustersOutside(old(clusters), name) else old(clusters)
      ensures hosts == if Succeeded(reply) then HostsNotUnder(old(hosts), DatacenterPrefix(name)) else old(hosts)
      ensures pools == if Succeeded(reply) then PoolsNotUnder(old(pools), DatacenterPrefix(name)) else old(pools)
    {
      log := log + [DestroyDatacenter(name)];
      if Succeeded(reply) {
        datacenters := datacenters - {name};
        clusters := ClustersOutside(clusters, name);
        hosts := HostsNotUnder(hosts, DatacenterPrefix(name));
        pools := PoolsNotUnder(pools, DatacenterPrefix(name));
      }
    }

    method SubmitCreateCluster(datacenter: string, name: string, reply: Submission)
      modifies this
      ensures log == old(log) + [CreateCluster(datacenter, name)]
      ensures clusters == if Succeeded(reply) then old(clusters)[(datacenter, name) := NewClusterConfig] else old(clusters)
      ensures datacenters == old(datacenters) && hosts == old(hosts) && pools == old(pools)
    {
      log := log + [CreateCluster(datacenter, name)];
      if Succeeded(reply) {
        clusters := clusters[(datacenter, name) := NewClusterConfig];
      }
    }

    method SubmitReconfigureCluster(datacenter: string, name: string, spec: ClusterConfigSpec, reply: Submission)
      requires (datacenter, name) in clusters
      modifies this
      ensures log == old(log) + [ReconfigureCluster(datacenter, name, spec)]
      ensures clusters == if Succeeded(reply)
        then old(clusters)[(datacenter, name) := ApplyClusterSpec(old(clusters)[(datacenter, name)], spec)]
        else old(clusters)
      ensures datacenters == old(datacenters) && hosts == old(hosts) && pools == old(pools)
    {
      log := log + [ReconfigureCluster(datacenter, name, spec)];
      if Succeeded(reply) {
        clusters := clusters[(datacenter, name) := ApplyClusterSpec(clusters[(datacenter, name)], spec)];
      }
    }

    /** Destroying a cluster removes it with its hosts and its pools. */
    method SubmitDestroyCluster(datacenter: string, name: string, reply: Submission)
      requires Valid()
      modifies this
      ensures Valid()
      ensures log == old(log) + [DestroyCluster(datacenter, name)]
      ensures clusters == if Succeeded(reply) then old(clusters) - {(datacenter, name)} else old(clusters)
      ensures hosts == if Succeeded(reply) then HostsNotUnder(old(hosts), ClusterPrefix(datacenter, name)) else old(hosts)
      ensures pools == if Succeeded(reply) then PoolsNotUnder(old(pools), ClusterPrefix(datacenter, name)) else old(pools)
      ensures datacenters == old(datacenters)
    {
      log := log + [DestroyCluster(datacenter, name)];
      if Succeeded(reply) {
        clusters := clusters - {(datacenter, name)};
        hosts := HostsNotUnder(hosts, ClusterPrefix(datacenter, name));
        pools := PoolsNotUnder(pools, ClusterPrefix(datacenter, name));
      }
    }

    /** AddHost on a cluster, or AddStandaloneHost on the datacenter's host
        folder; vSphere files a new host under the cluster, or under a new
        standalone compute resource named after the host. */
    method SubmitAddHost(datacenter: string, cluster: Option<string>, spec: HostConnectSpec, license: Option<string>,
                         reply: Submission, newRef: string)
      modifies this
      ensures log == old(log) + [AddHost(datacenter, cluster, spec, license)]
      ensures hosts == if Succeeded(reply)
        then old(hosts) + [HostSystem(spec.hostName, ExpectedHostPath(datacenter, spec.hostName, cluster), newRef)]
        else old(hosts)
      ensures datacenters == old(datacenters) && clusters == old(clusters) && pools == old(pools)
    {
      log := log + [AddHost(datacenter, cluster, spec, license)];
      if Succeeded(reply) {
        hosts := hosts + [HostSystem(spec.hostName, ExpectedHostPath(datacenter, spec.hostName, cluster), newRef)];
      }
    }

    /** Destroying a standalone compute resource removes its hosts. */
    method SubmitDestroyComputeResource(child: Child, reply: Submission)
      requires child.ComputeResource? && child.hosts.Ok?
      modifies this
      ensures log == old(log) + [DestroyComputeResource(child.ref)]
      ensures hosts == if Succeeded(reply) then HostsOutside(old(hosts), child.hosts.value) else old(hosts)
      ensures datacenters == old(datacenters) && clusters == old(clusters) && pools == old(pools)
    {
      log := log + [DestroyComputeResource(child.ref)];
      if Succeeded(reply) {
        hosts := HostsOutside(hosts, child.hosts.value);
      }
    }

    method SubmitCreateResourcePool(parent: PoolEntry, name: string, spec: ResourceConfigSpec,
                                    reply: Submission, newRef: string) returns (created: PoolEntry)
      requires Valid()
      modifies this
      ensures Valid()
      ensures log == old(log) + [CreateResourcePool(parent.ref, name, spec)]
      ensures created == PoolEntry(parent.inventoryPath + "/" + name, newRef,
                                   MergeSpec(ResourceConfigSpec(poolDefaults, poolDefaults), spec))
      ensures pools == if Succeeded(reply) then old(pools) + [created] else old(pools)
      ensures datacenters == old(datacenters) && clusters == old(clusters) && hosts == old(hosts)
    {
      log := log + [CreateResourcePool(parent.ref, name, spec)];
      created := PoolEntry(parent.inventoryPath + "/" + name, newRef,
                           MergeSpec(ResourceConfigSpec(poolDefaults, poolDefaults), spec));
      if Succeeded(reply) {
        pools := pools + [created];
      }
    }

    method SubmitUpdateResourcePool(ref: string, name: string, spec: ResourceConfigSpec, reply: Submission)
      requires Valid()
      modifies this
      ensures Valid()
      ensures log == old(log) + [UpdateResourcePool(ref, name, spec)]
      ensures pools == if Succeeded(reply) then UpdatePools(old(pools), ref, spec) else old(pools)
      ensures datacenters == old(datacenters) && clusters == old(clusters) && hosts == old(hosts)
    {
      log := log + [UpdateResourcePool(ref, name, spec)];
      if Succeeded(reply) {
        pools := UpdatePools(pools, ref, spec);
      }
    }

    method SubmitDestroyResourcePool(ref: string, reply: Submission)
      requires Valid()
      modifies this
      ensures Valid()
      ensures log == old(log) + [DestroyResourcePool(ref)]
      ensures pools == if Succeeded(reply) then PoolsWithout(old(pools), ref) else old(pools)
      ensures datacenters == old(datacenters) && clusters == old(clusters) && hosts == old(hosts)
    {
      log := log + [DestroyResourcePool(ref)];
      if Succeeded(reply) {
        pools := PoolsWithout(pools, ref);
      }
    }
  }
}
