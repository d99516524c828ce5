/** The vsphere_cluster reconciler (vsphere/resource_vsphere_cluster.go):
    find under the datacenter, create empty if absent, converge DRS and HA
    with one reconfigure request, read the facets back, destroy. */
module Cluster {
  import opened Wrappers
  import opened ClusterConfig
  import opened Remote

  /** The ResourceData of a vsphere_cluster: the declared attributes, the
      recorded Id, and the `drs` and `ha` blocks Read writes into state. */
  class ClusterData {
    const name: string
    const datacenterId: string
    const drs: seq<DrsSection>
    const ha: seq<HaSection>
    var id: string
    var drsState: seq<map<string, string>>
    var haState: seq<map<string, string>>

    constructor (name: string, datacenterId: string, drs: seq<DrsSection>, ha: seq<HaSection>, id: string)
      ensures this.name == name && this.datacenterId == datacenterId && this.drs == drs && this.ha == ha
      ensures this.id == id && drsState == [] && haState == []
    {
      this.name, this.datacenterId, this.drs, this.ha, this.id := name, datacenterId, drs, ha, id;
      drsState, haState := [], [];
    }
  }

  /** findCluster: clusterFinder anchors the finder at the declared
      datacenter, then the cluster is looked up by the recorded Id. */
  function FindCluster(d: ClusterData, ep: Endpoint): (r: Result<ClusterConfigInfo>)
    reads d, ep
    ensures r.Ok? <==> d.datacenterId in ep.datacenters && (d.datacenterId, d.id) in ep.clusters
    ensures r.Ok? ==> r.value == ep.clusters[(d.datacenterId, d.id)]
  {
    match ep.FindDatacenter(d.datacenterId)
    case Err(m) => Err(m)
    case Ok(dc) => ep.FindCluster(dc, d.id)
  }

  /** The requests an Update submits once the cluster is found: one
      reconfigure carrying both translated facets, or none when either
      translation fails. */
  function ReconfigureRequests(datacenter: string, id: string, drs: seq<DrsSection>, ha: seq<HaSection>): seq<Mutation>
  {
    match ClusterSpec(drs, ha)
    case Ok(spec) => [ReconfigureCluster(datacenter, id, spec)]
    case Err(_) => []
  }

  /** resourceVsphereClusterUpdate: both facets are translated before the
      reconfigure is submitted, so a translation error submits nothing. */
  method Update(d: ClusterData, ep: Endpoint, reply: Submission) returns (err: Option<string>)
    modifies ep
    ensures old(FindCluster(d, ep)).Err? ==>
      ep.log == old(ep.log) && ep.clusters == old(ep.clusters) && err == Some(old(FindCluster(d, ep)).msg)
    ensures old(FindCluster(d, ep)).Ok? && ClusterSpec(d.drs, d.ha).Err? ==>
      ep.log == old(ep.log) && ep.clusters == old(ep.clusters) && err == Some(ClusterSpec(d.drs, d.ha).msg)
    ensures old(FindCluster(d, ep)).Ok? && ClusterSpec(d.drs, d.ha).Ok? ==>
      var key := (d.datacenterId, d.id);
      && ep.log == old(ep.log) + [ReconfigureCluster(d.datacenterId, d.id, ClusterSpec(d.drs, d.ha).value)]
      && err == (if Succeeded(reply) then None else Some(SubmissionError(reply)))
      && ep.clusters == if Succeeded(reply)
           then old(ep.clusters)[key := ApplyClusterSpec(old(ep.clusters)[key], ClusterSpec(d.drs, d.ha).value)]
           else old(ep.clusters)
    ensures ep.datacenters == old(ep.datacenters) && ep.hosts == old(ep.hosts) && ep.pools == old(ep.pools)
  {
    var found := FindCluster(d, ep);
    if found.Err? {
      return Some(found.msg);
    }
    var drsConfig := GetClusterDrsConfigInfo(d.drs);
    if drsConfig.Err? {
      return Some(drsConfig.msg);
    }
    var dasConfig := GetClusterDasConfigInfo(d.ha);
    if dasConfig.Err? {
      return Some(dasConfig.msg);
    }
    var spec := ClusterConfigSpec(drsConfig.value, dasConfig.value);
    ep.SubmitReconfigureCluster(d.datacenterId, d.id, spec, reply);
    if !Succeeded(reply) {
      return Some(SubmissionError(reply));
    }
    return None;
  }

  /** resourceVsphereClusterCreate: when no cluster of the declared name
      exists, an empty one is created in the datacenter's host folder (a
      failure clears the Id); then the Id is the name and Update always
      runs. A create that ends without error leaves a cluster whose facets
      read back as the declared blocks. */
  method Create(d: ClusterData, ep: Endpoint, createReply: Submission, reconfigureReply: Submission)
    returns (err: Option<string>)
    modifies d, ep
    ensures ep.datacenters == old(ep.datacenters) && ep.hosts == old(ep.hosts) && ep.pools == old(ep.pools)
    ensures d.drsState == old(d.drsState) && d.haState == old(d.haState)
    ensures d.datacenterId !in old(ep.datacenters) ==>
      d.id == "" && err == Some(old(ep.FindDatacenter(d.datacenterId)).msg) &&
      ep.log == old(ep.log) && ep.clusters == old(ep.clusters)
    ensures d.datacenterId in old(ep.datacenters) ==>
      var key := (d.datacenterId, d.name);
      var creates := if key in old(ep.clusters) then [] else [CreateCluster(d.datacenterId, d.name)];
      var spec := ClusterSpec(d.drs, d.ha);
      if key in old(ep.clusters) || Succeeded(createReply) then
        var base := if key in old(ep.clusters) then old(ep.clusters)[key] else NewClusterConfig;
        && d.id == d.name
        && ep.log == old(ep.log) + creates + ReconfigureRequests(d.datacenterId, d.name, d.drs, d.ha)
        && (spec.Ok? ==>
              err == (if Succeeded(reconfigureReply) then None else Some(SubmissionError(reconfigureReply))))
        && (spec.Err? ==> err == Some(spec.msg))
        && ep.clusters == old(ep.clusters)[key :=
             if spec.Ok? && Succeeded(reconfigureReply) then ApplyClusterSpec(base, spec.value) else base]
      else
        d.id == "" && err == Some(SubmissionError(createReply)) &&
        ep.log == old(ep.log) + creates && ep.clusters == old(ep.clusters)
    ensures err.None? ==>
      && (d.datacenterId, d.name) in ep.clusters
      && var c := ep.clusters[(d.datacenterId, d.name)];
      && (|d.drs| == 1 ==> ReadDrsSection(c.drsConfig) == Some(DrsState(d.drs[0])))
      && (|d.ha| == 1 ==> ReadHaSection(c.dasConfig) == Some(HaState(d.ha[0])))
  {
    var dc := ep.FindDatacenter(d.datacenterId);
    if dc.Err? {
      d.id := "";
      return Some(dc.msg);
    }
    var existing := ep.FindCluster(d.datacenterId, d.name);
    if existing.Err? {
      ep.SubmitCreateCluster(d.datacenterId, d.name, createReply);
      if !Succeeded(createReply) {
        d.id := "";
        return Some(SubmissionError(createReply));
      }
    }
    ghost var base := ep.clusters[(d.datacenterId, d.name)];
    d.id := d.name;
    err := Update(d, ep, reconfigureReply);
    if err.None? {
      if |d.drs| == 1 {
        assert d.drs == [d.drs[0]];
        DrsRoundTrip(d.drs[0], base, d.ha);
      }
      if |d.ha| == 1 {
        assert d.ha == [d.ha[0]];
        HaRoundTrip(d.ha[0], base, d.drs);
      }
    }
  }

  /** resourceVsphereClusterRead: a cluster that is gone clears the Id; an
      enabled facet is written as a single block, a disabled one leaves the
      state untouched. */
  method Read(d: ClusterData, ep: Endpoint) returns (err: Option<string>)
    modifies d
    ensures old(FindCluster(d, ep)).Err? ==>
      d.id == "" && err == Some(old(FindCluster(d, ep)).msg) &&
      d.drsState == old(d.drsState) && d.haState == old(d.haState)
    ensures old(FindCluster(d, ep)).Ok? ==>
      var config := old(FindCluster(d, ep)).value;
      && d.id == old(d.id) && err.None?
      && d.drsState == (if config.drsConfig.enabled then [ReadDrsSection(config.drsConfig).value] else old(d.drsState))
      && d.haState == (if config.dasConfig.enabled then [ReadHaSection(config.dasConfig).value] else old(d.haState))
  {
    var found := FindCluster(d, ep);
    if found.Err? {
      d.id := "";
      return Some(found.msg);
    }
    var config := found.value;
    var drs := ReadDrsSection(config.drsConfig);
    if drs.Some? {
      d.drsState := [drs.value];
    }
    var ha := ReadHaSection(config.dasConfig);
    if ha.Some? {
      d.haState := [ha.value];
    }
    return None;
  }

  /** resourceVsphereClusterDelete: there is no retain check; the cluster
      found by Id is always destroyed, and its hosts and pools with it. */
  method Delete(d: ClusterData, ep: Endpoint, reply: Submission) returns (err: Option<string>)
    requires ep.Valid()
    modifies ep
    ensures ep.Valid()
    ensures old(FindCluster(d, ep)).Err? ==>
      ep.log == old(ep.log) && ep.clusters == old(ep.clusters) && ep.hosts == old(ep.hosts) &&
      ep.pools == old(ep.pools) && err == Some(old(FindCluster(d, ep)).msg)
    ensures old(FindCluster(d, ep)).Ok? ==>
      var prefix := ClusterPrefix(d.datacenterId, d.id);
      && ep.log == old(ep.log) + [DestroyCluster(d.datacenterId, d.id)]
      && err == (if Succeeded(reply) then None else Some(SubmissionError(reply)))
      && ep.clusters == (if Succeeded(reply) then old(ep.clusters) - {(d.datacenterId, d.id)} else old(ep.clusters))
      && ep.hosts == (if Succeeded(reply) then HostsNotUnder(old(ep.hosts), prefix) else old(ep.hosts))
      && ep.pools == (if Succeeded(reply) then PoolsNotUnder(old(ep.pools), prefix) else old(ep.pools))
    ensures ep.datacenters == old(ep.datacenters)
  {
    var found := FindCluster(d, ep);
    if found.Err? {
      return Some(found.msg);
    }
    ep.SubmitDestroyCluster(d.datacenterId, d.id, reply);
    if !Succeeded(reply) {
      return Some(SubmissionError(reply));
    }
    return None;
  }
}
