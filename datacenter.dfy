/** The vsphere_datacenter reconciler (vsphere/resource_vsphere_datacenter.go):
    adopt or create under the root folder, read back by Id, destroy. */
module Datacenter {
  import opened Wrappers
  import opened Remote

  /** The ResourceData of a vsphere_datacenter: the declared name and the
      recorded Id. */
  class DatacenterData {
    const name: string
    var id: string

    constructor (name: string, id: string)
      ensures this.name == name && this.id == id
    {
      this.name, this.id := name, id;
    }
  }

  /** resourceVsphereDatacenterRead: the datacenter is looked up by the
      recorded Id; when it is gone the Id is cleared, and the error then
      names the cleared Id. */
  method Read(d: DatacenterData, ep: Endpoint) returns (err: Option<string>)
    modifies d
    ensures old(d.id) in ep.datacenters ==> err.None? && d.id == old(d.id)
    ensures old(d.id) !in ep.datacenters ==> d.id == "" && err == Some("datacenter '' not found")
  {
    var found := ep.FindDatacenter(d.id);
    if found.Err? {
      d.id := "";
      assert "datacenter '" + d.id + "' not found" == "datacenter '' not found";
      return Some("datacenter '" + d.id + "' not found");
    }
    return None;
  }

  /** resourceVsphereDatacenterCreate: a datacenter of the declared name is
      adopted; otherwise CreateDatacenter is requested under the root folder,
      and its failure clears the Id. On success the Id is the name and the
      datacenter is read back. */
  method Create(d: DatacenterData, ep: Endpoint, reply: Submission) returns (err: Option<string>)
    modifies d, ep
    ensures d.name in old(ep.datacenters) ==>
      ep.log == old(ep.log) && ep.datacenters == old(ep.datacenters) && d.id == d.name && err.None?
    ensures d.name !in old(ep.datacenters) ==> ep.log == old(ep.log) + [CreateDatacenter(d.name)]
    ensures d.name !in old(ep.datacenters) && Succeeded(reply) ==>
      ep.datacenters == old(ep.datacenters) + {d.name} && d.id == d.name && err.None?
    ensures d.name !in old(ep.datacenters) && !Succeeded(reply) ==>
      ep.datacenters == old(ep.datacenters) && d.id == "" && err == Some("error creating datacenter ''")
    ensures ep.clusters == old(ep.clusters) && ep.hosts == old(ep.hosts) && ep.pools == old(ep.pools)
  {
    var existing := ep.FindDatacenter(d.name);
    if existing.Err? {
      ep.SubmitCreateDatacenter(d.name, reply);
      if !Succeeded(reply) {
        d.id := "";
        assert "error creating datacenter '" + d.id + "'" == "error creating datacenter ''";
        return Some("error creating datacenter '" + d.id + "'");
      }
    }
    d.id := d.name;
    err := Read(d, ep);
  }

  /** resourceVsphereDatacenterDelete: there is no retain flag; a datacenter
      found by Id is always destroyed, with everything in it. */
  method Delete(d: DatacenterData, ep: Endpoint, reply: Submission) returns (err: Option<string>)
    requires ep.Valid()
    modifies ep
    ensures ep.Valid()
    ensures d.id !in old(ep.datacenters) ==>
      && ep.log == old(ep.log) && ep.datacenters == old(ep.datacenters)
      && ep.clusters == old(ep.clusters) && ep.hosts == old(ep.hosts) && ep.pools == old(ep.pools)
      && err == Some("datacenter to delete '" + d.id + "' not found")
    ensures d.id in old(ep.datacenters) ==>
      var prefix := DatacenterPrefix(d.id);
      && ep.log == old(ep.log) + [DestroyDatacenter(d.id)]
      && err == (if Succeeded(reply) then None else Some(SubmissionError(reply)))
      && ep.datacenters == (if Succeeded(reply) then old(ep.datacenters) - {d.id} else old(ep.datacenters))
      && ep.clusters == (if Succeeded(reply) then ClustersOutside(old(ep.clusters), d.id) else old(ep.clusters))
      && ep.hosts == (if Succeeded(reply) then HostsNotUnder(old(ep.hosts), prefix) else old(ep.hosts))
      && ep.pools == (if Succeeded(reply) then PoolsNotUnder(old(ep.pools), prefix) else old(ep.pools))
  {
    var found := ep.FindDatacenter(d.id);
    if found.Err? {
      return Some("datacenter to delete '" + d.id + "' not found");
    }
    ep.SubmitDestroyDatacenter(d.id, reply);
    if !Succeeded(reply) {
      return Some(SubmissionError(reply));
    }
    return None;
  }
}
