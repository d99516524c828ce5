/** The vsphere_host reconciler (vsphere/resource_vsphere_host.go): find
    the host at its expected path, add it to a cluster or as a standalone
    host (retrying once with the certificate's thumbprint when asked to),
    read back its reference, and remove a standalone host by destroying a
    compute resource of the datacenter's host folder. */
module Host {
  import opened Wrappers
  import opened Text
  import opened Paths
  import opened Remote

  /** The ResourceData of a vsphere_host: the declared attributes, the
      recorded Id and the computed object_id. */
  class HostData {
    const host: string
    const datacenterId: string
    const clusterId: string
    const user: string
    const password: string
    const license: string
    const sslNoVerify: bool
    const keep: bool
    var id: string
    var objectId: string

    constructor (host: string, datacenterId: string, clusterId: string, user: string, password: string,
                 license: string, sslNoVerify: bool, keep: bool, id: string, objectId: string)
      ensures this.host == host && this.datacenterId == datacenterId && this.clusterId == clusterId
      ensures this.user == user && this.password == password && this.license == license
      ensures this.sslNoVerify == sslNoVerify && this.keep == keep
      ensures this.id == id && this.objectId == objectId
    {
      this.host, this.datacenterId, this.clusterId := host, datacenterId, clusterId;
      this.user, this.password, this.license := user, password, license;
      this.sslNoVerify, this.keep := sslNoVerify, keep;
      this.id, this.objectId := id, objectId;
    }
  }

  /** cluster_id as findHost passes it on: nil unless set. */
  function ClusterName(d: HostData): (c: Option<string>)
    ensures c.Some? <==> d.clusterId != ""
    ensures c.Some? ==> c.value == d.clusterId
  {
    if d.clusterId != "" then Some(d.clusterId) else None
  }

  /** findHost: the finder is anchored at the declared datacenter, then
      getHost searches for the host by name. The Id plays no part. */
  function FindHost(d: HostData, ep: Endpoint): (r: HostLookup)
    reads ep
    ensures d.datacenterId !in ep.datacenters ==> r.LookupFailed?
    ensures d.datacenterId in ep.datacenters ==> r == GetHost(d.host, d.datacenterId, ClusterName(d), ep.FindHostSystem(d.host))
  {
    match ep.FindDatacenter(d.datacenterId)
    case Err(m) => LookupFailed(m)
    case Ok(_) => GetHost(d.host, d.datacenterId, ClusterName(d), ep.FindHostSystem(d.host))
  }

  /** Only a host found at the wrong path yields an error starting with
      "found host": a failed lookup never does. */
  lemma LookupErrorIsNotAMismatch(d: HostData, ep: Endpoint)
    requires FindHost(d, ep).LookupFailed?
    ensures !HasPrefix(FindHost(d, ep).msg, "found host")
  {
    var msg := FindHost(d, ep).msg;
    if d.datacenterId !in ep.datacenters {
      assert msg == NotFoundError("datacenter", d.datacenterId);
      assert msg[0] == 'd';
    } else if |HostsNamed(ep.hosts, d.host)| == 0 {
      assert msg == NotFoundError("host", "*/" + d.host);
      assert msg[0] == 'h';
    } else {
      assert msg == "path '*/" + d.host + "' resolves to multiple hosts";
      assert msg[0] == 'p';
    }
  }

  // ----- Connecting a host -----

  /** The HostConnectSpec of the first attempt: forced, without thumbprint. */
  function ConnectSpec(d: HostData): HostConnectSpec
  {
    HostConnectSpec(true, d.host, d.user, d.password, "")
  }

  /** The license key passed along, nil unless set. */
  function License(d: HostData): (lic: Option<string>)
    ensures lic.Some? <==> d.license != ""
    ensures lic.Some? ==> lic.value == d.license
  {
    if d.license != "" then Some(d.license) else None
  }

  /** The retry condition: ssl_no_verify is set and the first task failed
      with the certificate fault. */
  predicate RetryWithThumbprint(sslNoVerify: bool, first: Submission)
  {
    sslNoVerify && first.Accepted? && first.outcome.SSLVerifyFault?
  }

  /** The connect specs submitted, in order. */
  function ConnectAttempts(spec: HostConnectSpec, sslNoVerify: bool, first: Submission): (r: seq<HostConnectSpec>)
    ensures 1 <= |r| <= 2 && r[0] == spec
    ensures |r| == 2 <==> RetryWithThumbprint(sslNoVerify, first)
    ensures |r| == 2 ==> r[1] == spec.(sslThumbprint := first.outcome.thumbprint)
  {
    if RetryWithThumbprint(sslNoVerify, first) then [spec, spec.(sslThumbprint := first.outcome.thumbprint)]
    else [spec]
  }

  /** The error the add ends with, if any. */
  function ConnectError(sslNoVerify: bool, first: Submission, second: Submission): (r: Option<string>)
    ensures r.None? <==> Succeeded(first) || (RetryWithThumbprint(sslNoVerify, first) && Succeeded(second))
    ensures r.Some? && RetryWithThumbprint(sslNoVerify, first) ==> r.value == SubmissionError(second)
    ensures r.Some? && !RetryWithThumbprint(sslNoVerify, first) ==> r.value == SubmissionError(first)
  {
    if Succeeded(first) then None
    else if RetryWithThumbprint(sslNoVerify, first) then
      if Succeeded(second) then None else Some(SubmissionError(second))
    else Some(SubmissionError(first))
  }

  /** The AddHost requests for a sequence of connect specs. */
  function AddHostRequests(datacenter: string, cluster: Option<string>, specs: seq<HostConnectSpec>, license: Option<string>)
    : (r: seq<Mutation>)
    ensures |r| == |specs|
    ensures forall i :: 0 <= i < |r| ==> r[i] == AddHost(datacenter, cluster, specs[i], license)
  {
    if specs == [] then []
    else [AddHost(datacenter, cluster, specs[0], license)] + AddHostRequests(datacenter, cluster, specs[1..], license)
  }

  /** The host vSphere files for a successful add. */
  function NewHost(d: HostData, newRef: string): HostSystem
  {
    HostSystem(d.host, ExpectedHostPath(d.datacenterId, d.host, ClusterName(d)), newRef)
  }

  /** A certificate fault without ssl_no_verify fails the add at once, with
      the fault's message. */
  lemma UnverifiedCertificateFailsAtOnce(spec: HostConnectSpec, thumbprint: string, second: Submission)
    ensures var first := Accepted(SSLVerifyFault(thumbprint));
      ConnectAttempts(spec, false, first) == [spec] &&
      ConnectError(false, first, second) == Some("Authenticity of the host's SSL certificate is not verified.")
  {
  }

  /** The retry is bounded: two certificate faults in a row with
      ssl_no_verify set give exactly two connect attempts and the fault's
      message. */
  lemma TwoCertificateFaultsStopAfterTwoAttempts(spec: HostConnectSpec, t1: string, t2: string)
    ensures var first, second := Accepted(SSLVerifyFault(t1)), Accepted(SSLVerifyFault(t2));
      |ConnectAttempts(spec, true, first)| == 2 &&
      ConnectError(true, first, second) == Some("Authenticity of the host's SSL certificate is not verified.")
  {
  }

  /** A host added after a failed first attempt was added by the second
      attempt, which carried the thumbprint from the first fault. */
  lemma RetrySucceedsOnlyWithPinnedThumbprint(spec: HostConnectSpec, sslNoVerify: bool, first: Submission, second: Submission)
    requires !Succeeded(first) && ConnectError(sslNoVerify, first, second).None?
    ensures var attempts := ConnectAttempts(spec, sslNoVerify, first);
      |attempts| == 2 && attempts[1].sslThumbprint == first.outcome.thumbprint && Succeeded(second)
  {
  }

  /** The add of host.go's create, shared by the cluster and the standalone
      path: submit, and on a certificate fault with ssl_no_verify set,
      submit once more with the thumbprint the fault reported. */
  method AddHostWithRetry(ep: Endpoint, datacenter: string, cluster: Option<string>, spec: HostConnectSpec,
                          license: Option<string>, sslNoVerify: bool, first: Submission, second: Submission,
                          newRef: string)
    returns (err: Option<string>)
    modifies ep
    ensures ep.log == old(ep.log) + AddHostRequests(datacenter, cluster, ConnectAttempts(spec, sslNoVerify, first), license)
    ensures err == ConnectError(sslNoVerify, first, second)
    ensures ep.hosts == if err.None?
      then old(ep.hosts) + [HostSystem(spec.hostName, ExpectedHostPath(datacenter, spec.hostName, cluster), newRef)]
      else old(ep.hosts)
    ensures ep.datacenters == old(ep.datacenters) && ep.clusters == old(ep.clusters) && ep.pools == old(ep.pools)
  {
    ep.SubmitAddHost(datacenter, cluster, spec, license, first, newRef);
    if Succeeded(first) {
      return None;
    }
    if sslNoVerify && first.Accepted? && first.outcome.SSLVerifyFault? {
      var pinned := spec.(sslThumbprint := first.outcome.thumbprint);
      ep.SubmitAddHost(datacenter, cluster, pinned, license, second, newRef);
      if Succeeded(second) {
        return None;
      }
      return Some(SubmissionError(second));
    }
    return Some(SubmissionError(first));
  }

  /** The hosts of a name, after one more host is appended. */
  lemma {:induction false} HostsNamedAppend(hs: seq<HostSystem>, h: HostSystem, name: string)
    ensures HostsNamed(hs + [h], name) == HostsNamed(hs, name) + (if h.name == name then [h] else [])
  {
    if hs == [] {
      assert hs + [h] == [h];
      assert [h][1..] == [];
    } else {
      assert (hs + [h])[0] == hs[0];
      assert (hs + [h])[1..] == hs[1..] + [h];
      HostsNamedAppend(hs[1..], h, name);
    }
  }

  /** A host added where none of its name existed is found at its expected
      path afterwards. */
  lemma AddedHostIsFound(d: HostData, ep: Endpoint, hostsBefore: seq<HostSystem>, newRef: string)
    requires d.datacenterId in ep.datacenters
    requires HostsNamed(hostsBefore, d.host) == []
    requires ep.hosts == hostsBefore + [NewHost(d, newRef)]
    ensures FindHost(d, ep) == Found(NewHost(d, newRef))
  {
    HostsNamedAppend(hostsBefore, NewHost(d, newRef), d.host);
    assert HostsNamed(ep.hosts, d.host) == [NewHost(d, newRef)];
  }

  /** What findHost hands back: the host, or nil together with the error.
      A host getHost found at the wrong path is dropped with its error. */
  function FindHostReturn(d: HostData, ep: Endpoint): (r: (Option<HostSystem>, Option<string>))
    reads ep
    ensures r.0.Some? <==> r.1.None?
    ensures r.0.Some? <==> FindHost(d, ep).Found?
    ensures r.1.Some? ==> r.1.value == FindHost(d, ep).msg
  {
    match FindHost(d, ep)
    case Found(h) => (Some(h), None)
    case Mismatch(_, m) => (None, Some(m))
    case LookupFailed(m) => (None, Some(m))
  }

  /** As written, create's "found host" branch logs the inventory path of
      the host findHost returned, and for a host at the wrong path that
      host is nil. */
  lemma MismatchBranchHasNoHost(d: HostData, ep: Endpoint)
    requires FindHost(d, ep).Mismatch?
    ensures var (host, err) := FindHostReturn(d, ep);
      err.Some? && HasPrefix(err.value, "found host") && host.None?
  {
  }

  /** Whether the finder and, for a clustered host, the cluster resolve. */
  predicate CanAdd(d: HostData, ep: Endpoint)
    reads ep
  {
    d.datacenterId in ep.datacenters && (d.clusterId != "" ==> (d.datacenterId, d.clusterId) in ep.clusters)
  }

  // ----- The reconciler -----

  /** resourceVsphereHostRead: a host that cannot be found at its expected
      path clears the Id; otherwise its reference becomes object_id. */
  method Read(d: HostData, ep: Endpoint) returns (err: Option<string>)
    modifies d
    ensures FindHost(d, ep).Found? ==> err.None? && d.id == old(d.id) && d.objectId == FindHost(d, ep).host.ref
    ensures !FindHost(d, ep).Found? ==>
      err == Some(FindHost(d, ep).msg) && d.id == "" && d.objectId == old(d.objectId)
  {
    var found := FindHost(d, ep);
    if !found.Found? {
      d.id := "";
      return Some(found.msg);
    }
    d.objectId := found.host.ref;
    return None;
  }

  /** resourceVsphereHostCreate: a host found elsewhere is an error and a
      host found in place is adopted; otherwise the host is added to the
      cluster or as a standalone host, the Id becomes the host name and the
      host is read back. */
  method Create(d: HostData, ep: Endpoint, first: Submission, second: Submission, newRef: string)
    returns (err: Option<string>)
    modifies d, ep
    ensures ep.datacenters == old(ep.datacenters) && ep.clusters == old(ep.clusters) && ep.pools == old(ep.pools)
    ensures old(FindHost(d, ep)).Mismatch? ==>
      err == Some(old(FindHost(d, ep)).msg) && ep.log == old(ep.log) && ep.hosts == old(ep.hosts) &&
      d.id == old(d.id) && d.objectId == old(d.objectId)
    ensures old(FindHost(d, ep)).Found? ==>
      err.None? && ep.log == old(ep.log) && ep.hosts == old(ep.hosts) &&
      d.id == d.host && d.objectId == old(FindHost(d, ep)).host.ref
    ensures old(FindHost(d, ep)).LookupFailed? && !old(CanAdd(d, ep)) ==>
      && err == Some(if d.datacenterId !in old(ep.datacenters) then old(ep.FindDatacenter(d.datacenterId)).msg
                     else old(ep.FindCluster(d.datacenterId, d.clusterId)).msg)
      && ep.log == old(ep.log) && ep.hosts == old(ep.hosts) && d.id == old(d.id) && d.objectId == old(d.objectId)
    ensures old(FindHost(d, ep)).LookupFailed? && old(CanAdd(d, ep)) ==>
      && ep.log == old(ep.log) + AddHostRequests(d.datacenterId, ClusterName(d),
                                                 ConnectAttempts(ConnectSpec(d), d.sslNoVerify, first), License(d))
      && (ConnectError(d.sslNoVerify, first, second).Some? ==>
            err == ConnectError(d.sslNoVerify, first, second) && ep.hosts == old(ep.hosts) &&
            d.id == old(d.id) && d.objectId == old(d.objectId))
      && (ConnectError(d.sslNoVerify, first, second).None? ==>
            && ep.hosts == old(ep.hosts) + [NewHost(d, newRef)]
            && (err.None? <==> FindHost(d, ep).Found?)
            && (err.None? ==> d.id == d.host && d.objectId == FindHost(d, ep).host.ref)
            && (err.Some? ==> err == Some(FindHost(d, ep).msg) && d.id == "" && d.objectId == old(d.objectId)))
    ensures var before := old(FindHost(d, ep));
      before.LookupFailed? && old(CanAdd(d, ep)) && old(HostsNamed(ep.hosts, d.host)) == [] &&
      ConnectError(d.sslNoVerify, first, second).None?
      ==> err.None? && d.id == d.host && d.objectId == newRef
  {
    var found := FindHost(d, ep);
    if !found.Found? {
      if found.LookupFailed? {
        LookupErrorIsNotAMismatch(d, ep);
      }
      if HasPrefix(found.msg, "found host") {
        return Some(found.msg);
      }
      var dc := ep.FindDatacenter(d.datacenterId);
      if dc.Err? {
        return Some(dc.msg);
      }
      var cluster := ClusterName(d);
      if cluster.Some? {
        var c := ep.FindCluster(d.datacenterId, cluster.value);
        if c.Err? {
          return Some(c.msg);
        }
      }
      ghost var hostsBefore := ep.hosts;
      err := AddHostWithRetry(ep, d.datacenterId, cluster, ConnectSpec(d), License(d), d.sslNoVerify,
                              first, second, newRef);
      if err.Some? {
        return err;
      }
      if HostsNamed(hostsBefore, d.host) == [] {
        AddedHostIsFound(d, ep, hostsBefore, newRef);
      }
    }
    d.id := d.host;
    err := Read(d, ep);
  }

  // ----- Removing a standalone host -----

  /** The first error reading a compute resource's hosts, scanning the
      children in order. */
  function FirstHostsError(children: seq<Child>): (r: Option<string>)
    ensures r.None? <==> forall i :: 0 <= i < |children| && children[i].ComputeResource? ==> children[i].hosts.Ok?
  {
    if children == [] then None
    else if children[0].ComputeResource? && children[0].hosts.Err? then Some(children[0].hosts.msg)
    else FirstHostsError(children[1..])
  }

  /** The last compute resource among the children, if any. */
  function LastComputeResource(children: seq<Child>): (r: Option<Child>)
    ensures r.Some? ==> r.value.ComputeResource? && r.value in children
    ensures r.None? <==> forall i :: 0 <= i < |children| ==> !children[i].ComputeResource?
  {
    if children == [] then None
    else if children[|children| - 1].ComputeResource? then Some(children[|children| - 1])
    else LastComputeResource(children[..|children| - 1])
  }

  /** The scan of the host folder's children in host.go's delete. The
      `break` on a compute resource whose first host is the host being
      removed leaves only the type switch, so the loop always runs on and
      the compute resource it ends with is the last one. */
  method ScanHostFolder(children: seq<Child>, objectId: string) returns (r: Result<Option<Child>>)
    ensures FirstHostsError(children).Some? ==> r == Err(FirstHostsError(children).value)
    ensures FirstHostsError(children).None? ==> r == Ok(LastComputeResource(children))
  {
    var computeResource: Option<Child> := None;
    var i := 0;
    while i < |children|
      invariant 0 <= i <= |children|
      invariant FirstHostsError(children) == FirstHostsError(children[i..])
      invariant computeResource == LastComputeResource(children[..i])
    {
      assert children[i..][1..] == children[i + 1..];
      assert children[..i + 1][..i] == children[..i];
      var child := children[i];
      if child.ComputeResource? {
        computeResource := Some(child);
        if child.hosts.Err? {
          return Err(child.hosts.msg);
        }
      }
      i := i + 1;
    }
    assert children[..i] == children;
    return Ok(computeResource);
  }

  /** The test the scan makes before its `break`: the compute resource's
      first host is the one being removed. */
  predicate HostsFirst(c: Child, objectId: string)
  {
    c.ComputeResource? && c.hosts.Ok? && |c.hosts.value| > 0 && c.hosts.value[0] == objectId
  }

  /** The scan as evidently intended, with the `break` leaving the loop:
      the first error or the first compute resource whose first host is
      the host being removed ends it; otherwise it ends on the last
      compute resource, as the loop as written does. */
  function IntendedScan(children: seq<Child>, objectId: string): (r: Result<Option<Child>>)
    ensures r.Ok? && r.value.Some? ==> r.value.value.ComputeResource? && r.value.value in children
  {
    if children == [] then Ok(None)
    else
      var c := children[0];
      if c.ComputeResource? && c.hosts.Err? then Err(c.hosts.msg)
      else if HostsFirst(c, objectId) then Ok(Some(c))
      else
        match IntendedScan(children[1..], objectId)
        case Ok(None) => if c.ComputeResource? then Ok(Some(c)) else Ok(None)
        case other => other
  }

  /** The intended scan picks the compute resource that hosts the host,
      provided no compute resource before it fails to list its hosts or
      also claims the host. */
  lemma {:induction false} IntendedScanPicksHostingResource(children: seq<Child>, objectId: string, k: nat)
    requires k < |children| && HostsFirst(children[k], objectId)
    requires forall j :: 0 <= j < k && children[j].ComputeResource? ==> children[j].hosts.Ok?
    requires forall j :: 0 <= j < k ==> !HostsFirst(children[j], objectId)
    ensures IntendedScan(children, objectId) == Ok(Some(children[k]))
  {
    if k > 0 {
      assert children[0].ComputeResource? ==> children[0].hosts.Ok?;
      assert !HostsFirst(children[0], objectId);
      var rest := children[1..];
      assert rest[k - 1] == children[k];
      forall j | 0 <= j < k - 1 && rest[j].ComputeResource?
        ensures rest[j].hosts.Ok?
      {
        assert rest[j] == children[j + 1];
      }
      forall j | 0 <= j < k - 1
        ensures !HostsFirst(rest[j], objectId)
      {
        assert rest[j] == children[j + 1];
      }
      IntendedScanPicksHostingResource(rest, objectId, k - 1);
    }
  }

  /** With two standalone hosts, removing the first one makes the scan as
      written end on the second one's compute resource, which Delete then
      destroys; the intended scan picks the first one's. */
  lemma ScanAsWrittenPicksAnotherHostsResource()
    ensures var first := ComputeResource("domain-s1", Ok(["host-1"]));
      var second := ComputeResource("domain-s2", Ok(["host-2"]));
      && FirstHostsError([first, second]).None?
      && LastComputeResource([first, second]) == Some(second)
      && !HostsFirst(second, "host-1")
      && IntendedScan([first, second], "host-1") == Ok(Some(first))
  {
    var first := ComputeResource("domain-s1", Ok(["host-1"]));
    var second := ComputeResource("domain-s2", Ok(["host-2"]));
    assert [first, second][1..] == [second];
    assert [first, second][..1] == [first];
    assert "host-2"[5] != "host-1"[5];
  }

  /** resourceVsphereHostDelete: unless kept, a host that can be found is
      removed; a clustered host only draws a warning, and for a standalone
      host the compute resource the scan ends on is destroyed. */
  method Delete(d: HostData, ep: Endpoint, children: seq<Child>, reply: Submission) returns (err: Option<string>)
    modifies ep
    ensures ep.datacenters == old(ep.datacenters) && ep.clusters == old(ep.clusters) && ep.pools == old(ep.pools)
    ensures d.keep ==> err.None? && ep.log == old(ep.log) && ep.hosts == old(ep.hosts)
    ensures !d.keep && !old(FindHost(d, ep)).Found? ==>
      err == Some(old(FindHost(d, ep)).msg) && ep.log == old(ep.log) && ep.hosts == old(ep.hosts)
    ensures !d.keep && old(FindHost(d, ep)).Found? && d.clusterId != "" ==>
      err.None? && ep.log == old(ep.log) && ep.hosts == old(ep.hosts)
    ensures !d.keep && old(FindHost(d, ep)).Found? && d.clusterId == "" && FirstHostsError(children).Some? ==>
      err == FirstHostsError(children) && ep.log == old(ep.log) && ep.hosts == old(ep.hosts)
    ensures !d.keep && old(FindHost(d, ep)).Found? && d.clusterId == "" && FirstHostsError(children).None? ==>
      match LastComputeResource(children)
      case None => err.None? && ep.log == old(ep.log) && ep.hosts == old(ep.hosts)
      case Some(c) =>
        && c.hosts.Ok?
        && ep.log == old(ep.log) + [DestroyComputeResource(c.ref)]
        && err == (if Succeeded(reply) then None else Some(SubmissionError(reply)))
        && ep.hosts == if Succeeded(reply) then HostsOutside(old(ep.hosts), c.hosts.value) else old(ep.hosts)
  {
    if d.keep {
      return None;
    }
    var found := FindHost(d, ep);
    if !found.Found? {
      return Some(found.msg);
    }
    if d.clusterId != "" {
      return None;
    }
    var scanned := ScanHostFolder(children, d.objectId);
    if scanned.Err? {
      return Some(scanned.msg);
    }
    if scanned.value.Some? {
      var c := scanned.value.value;
      ep.SubmitDestroyComputeResource(c, reply);
      if !Succeeded(reply) {
        return Some(SubmissionError(reply));
      }
    }
    return None;
  }
}
