/** Inventory path resolution done by the provider itself: the expected
    path of a host and its exact comparison in getHost
    (vsphere/resource_vsphere_host.go), and the suffix search over the
    candidate pools in getResourcePool
    (vsphere/resource_vsphere_resource_pool.go). The wildcard lookups that
    produce the candidates belong to govmomi and arrive here as values. */
module Paths {
  import opened Wrappers
  import opened Text
  import opened Allocation

  /** An object.HostSystem found by govmomi's finder. */
  datatype HostSystem = HostSystem(name: string, inventoryPath: string, ref: string)

  /** An object.ResourcePool, with the configuration vSphere holds for it. */
  datatype PoolEntry = PoolEntry(inventoryPath: string, ref: string, config: ResourceConfigSpec)

  /** The folder segment under the datacenter's host folder: the cluster
      when one is named, otherwise the host's own standalone compute
      resource, which carries the host's name. */
  function HostParent(hostName: string, clusterName: Option<string>): string
  {
    if clusterName.Some? then clusterName.value else hostName
  }

  /** The path getHost expects: /<dc>/host/<cluster or host>/<host>. */
  function ExpectedHostPath(datacenterName: string, hostName: string, clusterName: Option<string>): (p: string)
    ensures HasPrefix(p, "/" + datacenterName + "/host/")
    ensures HasSuffix(p, "/" + hostName)
  {
    var p := "/" + datacenterName + "/host/" + HostParent(hostName, clusterName) + "/" + hostName;
    assert p[..|"/" + datacenterName + "/host/"|] == "/" + datacenterName + "/host/";
    assert p[|p| - |"/" + hostName|..] == "/" + hostName;
    p
  }

  /** The three outcomes of getHost: the host at the expected path; a host
      of that name somewhere else, returned together with an error; or a
      failed lookup and no host. */
  datatype HostLookup =
    | Found(host: HostSystem)
    | Mismatch(host: HostSystem, msg: string)
    | LookupFailed(msg: string)

  function MismatchError(actual: string, expected: string): string
  {
    "found host at path '" + actual + "' which does not match the expected path of '" + expected + "'"
  }

  /** getHost: `lookup` is the result of govmomi's wildcard search for the host name. */
  function GetHost(hostName: string, datacenterName: string, clusterName: Option<string>, lookup: Result<HostSystem>)
    : (r: HostLookup)
    ensures r.Found? <==> lookup.Ok? && lookup.value.inventoryPath == ExpectedHostPath(datacenterName, hostName, clusterName)
    ensures r.Mismatch? <==> lookup.Ok? && lookup.value.inventoryPath != ExpectedHostPath(datacenterName, hostName, clusterName)
    ensures r.LookupFailed? <==> lookup.Err?
    ensures r.LookupFailed? ==> r.msg == lookup.msg
    ensures !r.LookupFailed? ==> r.host == lookup.value
    ensures r.Mismatch? ==> HasPrefix(r.msg, "found host")
  {
    var path := ExpectedHostPath(datacenterName, hostName, clusterName);
    match lookup
    case Err(m) => LookupFailed(m)
    case Ok(h) =>
      if h.inventoryPath != path then
        var msg := MismatchError(h.inventoryPath, path);
        assert msg[..|"found host"|] == "found host";
        Mismatch(h, msg)
      else Found(h)
  }

  /** Two expected paths for the same datacenter and host agree only when
      they name the same parent folder. */
  lemma {:induction false} ExpectedPathDeterminesParent(dc: string, h: string, c1: Option<string>, c2: Option<string>)
    requires ExpectedHostPath(dc, h, c1) == ExpectedHostPath(dc, h, c2)
    ensures HostParent(h, c1) == HostParent(h, c2)
  {
    var pre := "/" + dc + "/host/";
    var suf := "/" + h;
    var p1, p2 := HostParent(h, c1), HostParent(h, c2);
    var s1, s2 := pre + p1 + suf, pre + p2 + suf;
    assert s1 == ExpectedHostPath(dc, h, c1) && s2 == ExpectedHostPath(dc, h, c2);
    assert |p1| == |p2|;
    assert s1[|pre|..|pre| + |p1|] == p1;
    assert s2[|pre|..|pre| + |p2|] == p2;
  }

  /** A host that sits in cluster X, looked up with cluster Y != X as its
      anchor, is a path mismatch, never a silent match. */
  lemma HostInOtherClusterIsMismatch(dc: string, h: HostSystem, x: string, y: string)
    requires h.inventoryPath == ExpectedHostPath(dc, h.name, Some(x))
    requires x != y
    ensures GetHost(h.name, dc, Some(y), Ok(h)).Mismatch?
  {
    if h.inventoryPath == ExpectedHostPath(dc, h.name, Some(y)) {
      ExpectedPathDeterminesParent(dc, h.name, Some(x), Some(y));
    }
  }

  /** Likewise a clustered host looked up as a standalone one, unless the
      cluster carries the host's own name. */
  lemma ClusteredHostLookedUpStandaloneIsMismatch(dc: string, h: HostSystem, x: string)
    requires h.inventoryPath == ExpectedHostPath(dc, h.name, Some(x))
    requires x != h.name
    ensures GetHost(h.name, dc, None, Ok(h)).Mismatch?
  {
    if h.inventoryPath == ExpectedHostPath(dc, h.name, None) {
      ExpectedPathDeterminesParent(dc, h.name, Some(x), None);
    }
  }

  /** The suffix a pool's inventory path must end with:
      /<parent>/Resources/<name>. */
  function PoolMatchPath(name: string, parent: string): string
  {
    "/" + parent + "/Resources/" + name
  }

  /** The index of the first pool whose path ends with `suffix`. */
  function FirstMatch(pools: seq<PoolEntry>, suffix: string): (r: Option<nat>)
    ensures r.Some? ==> r.value < |pools| && HasSuffix(pools[r.value].inventoryPath, suffix)
    ensures r.Some? ==> forall j :: 0 <= j < r.value ==> !HasSuffix(pools[j].inventoryPath, suffix)
    ensures r.None? ==> forall j :: 0 <= j < |pools| ==> !HasSuffix(pools[j].inventoryPath, suffix)
  {
    if pools == [] then None
    else if HasSuffix(pools[0].inventoryPath, suffix) then Some(0)
    else
      match FirstMatch(pools[1..], suffix)
      case None => None
      case Some(i) => Some(i + 1)
  }

  function PoolNotFoundError(name: string): string
  {
    "resource pool " + name + " was not found"
  }

  /** getResourcePool: `listing` is the result of govmomi's wildcard
      search for pools named `name`; the first candidate under the parent
      wins. */
  function GetResourcePool(name: string, parent: string, listing: Result<seq<PoolEntry>>): (r: Result<PoolEntry>)
    ensures listing.Err? ==> r == Err(listing.msg)
    ensures r.Ok? ==> listing.Ok? && exists i :: 0 <= i < |listing.value| && listing.value[i] == r.value
    ensures r.Ok? ==> HasSuffix(r.value.inventoryPath, PoolMatchPath(name, parent))
    ensures listing.Ok? && r.Err? ==> r.msg == PoolNotFoundError(name)
    ensures listing.Ok? ==>
      (r.Ok? <==> exists i :: 0 <= i < |listing.value| && HasSuffix(listing.value[i].inventoryPath, PoolMatchPath(name, parent)))
  {
    match listing
    case Err(m) => Err(m)
    case Ok(pools) =>
      match FirstMatch(pools, PoolMatchPath(name, parent))
      case Some(i) => Ok(pools[i])
      case None => Err(PoolNotFoundError(name))
  }

  /** The pool getResourcePool picks precedes every other match. */
  lemma GetResourcePoolPicksFirst(name: string, parent: string, pools: seq<PoolEntry>, i: nat)
    requires i < |pools| && HasSuffix(pools[i].inventoryPath, PoolMatchPath(name, parent))
    ensures var r := GetResourcePool(name, parent, Ok(pools));
      r.Ok? && exists k :: 0 <= k <= i && pools[k] == r.value
  {
    var k := FirstMatch(pools, PoolMatchPath(name, parent));
    assert k.Some? && k.value <= i;
  }
}
