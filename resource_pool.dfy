/** The vsphere_resource_pool reconciler
    (vsphere/resource_vsphere_resource_pool.go): find the pool under its
    parent, create it under the parent's root pool with the declared CPU
    and memory allocations, read the allocations back into state, update
    them in place, destroy the pool. */
module ResourcePool {
  import opened Wrappers
  import opened Text
  import opened Allocation
  import opened Paths
  import opened Remote

  /** The ResourceData of a vsphere_resource_pool: the declared attributes,
      the recorded Id, the computed object_id and the `cpu` and `memory`
      blocks Read writes into state. */
  class PoolData {
    const name: string
    const datacenterId: string
    const parentId: string
    const cpu: seq<AllocSection>
    const memory: seq<AllocSection>
    const keep: bool
    var id: string
    var objectId: string
    var cpuState: seq<map<string, string>>
    var memoryState: seq<map<string, string>>

    constructor (name: string, datacenterId: string, parentId: string, cpu: seq<AllocSection>,
                 memory: seq<AllocSection>, keep: bool, id: string)
      ensures this.name == name && this.datacenterId == datacenterId && this.parentId == parentId
      ensures this.cpu == cpu && this.memory == memory && this.keep == keep
      ensures this.id == id && objectId == "" && cpuState == [] && memoryState == []
    {
      this.name, this.datacenterId, this.parentId := name, datacenterId, parentId;
      this.cpu, this.memory, this.keep := cpu, memory, keep;
      this.id, objectId := id, "";
      cpuState, memoryState := [], [];
    }
  }

  /** findResourcePool: the finder is anchored at the declared datacenter,
      then getResourcePool picks the first pool named `name` under the
      parent. The Id plays no part. */
  function FindResourcePool(d: PoolData, ep: Endpoint): (r: Result<PoolEntry>)
    reads ep
    ensures d.datacenterId !in ep.datacenters ==> r.Err?
    ensures d.datacenterId in ep.datacenters ==> r == GetResourcePool(d.name, d.parentId, ep.ResourcePoolList(d.name))
    ensures r.Ok? ==> r.value in ep.pools
  {
    match ep.FindDatacenter(d.datacenterId)
    case Err(m) => Err(m)
    case Ok(_) => GetResourcePool(d.name, d.parentId, ep.ResourcePoolList(d.name))
  }

  /** Every way the lookup can fail says "not found", so Create always
      takes its create path when the pool is missing. */
  lemma FindErrorsSayNotFound(d: PoolData, ep: Endpoint)
    requires FindResourcePool(d, ep).Err?
    ensures Contains(FindResourcePool(d, ep).msg, "not found")
  {
    var msg := FindResourcePool(d, ep).msg;
    if d.datacenterId in ep.datacenters && ep.ResourcePoolList(d.name).Ok? {
      assert msg == PoolNotFoundError(d.name);
      assert msg[|msg| - |"not found"|..] == "not found";
      SuffixIsContained(msg, "not found");
    }
  }

  /** The ResourceConfigSpec Create and Update send: each allocation
      translated onto an empty ResourceAllocationInfo, CPU first. */
  function PoolSpec(cpu: seq<AllocSection>, memory: seq<AllocSection>): (r: Result<ResourceConfigSpec>)
    ensures r.Ok? <==> TranslateAllocation("cpu", cpu, EmptyAllocation).Ok? &&
                       TranslateAllocation("memory", memory, EmptyAllocation).Ok?
    ensures TranslateAllocation("cpu", cpu, EmptyAllocation).Err? ==>
      r == Err(TranslateAllocation("cpu", cpu, EmptyAllocation).msg)
    ensures r.Ok? ==> r.value.cpuAllocation == TranslateAllocation("cpu", cpu, EmptyAllocation).value &&
                      r.value.memoryAllocation == TranslateAllocation("memory", memory, EmptyAllocation).value
  {
    match TranslateAllocation("cpu", cpu, EmptyAllocation)
    case Err(m) => Err(m)
    case Ok(c) =>
      match TranslateAllocation("memory", memory, EmptyAllocation)
      case Err(m) => Err(m)
      case Ok(mem) => Ok(ResourceConfigSpec(c, mem))
  }

  /** The two getAllocationInfo calls of Create and Update, each on a fresh
      ResourceAllocationInfo. */
  method GetPoolSpec(d: PoolData) returns (r: Result<ResourceConfigSpec>)
    ensures r == PoolSpec(d.cpu, d.memory)
  {
    var cpuInfo := new AllocationInfo();
    var err := GetAllocationInfo("cpu", d.cpu, cpuInfo);
    if err.Some? {
      return Err(err.value);
    }
    var memoryInfo := new AllocationInfo();
    err := GetAllocationInfo("memory", d.memory, memoryInfo);
    if err.Some? {
      return Err(err.value);
    }
    return Ok(ResourceConfigSpec(cpuInfo.Value(), memoryInfo.Value()));
  }

  // ----- Finding a created pool again -----

  /** A string ending with `a + b` ends with `b`. */
  lemma SuffixOfSuffix(s: string, a: string, b: string)
    ensures HasSuffix(s, a + b) ==> HasSuffix(s, b)
  {
    if HasSuffix(s, a + b) {
      assert s[|s| - |b|..] == s[|s| - |a + b|..][|a|..];
      assert (a + b)[|a|..] == b;
    }
  }

  /** The pools ending with a suffix, after one more pool is appended. */
  lemma {:induction false} PoolsEndingWithAppend(ps: seq<PoolEntry>, p: PoolEntry, suffix: string)
    ensures PoolsEndingWith(ps + [p], suffix) ==
      PoolsEndingWith(ps, suffix) + (if HasSuffix(p.inventoryPath, suffix) then [p] else [])
  {
    if ps == [] {
      assert ps + [p] == [p];
      assert [p][1..] == [];
    } else {
      assert (ps + [p])[0] == ps[0];
      assert (ps + [p])[1..] == ps[1..] + [p];
      PoolsEndingWithAppend(ps[1..], p, suffix);
    }
  }

  /** A pool ending with a suffix is among the pools the filter keeps. */
  lemma {:induction false} PoolsEndingWithKeeps(ps: seq<PoolEntry>, i: nat, suffix: string)
    requires i < |ps|
    ensures HasSuffix(ps[i].inventoryPath, suffix) ==> ps[i] in PoolsEndingWith(ps, suffix)
  {
    if i > 0 {
      assert ps[1..][i - 1] == ps[i];
      PoolsEndingWithKeeps(ps[1..], i - 1, suffix);
    }
  }

  /** When the lookup fails although the datacenter exists, no pool lies
      under the parent with the declared name. */
  lemma MissingPoolHasNoMatch(d: PoolData, ep: Endpoint)
    requires d.datacenterId in ep.datacenters && FindResourcePool(d, ep).Err?
    ensures forall i :: 0 <= i < |ep.pools| ==> !HasSuffix(ep.pools[i].inventoryPath, PoolMatchPath(d.name, d.parentId))
  {
    var suffix := "/Resources/" + d.name;
    var list := PoolsEndingWith(ep.pools, suffix);
    assert PoolMatchPath(d.name, d.parentId) == "/" + d.parentId + suffix;
    forall i | 0 <= i < |ep.pools|
      ensures !HasSuffix(ep.pools[i].inventoryPath, PoolMatchPath(d.name, d.parentId))
    {
      SuffixOfSuffix(ep.pools[i].inventoryPath, "/" + d.parentId, suffix);
      PoolsEndingWithKeeps(ep.pools, i, suffix);
    }
  }

  /** A pool created under the parent's root pool where no pool of its name
      was under the parent is the one the next lookup finds. */
  lemma CreatedPoolIsFound(d: PoolData, ep: Endpoint, poolsBefore: seq<PoolEntry>, created: PoolEntry)
    requires d.datacenterId in ep.datacenters
    requires forall i :: 0 <= i < |poolsBefore| ==>
      !HasSuffix(poolsBefore[i].inventoryPath, PoolMatchPath(d.name, d.parentId))
    requires created.inventoryPath == ParentPoolPath(d.datacenterId, d.parentId) + "/" + d.name
    requires ep.pools == poolsBefore + [created]
    ensures FindResourcePool(d, ep) == Ok(created)
  {
    var matchPath := PoolMatchPath(d.name, d.parentId);
    var suffix := "/Resources/" + d.name;
    var path := created.inventoryPath;
    assert path == "/" + d.datacenterId + "/host" + matchPath;
    assert path[|path| - |matchPath|..] == matchPath;
    assert matchPath == "/" + d.parentId + suffix;
    SuffixOfSuffix(path, "/" + d.parentId, suffix);
    PoolsEndingWithAppend(poolsBefore, created, suffix);
    var list := PoolsEndingWith(ep.pools, suffix);
    assert list == PoolsEndingWith(poolsBefore, suffix) + [created];
    assert ep.ResourcePoolList(d.name) == Ok(list);
    var k := FirstMatch(list, matchPath);
    assert HasSuffix(list[|list| - 1].inventoryPath, matchPath);
    assert forall j :: 0 <= j < |list| - 1 ==> list[j] in poolsBefore;
    assert k == Some(|list| - 1);
  }

  // ----- Reading allocations back -----

  /** Declared -> vSphere -> declared for one allocation: a block applied to
      a pool's allocation and read back yields the block itself, provided
      the pool's own reservation and limit do not show through where the
      block leaves them unset. */
  lemma AppliedSectionReadsBack(allocType: string, current: Allocation, s: AllocSection)
    requires Complete(current) && CanonicalShares(s.shares)
    requires s.reservation != 0 || current.reservation == 0
    requires s.limit != 0 || current.limit == 0
    ensures var r := TranslateAllocation(allocType, [s], EmptyAllocation);
      r.Ok? && PutAllocationInfo(MergeAllocation(current, r.value)) == DeclaredState(s)
  {
    SectionRoundTrip(allocType, s);
    var r := TranslateAllocation(allocType, [s], EmptyAllocation);
    assert MergeAllocation(current, r.value) == r.value;
  }

  /** The `cpu` and `memory` blocks as evidently intended: each written
      from its own allocation. */
  function ReadBackState(config: ResourceConfigSpec): (seq<map<string, string>>, seq<map<string, string>>)
    requires CompleteSpec(config)
  {
    ([PutAllocationInfo(config.cpuAllocation)], [PutAllocationInfo(config.memoryAllocation)])
  }

  /** Declared -> vSphere -> declared for a pool, with the intended read:
      the spec Create or Update sends, applied to the pool's allocations,
      reads back as the declared `cpu` and `memory` blocks. */
  lemma PoolRoundTrip(current: ResourceConfigSpec, c: AllocSection, m: AllocSection)
    requires CompleteSpec(current) && CanonicalShares(c.shares) && CanonicalShares(m.shares)
    requires c.reservation != 0 || current.cpuAllocation.reservation == 0
    requires c.limit != 0 || current.cpuAllocation.limit == 0
    requires m.reservation != 0 || current.memoryAllocation.reservation == 0
    requires m.limit != 0 || current.memoryAllocation.limit == 0
    ensures var spec := PoolSpec([c], [m]);
      spec.Ok? && CompleteSpec(MergeSpec(current, spec.value)) &&
      ReadBackState(MergeSpec(current, spec.value)) == ([DeclaredState(c)], [DeclaredState(m)])
  {
    AppliedSectionReadsBack("cpu", current.cpuAllocation, c);
    AppliedSectionReadsBack("memory", current.memoryAllocation, m);
  }

  /** As written, a pool whose CPU reservation is 100 and memory
      reservation 200 has its `memory` block read back with reservation
      100. */
  lemma MemoryBlockShowsCpuAllocation()
    ensures var config := ResourceConfigSpec(
        Allocation(100, 0, Some(false), Some(SharesInfo(Normal, 0))),
        Allocation(200, 0, Some(false), Some(SharesInfo(Normal, 0))));
      && PutAllocationInfo(config.cpuAllocation)["reservation"] == Itoa(100)
      && ReadBackState(config).1[0]["reservation"] == Itoa(200)
      && Itoa(100) != Itoa(200)
  {
    DecimalValueOfNatToDecimal(100);
    DecimalValueOfNatToDecimal(200);
  }

  // ----- The reconciler -----

  /** resourceVsphereResourcePoolCreate: a pool found under the parent is
      adopted; when the lookup says "not found", the pool is created under
      the parent's root pool with the declared allocations. The Id becomes
      the name and object_id the pool's reference. */
  method Create(d: PoolData, ep: Endpoint, reply: Submission, newRef: string) returns (err: Option<string>)
    requires ep.Valid()
    modifies d, ep
    ensures ep.Valid()
    ensures ep.datacenters == old(ep.datacenters) && ep.clusters == old(ep.clusters) && ep.hosts == old(ep.hosts)
    ensures d.cpuState == old(d.cpuState) && d.memoryState == old(d.memoryState)
    ensures old(FindResourcePool(d, ep)).Ok? ==>
      err.None? && ep.log == old(ep.log) && ep.pools == old(ep.pools) &&
      d.id == d.name && d.objectId == old(FindResourcePool(d, ep)).value.ref
    ensures old(FindResourcePool(d, ep)).Err? && !Contains(old(FindResourcePool(d, ep)).msg, "not found") ==>
      err == Some(old(FindResourcePool(d, ep)).msg) && ep.log == old(ep.log) && ep.pools == old(ep.pools) &&
      d.id == old(d.id) && d.objectId == old(d.objectId)
    ensures var found, parent := old(FindResourcePool(d, ep)), old(ep.FindParentPool(d.datacenterId, d.parentId));
      (found.Err? && Contains(found.msg, "not found") &&
       (d.datacenterId !in old(ep.datacenters) || parent.Err? || PoolSpec(d.cpu, d.memory).Err?)) ==>
      (err == Some(if d.datacenterId !in old(ep.datacenters) then old(ep.FindDatacenter(d.datacenterId)).msg
                   else if parent.Err? then parent.msg
                   else PoolSpec(d.cpu, d.memory).msg) &&
       ep.log == old(ep.log) && ep.pools == old(ep.pools) &&
       d.id == old(d.id) && d.objectId == old(d.objectId))
    ensures var found, parent := old(FindResourcePool(d, ep)), old(ep.FindParentPool(d.datacenterId, d.parentId));
      found.Err? && Contains(found.msg, "not found") && d.datacenterId in old(ep.datacenters) &&
      parent.Ok? && PoolSpec(d.cpu, d.memory).Ok?
      ==> var spec := PoolSpec(d.cpu, d.memory).value;
      && ep.log == old(ep.log) + [CreateResourcePool(parent.value.ref, d.name, spec)]
      && err == (if Succeeded(reply) then None else Some(SubmissionError(reply)))
      && (Succeeded(reply) ==>
            && ep.pools == old(ep.pools) + [PoolEntry(parent.value.inventoryPath + "/" + d.name, newRef,
                                                      MergeSpec(ResourceConfigSpec(ep.poolDefaults, ep.poolDefaults), spec))]
            && FindResourcePool(d, ep) == Ok(ep.pools[|ep.pools| - 1])
            && d.id == d.name && d.objectId == newRef)
      && (!Succeeded(reply) ==> ep.pools == old(ep.pools) && d.id == old(d.id) && d.objectId == old(d.objectId))
  {
    var found := FindResourcePool(d, ep);
    var pool: PoolEntry;
    if found.Err? {
      if Contains(found.msg, "not found") {
        var dc := ep.FindDatacenter(d.datacenterId);
        if dc.Err? {
          return Some(dc.msg);
        }
        var parent := ep.FindParentPool(d.datacenterId, d.parentId);
        if parent.Err? {
          return Some(parent.msg);
        }
        var spec := GetPoolSpec(d);
        if spec.Err? {
          return Some(spec.msg);
        }
        MissingPoolHasNoMatch(d, ep);
        ghost var poolsBefore := ep.pools;
        pool := ep.SubmitCreateResourcePool(parent.value, d.name, spec.value, reply, newRef);
        if !Succeeded(reply) {
          return Some(SubmissionError(reply));
        }
        CreatedPoolIsFound(d, ep, poolsBefore, pool);
      } else {
        return Some(found.msg);
      }
    } else {
      pool := found.value;
    }
    d.id := d.name;
    d.objectId := pool.ref;
    return None;
  }

  /** resourceVsphereResourcePoolRead: a pool that cannot be found clears
      the Id; otherwise its allocations are written back, and object_id is
      its reference. As written, the `memory` block is produced from the
      CPU allocation. */
  method Read(d: PoolData, ep: Endpoint) returns (err: Option<string>)
    requires ep.Valid()
    modifies d
    ensures old(FindResourcePool(d, ep)).Err? ==>
      err == Some(old(FindResourcePool(d, ep)).msg) && d.id == "" && d.objectId == old(d.objectId) &&
      d.cpuState == old(d.cpuState) && d.memoryState == old(d.memoryState)
    ensures old(FindResourcePool(d, ep)).Ok? ==>
      var pool := old(FindResourcePool(d, ep)).value;
      && CompleteSpec(pool.config)
      && err.None? && d.id == old(d.id) && d.objectId == pool.ref
      && d.cpuState == [PutAllocationInfo(pool.config.cpuAllocation)]
      && d.memoryState == [PutAllocationInfo(pool.config.cpuAllocation)]
  {
    var found := FindResourcePool(d, ep);
    if found.Err? {
      d.id := "";
      return Some(found.msg);
    }
    var config := found.value.config;
    d.cpuState := [PutAllocationInfo(config.cpuAllocation)];
    d.memoryState := [PutAllocationInfo(config.cpuAllocation)];
    d.objectId := found.value.ref;
    return None;
  }

  /** resourceVsphereResourcePoolUpdate: a pool that cannot be found clears
      the Id; otherwise both allocations are translated and sent as one
      reconfigure under the declared name. */
  method Update(d: PoolData, ep: Endpoint, reply: Submission) returns (err: Option<string>)
    requires ep.Valid()
    modifies d, ep
    ensures ep.Valid()
    ensures ep.datacenters == old(ep.datacenters) && ep.clusters == old(ep.clusters) && ep.hosts == old(ep.hosts)
    ensures d.objectId == old(d.objectId) && d.cpuState == old(d.cpuState) && d.memoryState == old(d.memoryState)
    ensures old(FindResourcePool(d, ep)).Err? ==>
      err == Some(old(FindResourcePool(d, ep)).msg) && d.id == "" && ep.log == old(ep.log) && ep.pools == old(ep.pools)
    ensures old(FindResourcePool(d, ep)).Ok? && PoolSpec(d.cpu, d.memory).Err? ==>
      err == Some(PoolSpec(d.cpu, d.memory).msg) && d.id == old(d.id) && ep.log == old(ep.log) && ep.pools == old(ep.pools)
    ensures old(FindResourcePool(d, ep)).Ok? && PoolSpec(d.cpu, d.memory).Ok? ==>
      var ref := old(FindResourcePool(d, ep)).value.ref;
      var spec := PoolSpec(d.cpu, d.memory).value;
      && d.id == old(d.id)
      && ep.log == old(ep.log) + [UpdateResourcePool(ref, d.name, spec)]
      && err == (if Succeeded(reply) then None else Some(SubmissionError(reply)))
      && ep.pools == if Succeeded(reply) then UpdatePools(old(ep.pools), ref, spec) else old(ep.pools)
  {
    var found := FindResourcePool(d, ep);
    if found.Err? {
      d.id := "";
      return Some(found.msg);
    }
    var spec := GetPoolSpec(d);
    if spec.Err? {
      return Some(spec.msg);
    }
    ep.SubmitUpdateResourcePool(found.value.ref, d.name, spec.value, reply);
    if !Succeeded(reply) {
      return Some(SubmissionError(reply));
    }
    return None;
  }

  /** resourceVsphereResourcePoolDelete: unless kept, the pool found under
      the parent is destroyed. */
  method Delete(d: PoolData, ep: Endpoint, reply: Submission) returns (err: Option<string>)
    requires ep.Valid()
    modifies ep
    ensures ep.Valid()
    ensures ep.datacenters == old(ep.datacenters) && ep.clusters == old(ep.clusters) && ep.hosts == old(ep.hosts)
    ensures d.keep ==> err.None? && ep.log == old(ep.log) && ep.pools == old(ep.pools)
    ensures !d.keep && old(FindResourcePool(d, ep)).Err? ==>
      err == Some(old(FindResourcePool(d, ep)).msg) && ep.log == old(ep.log) && ep.pools == old(ep.pools)
    ensures !d.keep && old(FindResourcePool(d, ep)).Ok? ==>
      var ref := old(FindResourcePool(d, ep)).value.ref;
      && ep.log == old(ep.log) + [DestroyResourcePool(ref)]
      && err == (if Succeeded(reply) then None else Some(SubmissionError(reply)))
      && ep.pools == if Succeeded(reply) then PoolsWithout(old(ep.pools), ref) else old(ep.pools)
  {
    if d.keep {
      return None;
    }
    var found := FindResourcePool(d, ep);
    if found.Err? {
      return Some(found.msg);
    }
    ep.SubmitDestroyResourcePool(found.value.ref, reply);
    if !Succeeded(reply) {
      return Some(SubmissionError(reply));
    }
    return None;
  }
}
