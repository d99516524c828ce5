/** The resource-pool configuration translator
    (vsphere/resource_vsphere_resource_pool.go, getAllocationInfo and
    putAllocationInfo): a declared `cpu` or `memory` block becomes a
    vSphere ResourceAllocationInfo, and a ResourceAllocationInfo read from
    vSphere becomes the single block written back into Terraform state. */
module Allocation {
  import opened Wrappers
  import opened Text

  datatype SharesLevel = Low | Normal | High | Custom

  /** The wire names of types.SharesLevel. */
  function LevelName(l: SharesLevel): string
  {
    match l
    case Low => "low"
    case Normal => "normal"
    case High => "high"
    case Custom => "custom"
  }

  predicate IsNamedLevel(v: string) { v == "low" || v == "normal" || v == "high" }

  datatype SharesInfo = SharesInfo(level: SharesLevel, shares: int)

  /** types.ResourceAllocationInfo as a value. Its two nil-able fields are
      None while nil; its two int64 fields are 0 while unset. */
  datatype Allocation = Allocation(
    reservation: int,
    limit: int,
    expandableReservation: Option<bool>,
    shares: Option<SharesInfo>)

  const EmptyAllocation := Allocation(0, 0, None, None)

  /** What vSphere reports for a pool: both nil-able fields are set. */
  predicate Complete(a: Allocation) { a.expandableReservation.Some? && a.shares.Some? }

  /** types.ResourceConfigSpec: the CPU and the memory allocation of a pool. */
  datatype ResourceConfigSpec = ResourceConfigSpec(cpuAllocation: Allocation, memoryAllocation: Allocation)

  const EmptySpec := ResourceConfigSpec(EmptyAllocation, EmptyAllocation)

  /** One declared `cpu` or `memory` block, after Terraform has applied the
      schema defaults. As with ResourceData.GetOk, "" and 0 stand for an
      attribute that is not set. */
  datatype AllocSection = AllocSection(
    shares: string,
    reservation: int,
    expandableReservation: bool,
    limit: int)

  function TooManySectionsError(allocType: string): string
  {
    "only 1 " + allocType + " allocation section permitted"
  }

  function SharesError(atoiMsg: string): string
  {
    "error converting customer share value to int: " + atoiMsg
  }

  /** The shares of a declared block: absent means normal, a level name
      keeps that level, anything else must parse as an integer and becomes
      a custom share count. */
  function DeclaredShares(v: string): (r: Result<SharesInfo>)
    ensures v == "" ==> r == Ok(SharesInfo(Normal, 0))
    ensures IsNamedLevel(v) ==> r.Ok? && LevelName(r.value.level) == v && r.value.level != Custom
    ensures v != "" && !IsNamedLevel(v) ==>
      (r.Ok? <==> Atoi(v).Ok?) &&
      (r.Ok? ==> r.value == SharesInfo(Custom, Atoi(v).value)) &&
      (r.Err? ==> r.msg == SharesError(Atoi(v).msg))
  {
    if v == "" then Ok(SharesInfo(Normal, 0))
    else if v == "low" then Ok(SharesInfo(Low, 0))
    else if v == "normal" then Ok(SharesInfo(Normal, 0))
    else if v == "high" then Ok(SharesInfo(High, 0))
    else
      match Atoi(v)
      case Ok(n) => Ok(SharesInfo(Custom, n))
      case Err(m) => Err(SharesError(m))
  }

  /** The allocation getAllocationInfo leaves behind when it succeeds,
      starting from `base`. */
  function TranslateAllocation(allocType: string, sections: seq<AllocSection>, base: Allocation): Result<Allocation>
  {
    if |sections| > 1 then Err(TooManySectionsError(allocType))
    else if |sections| == 0 then Ok(base)
    else
      var s := sections[0];
      match DeclaredShares(s.shares)
      case Err(m) => Err(m)
      case Ok(shares) =>
        Ok(Allocation(
          if s.reservation != 0 then s.reservation else base.reservation,
          if s.limit != 0 then s.limit else base.limit,
          Some(s.expandableReservation),
          Some(shares)))
  }

  /** What getAllocationInfo leaves behind when it fails: it has already
      stored expandable_reservation when it rejects the shares. */
  function AfterFailedTranslation(sections: seq<AllocSection>, base: Allocation): Allocation
  {
    if |sections| == 1 then base.(expandableReservation := Some(sections[0].expandableReservation))
    else base
  }

  /** A types.ResourceAllocationInfo that getAllocationInfo fills in place,
      through its address. */
  class AllocationInfo {
    var reservation: int
    var limit: int
    var expandableReservation: Option<bool>
    var shares: Option<SharesInfo>

    constructor ()
      ensures Value() == EmptyAllocation
    {
      reservation, limit := 0, 0;
      expandableReservation, shares := None, None;
    }

    function Value(): Allocation
      reads this
    {
      Allocation(reservation, limit, expandableReservation, shares)
    }
  }

  /** getAllocationInfo: reads the `cpu` or `memory` blocks and stores what
      they set into `info`, field by field. */
  method GetAllocationInfo(allocType: string, sections: seq<AllocSection>, info: AllocationInfo)
    returns (err: Option<string>)
    modifies info
    ensures var r := TranslateAllocation(allocType, sections, old(info.Value()));
      && (err.None? <==> r.Ok?)
      && (r.Ok? ==> info.Value() == r.value)
      && (r.Err? ==> err == Some(r.msg) && info.Value() == AfterFailedTranslation(sections, old(info.Value())))
  {
    var count := |sections|;
    if count > 1 {
      return Some(TooManySectionsError(allocType));
    }
    if count == 1 {
      var s := sections[0];
      info.expandableReservation := Some(s.expandableReservation);
      var shares := DeclaredShares(s.shares);
      if shares.Err? {
        return Some(shares.msg);
      }
      info.shares := Some(shares.value);
      if s.reservation != 0 {
        info.reservation := s.reservation;
      }
      if s.limit != 0 {
        info.limit := s.limit;
      }
    }
    return None;
  }

  /** putAllocationInfo: the single block written into Terraform state for
      an allocation read from vSphere. */
  function PutAllocationInfo(info: Allocation): (m: map<string, string>)
    requires Complete(info)
    ensures m.Keys <= {"reservation", "limit", "expandable_reservation", "shares"}
    ensures "reservation" in m <==> info.reservation != 0
    ensures "reservation" in m ==> m["reservation"] == Itoa(info.reservation)
    ensures "limit" in m <==> info.limit != 0
    ensures "limit" in m ==> m["limit"] == Itoa(info.limit)
    ensures "expandable_reservation" in m
    ensures m["expandable_reservation"] == FormatBool(info.expandableReservation.value)
    ensures "shares" in m
    ensures var sh := info.shares.value;
      m["shares"] == if sh.level == Custom then Itoa(sh.shares) else LevelName(sh.level)
  {
    var withReservation := if info.reservation != 0 then map["reservation" := Itoa(info.reservation)] else map[];
    var withLimit := if info.limit != 0 then withReservation["limit" := Itoa(info.limit)] else withReservation;
    var sh := info.shares.value;
    withLimit["expandable_reservation" := FormatBool(info.expandableReservation.value)]
             ["shares" := if sh.level == Custom then Itoa(sh.shares) else LevelName(sh.level)]
  }

  // ----- Properties of the translator -----

  /** More than one block is rejected with "only 1 ... allocation section
      permitted", whatever the blocks hold. */
  lemma MoreThanOneSectionRejected(allocType: string, sections: seq<AllocSection>, base: Allocation)
    requires |sections| > 1
    ensures TranslateAllocation(allocType, sections, base) == Err(TooManySectionsError(allocType))
  {
  }

  /** No block (GetOk reports `cpu.#` unset, i.e. zero) leaves the
      allocation exactly as it was. */
  lemma NoSectionLeavesAllocationUntouched(allocType: string, base: Allocation)
    ensures TranslateAllocation(allocType, [], base) == Ok(base)
  {
  }

  /** One block: expandable_reservation is always written, reservation and
      limit only when non-zero, and the result is complete whatever the
      starting point. */
  lemma SingleSectionFields(allocType: string, s: AllocSection, base: Allocation)
    requires DeclaredShares(s.shares).Ok?
    ensures var r := TranslateAllocation(allocType, [s], base);
      && r.Ok? && Complete(r.value)
      && r.value.expandableReservation == Some(s.expandableReservation)
      && r.value.shares == Some(DeclaredShares(s.shares).value)
      && (s.reservation != 0 ==> r.value.reservation == s.reservation)
      && (s.reservation == 0 ==> r.value.reservation == base.reservation)
      && (s.limit != 0 ==> r.value.limit == s.limit)
      && (s.limit == 0 ==> r.value.limit == base.limit)
  {
  }

  /** A block is accepted exactly when its shares are absent, a level name,
      or an integer that strconv.Atoi accepts. */
  lemma {:induction false} SingleSectionAcceptedIff(allocType: string, s: AllocSection, base: Allocation)
    ensures TranslateAllocation(allocType, [s], base).Ok? <==>
      (s.shares == "" || IsNamedLevel(s.shares) || Atoi(s.shares).Ok?)
  {
  }

  /** The state Terraform holds for a declared block whose shares are
      spelled canonically: the values it declared, with reservation and
      limit present only when set, and absent shares reading as "normal". */
  function DeclaredState(s: AllocSection): map<string, string>
  {
    var withReservation := if s.reservation != 0 then map["reservation" := Itoa(s.reservation)] else map[];
    var withLimit := if s.limit != 0 then withReservation["limit" := Itoa(s.limit)] else withReservation;
    withLimit["expandable_reservation" := FormatBool(s.expandableReservation)]
             ["shares" := if s.shares == "" then "normal" else s.shares]
  }

  /** Shares are spelled canonically when absent, a level name, or the
      decimal form of a 64-bit integer. */
  ghost predicate CanonicalShares(v: string)
  {
    v == "" || IsNamedLevel(v) || exists n :: InInt64(n) && v == Itoa(n)
  }

  /** Declared -> vSphere -> declared: translating a block onto an empty
      ResourceAllocationInfo and reading it back yields the block itself
      (for example shares "low" and "40960" read back unchanged). */
  lemma SectionRoundTrip(allocType: string, s: AllocSection)
    requires CanonicalShares(s.shares)
    ensures var r := TranslateAllocation(allocType, [s], EmptyAllocation);
      r.Ok? && Complete(r.value) && PutAllocationInfo(r.value) == DeclaredState(s)
  {
    if s.shares != "" && !IsNamedLevel(s.shares) {
      var n :| InInt64(n) && s.shares == Itoa(n);
      AtoiOfItoa(n);
    }
    var r := TranslateAllocation(allocType, [s], EmptyAllocation);
    var m := PutAllocationInfo(r.value);
    var e := DeclaredState(s);
    assert m.Keys == e.Keys;
  }

  /** The shares of a read-back block classify to the shares vSphere holds:
      putAllocationInfo followed by getAllocationInfo keeps the level, and
      the count of a custom level. The count vSphere computes for a named
      level (4000 for normal CPU shares, say) is not written back, so it
      reads back as 0 and is not sent again. */
  lemma SharesReadBackRoundTrip(sh: SharesInfo)
    requires sh.level == Custom ==> InInt64(sh.shares)
    ensures var spelled := if sh.level == Custom then Itoa(sh.shares) else LevelName(sh.level);
      && DeclaredShares(spelled).Ok?
      && DeclaredShares(spelled).value.level == sh.level
      && (sh.level == Custom ==> DeclaredShares(spelled).value.shares == sh.shares)
      && (sh.level != Custom ==> DeclaredShares(spelled).value.shares == 0)
  {
    if sh.level == Custom {
      AtoiOfItoa(sh.shares);
      ItoaIsNotAWord(sh.shares, "low");
      ItoaIsNotAWord(sh.shares, "normal");
      ItoaIsNotAWord(sh.shares, "high");
    }
  }
}
