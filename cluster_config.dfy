/** The cluster configuration translator
    (vsphere/resource_vsphere_cluster.go): declared `drs` and `ha` blocks
    become the DRS and HA facets of a ClusterConfigSpec, and the facets
    read from vSphere become the blocks written back into Terraform state. */
module ClusterConfig {
  import opened Wrappers
  import opened Text

  /** A declared `drs` block. Terraform's Get returns "" , 0 or false for
      an attribute that is not set, never nil. */
  datatype DrsSection = DrsSection(
    enableVmAutomationOverride: bool,
    migrationThreshold: int,
    defaultAutomationLevel: string)

  datatype PolicyEntry = PolicyEntry(name: string, value: string)

  /** A declared `ha` block. */
  datatype HaSection = HaSection(
    hostMonitoring: string,
    vmMonitoring: string,
    admissionControlEnabled: bool,
    admissionControlPolicy: seq<PolicyEntry>)

  /** types.ClusterDrsConfigInfo */
  datatype DrsConfigInfo = DrsConfigInfo(
    enabled: bool,
    enableVmBehaviorOverrides: bool,
    vmotionRate: int,
    defaultVmBehavior: string)

  /** types.ClusterDasConfigInfo */
  datatype DasConfigInfo = DasConfigInfo(
    enabled: bool,
    vmMonitoring: string,
    hostMonitoring: string,
    admissionControlEnabled: bool)

  /** types.ClusterConfigSpec: a nil facet is not sent and leaves vSphere's
      setting alone. */
  datatype ClusterConfigSpec = ClusterConfigSpec(drsConfig: Option<DrsConfigInfo>, dasConfig: Option<DasConfigInfo>)

  /** The configuration vSphere reports for a cluster. */
  datatype ClusterConfigInfo = ClusterConfigInfo(drsConfig: DrsConfigInfo, dasConfig: DasConfigInfo)

  /** A cluster created from an empty ClusterConfigSpecEx: both facets off. */
  const NewClusterConfig := ClusterConfigInfo(DrsConfigInfo(false, false, 0, ""), DasConfigInfo(false, "", "", false))

  predicate IsDrsBehavior(v: string)
  {
    v == "manual" || v == "partiallyAutomated" || v == "fullyAutomated"
  }

  predicate IsVmMonitoring(v: string)
  {
    v == "vmAndAppMonitoring" || v == "vmMonitoringOnly" || v == "vmMonitoringDisabled"
  }

  predicate IsHostMonitoring(v: string) { v == "enabled" || v == "disabled" }

  const TooManyDrsError := "only 1 drs configuration section permitted"
  const InvalidAutomationLevelError :=
    "invalid automation level. it should be one of manual, partiallyAutomated or fullyAutomated"
  const TooManyHaError := "only 1 ha configuration section permitted"
  const InvalidVmMonitoringError :=
    "invalid vm monitoring value. it should be one of vmAndAppMonitoring, vmMonitoringOnly or vmMonitoringDisabled"
  const InvalidHostMonitoringError :=
    "invalid host monitoring value. it should be one of enabled or disabled"

  /** getClusterDrsConfigInfo: no block gives no facet, one valid block an
      enabled facet, anything else an error. */
  function GetClusterDrsConfigInfo(sections: seq<DrsSection>): (r: Result<Option<DrsConfigInfo>>)
    ensures |sections| > 1 ==> r == Err(TooManyDrsError)
    ensures |sections| == 0 ==> r == Ok(None)
    ensures |sections| == 1 ==>
      (r.Ok? <==> IsDrsBehavior(sections[0].defaultAutomationLevel)) &&
      (r.Err? ==> r.msg == InvalidAutomationLevelError)
    ensures r.Ok? && r.value.Some? ==> |sections| == 1 && r.value.value.enabled
  {
    if |sections| > 1 then Err(TooManyDrsError)
    else if |sections| == 1 then
      var s := sections[0];
      if !IsDrsBehavior(s.defaultAutomationLevel) then Err(InvalidAutomationLevelError)
      else Ok(Some(DrsConfigInfo(true, s.enableVmAutomationOverride, s.migrationThreshold, s.defaultAutomationLevel)))
    else Ok(None)
  }

  /** The Go runtime's message when getClusterDasConfigInfo asserts the
      declared policy list, which helper/schema hands back as
      []interface{}, to []map[string]interface{}: the provider panics. */
  const PolicyPanic := "interface conversion: interface {} is []interface {}, not []map[string]interface {}"

  /** getClusterDasConfigInfo: like the DRS translator, with vm_monitoring
      checked before host_monitoring. Once both are valid, a declared
      admission control policy entry reaches the type assertion that
      panics; the panic is the error PolicyPanic here. */
  function GetClusterDasConfigInfo(sections: seq<HaSection>): (r: Result<Option<DasConfigInfo>>)
    ensures |sections| > 1 ==> r == Err(TooManyHaError)
    ensures |sections| == 0 ==> r == Ok(None)
    ensures |sections| == 1 ==>
      (r.Ok? <==> IsVmMonitoring(sections[0].vmMonitoring) && IsHostMonitoring(sections[0].hostMonitoring)
                  && sections[0].admissionControlPolicy == [])
    ensures |sections| == 1 && !IsVmMonitoring(sections[0].vmMonitoring) ==> r == Err(InvalidVmMonitoringError)
    ensures |sections| == 1 && IsVmMonitoring(sections[0].vmMonitoring) && !IsHostMonitoring(sections[0].hostMonitoring)
      ==> r == Err(InvalidHostMonitoringError)
    ensures (|sections| == 1 && IsVmMonitoring(sections[0].vmMonitoring) && IsHostMonitoring(sections[0].hostMonitoring)
             && sections[0].admissionControlPolicy != []) ==> r == Err(PolicyPanic)
    ensures r.Ok? && r.value.Some? ==> |sections| == 1 && r.value.value.enabled
  {
    if |sections| > 1 then Err(TooManyHaError)
    else if |sections| == 1 then
      var s := sections[0];
      if !IsVmMonitoring(s.vmMonitoring) then Err(InvalidVmMonitoringError)
      else if !IsHostMonitoring(s.hostMonitoring) then Err(InvalidHostMonitoringError)
      else if |s.admissionControlPolicy| > 0 then Err(PolicyPanic)
      else Ok(Some(DasConfigInfo(true, s.vmMonitoring, s.hostMonitoring, s.admissionControlEnabled)))
    else Ok(None)
  }

  /** The HA translation with the policy list read as the []interface{} it
      is: the entries are collected into a list that nothing uses, so a
      block translates as if it declared none. */
  function IntendedDasConfigInfo(sections: seq<HaSection>): (r: Result<Option<DasConfigInfo>>)
    ensures |sections| != 1 ==> r == GetClusterDasConfigInfo(sections)
    ensures |sections| == 1 ==>
      (r.Ok? <==> IsVmMonitoring(sections[0].vmMonitoring) && IsHostMonitoring(sections[0].hostMonitoring))
    ensures |sections| == 1 && r.Ok? ==>
      var s := sections[0];
      r.value == Some(DasConfigInfo(true, s.vmMonitoring, s.hostMonitoring, s.admissionControlEnabled))
  {
    if |sections| == 1 then GetClusterDasConfigInfo([sections[0].(admissionControlPolicy := [])])
    else GetClusterDasConfigInfo(sections)
  }

  /** resourceVsphereClusterUpdate's spec: DRS is translated first, then HA;
      the first error stops the translation. */
  function ClusterSpec(drs: seq<DrsSection>, ha: seq<HaSection>): (r: Result<ClusterConfigSpec>)
    ensures r.Ok? <==> GetClusterDrsConfigInfo(drs).Ok? && GetClusterDasConfigInfo(ha).Ok?
    ensures GetClusterDrsConfigInfo(drs).Err? ==> r == Err(GetClusterDrsConfigInfo(drs).msg)
    ensures GetClusterDrsConfigInfo(drs).Ok? && GetClusterDasConfigInfo(ha).Err? ==>
      r == Err(GetClusterDasConfigInfo(ha).msg)
    ensures r.Ok? ==> r.value.drsConfig.Some? == (|drs| == 1) && r.value.dasConfig.Some? == (|ha| == 1)
    ensures r.Ok? ==>
      r.value.drsConfig == GetClusterDrsConfigInfo(drs).value && r.value.dasConfig == GetClusterDasConfigInfo(ha).value
  {
    match GetClusterDrsConfigInfo(drs)
    case Err(m) => Err(m)
    case Ok(drsConfig) =>
      match GetClusterDasConfigInfo(ha)
      case Err(m) => Err(m)
      case Ok(dasConfig) => Ok(ClusterConfigSpec(drsConfig, dasConfig))
  }

  /** vSphere applying a reconfigure: every facet the spec carries replaces
      the current one; a nil facet leaves it alone. */
  function ApplyClusterSpec(current: ClusterConfigInfo, spec: ClusterConfigSpec): (c: ClusterConfigInfo)
    ensures spec.drsConfig.None? ==> c.drsConfig == current.drsConfig
    ensures spec.dasConfig.None? ==> c.dasConfig == current.dasConfig
    ensures spec.drsConfig.Some? ==> c.drsConfig == spec.drsConfig.value
    ensures spec.dasConfig.Some? ==> c.dasConfig == spec.dasConfig.value
  {
    ClusterConfigInfo(
      if spec.drsConfig.Some? then spec.drsConfig.value else current.drsConfig,
      if spec.dasConfig.Some? then spec.dasConfig.value else current.dasConfig)
  }

  /** The `drs` block resourceVsphereClusterRead writes, if DRS is on. */
  function ReadDrsSection(c: DrsConfigInfo): (m: Option<map<string, string>>)
    ensures m.Some? <==> c.enabled
    ensures m.Some? ==> m.value.Keys == {"enable_vm_automation_override", "migration_threshold", "default_automation_level"}
    ensures m.Some? ==> m.value["migration_threshold"] == Itoa(c.vmotionRate)
    ensures m.Some? ==> m.value["default_automation_level"] == c.defaultVmBehavior
    ensures m.Some? ==> m.value["enable_vm_automation_override"] == FormatBool(c.enableVmBehaviorOverrides)
  {
    if c.enabled then
      Some(map[
        "enable_vm_automation_override" := FormatBool(c.enableVmBehaviorOverrides),
        "migration_threshold" := Itoa(c.vmotionRate),
        "default_automation_level" := c.defaultVmBehavior])
    else None
  }

  /** The `ha` block resourceVsphereClusterRead writes, if HA is on. */
  function ReadHaSection(c: DasConfigInfo): (m: Option<map<string, string>>)
    ensures m.Some? <==> c.enabled
    ensures m.Some? ==> m.value.Keys == {"vm_monitoring", "host_monitoring", "admissionControlEnabled"}
    ensures m.Some? ==> m.value["vm_monitoring"] == c.vmMonitoring && m.value["host_monitoring"] == c.hostMonitoring
    ensures m.Some? ==> m.value["admissionControlEnabled"] == FormatBool(c.admissionControlEnabled)
  {
    if c.enabled then
      Some(map[
        "vm_monitoring" := c.vmMonitoring,
        "host_monitoring" := c.hostMonitoring,
        "admissionControlEnabled" := FormatBool(c.admissionControlEnabled)])
    else None
  }

  // ----- Properties of the translator -----

  /** As written, an ha block with valid monitoring values and a policy
      entry makes the provider panic, where the intended translation
      accepts it. */
  lemma DeclaredPolicyPanics(s: HaSection)
    requires IsVmMonitoring(s.vmMonitoring) && IsHostMonitoring(s.hostMonitoring)
    requires s.admissionControlPolicy != []
    ensures GetClusterDasConfigInfo([s]) == Err(PolicyPanic)
    ensures IntendedDasConfigInfo([s]).Ok? && IntendedDasConfigInfo([s]).value.Some?
  {
  }

  /** In the intended translation the admission control policy never
      reaches the HA facet, and a block without entries translates as
      written. */
  lemma AdmissionControlPolicyIgnored(s: HaSection, policy: seq<PolicyEntry>)
    ensures IntendedDasConfigInfo([s]) == IntendedDasConfigInfo([s.(admissionControlPolicy := policy)])
    ensures s.admissionControlPolicy == [] ==> IntendedDasConfigInfo([s]) == GetClusterDasConfigInfo([s])
  {
  }

  /** The state Terraform holds for a declared `drs` block. */
  function DrsState(s: DrsSection): map<string, string>
  {
    map[
      "enable_vm_automation_override" := FormatBool(s.enableVmAutomationOverride),
      "migration_threshold" := Itoa(s.migrationThreshold),
      "default_automation_level" := s.defaultAutomationLevel]
  }

  /** The state Terraform holds for a declared `ha` block. */
  function HaState(s: HaSection): map<string, string>
  {
    map[
      "vm_monitoring" := s.vmMonitoring,
      "host_monitoring" := s.hostMonitoring,
      "admissionControlEnabled" := FormatBool(s.admissionControlEnabled)]
  }

  /** Declared -> vSphere -> declared for DRS: a valid block, applied to any
      cluster and read back, gives the same automation level, the same
      migration threshold (as a string) and the same override flag. */
  lemma DrsRoundTrip(s: DrsSection, current: ClusterConfigInfo, ha: seq<HaSection>)
    requires IsDrsBehavior(s.defaultAutomationLevel)
    requires GetClusterDasConfigInfo(ha).Ok?
    ensures var spec := ClusterSpec([s], ha);
      spec.Ok? && ReadDrsSection(ApplyClusterSpec(current, spec.value).drsConfig) == Some(DrsState(s))
  {
  }

  /** Declared -> vSphere -> declared for HA, for a block the source does
      not panic on (no admission control policy entry). */
  lemma HaRoundTrip(s: HaSection, current: ClusterConfigInfo, drs: seq<DrsSection>)
    requires IsVmMonitoring(s.vmMonitoring) && IsHostMonitoring(s.hostMonitoring)
    requires s.admissionControlPolicy == []
    requires GetClusterDrsConfigInfo(drs).Ok?
    ensures var spec := ClusterSpec(drs, [s]);
      spec.Ok? && ReadHaSection(ApplyClusterSpec(current, spec.value).dasConfig) == Some(HaState(s))
  {
  }

  /** Reading back is a fixed point: translating the block that was read
      back from a cluster reconfigured with a valid `drs` block yields the
      same DRS facet again, so re-applying changes nothing. */
  lemma DrsReapplyIsIdempotent(s: DrsSection, current: ClusterConfigInfo)
    requires IsDrsBehavior(s.defaultAutomationLevel)
    ensures var c := ApplyClusterSpec(current, ClusterSpec([s], []).value).drsConfig;
      var again := DrsSection(c.enableVmBehaviorOverrides, c.vmotionRate, c.defaultVmBehavior);
      GetClusterDrsConfigInfo([again]) == Ok(Some(c))
  {
  }
}
