/**
 * Field normalisers of the instance sync
 * (server/plugin/cloud_asset/service/cloud_instance.go): the vendor status
 * maps, the public/private address precedence and the conversion of an
 * Aliyun ECS instance into a row.
 */
module InstanceFields {
  import opened Wrappers
  import opened InstanceModel

  /** The parts of an Aliyun `ecs.Instance` that the conversion reads. */
  datatype AliyunInstance = AliyunInstance(
    instanceId: string,
    instanceName: string,
    instanceType: string,
    regionId: string,
    osName: string,
    publicIpAddress: seq<string>,
    eipAddress: string,
    innerIpAddress: seq<string>,
    vpcPrivateIpAddress: seq<string>,
    status: string,
    creationTime: string,
    expiredTime: string,
    cpu: int,
    memory: int,
    instanceChargeType: string
  )

  const Unknown := "unknown"

  const AliyunStates: set<string> :=
    {"Running", "Starting", "Stopping", "Stopped", "Pending", "Deleting"}

  const TencentStates: set<string> :=
    {"RUNNING", "LAUNCHING", "STOPPING", "STOPPED", "TERMINATING"}

  /** The names a normalised status can take, besides "unknown". */
  const NormalisedStates: set<string> :=
    {"running", "starting", "stopping", "stopped", "pending", "deleting"}

  /** ASCII lower-casing of one character. */
  function LowerChar(c: char): char
  {
    if 'A' <= c <= 'Z' then (c as int + 32) as char else c
  }

  /** ASCII lower-casing, the reference the status maps are checked against. */
  function ToLower(s: string): (r: string)
    ensures |r| == |s| && forall i :: 0 <= i < |s| ==> r[i] == LowerChar(s[i])
  {
    seq(|s|, i requires 0 <= i < |s| => LowerChar(s[i]))
  }

  /** statusMap of mapAliyunStatus, then "unknown". */
  function MapAliyunStatus(status: string): (r: string)
    ensures status in AliyunStates <==> r != Unknown
    ensures r in NormalisedStates || r == Unknown
  {
    if status == "Running" then "running"
    else if status == "Starting" then "starting"
    else if status == "Stopping" then "stopping"
    else if status == "Stopped" then "stopped"
    else if status == "Pending" then "pending"
    else if status == "Deleting" then "deleting"
    else Unknown
  }

  /** statusMap of mapTencentStatus, then "unknown". */
  function MapTencentStatus(status: string): (r: string)
    ensures status in TencentStates <==> r != Unknown
    ensures r in NormalisedStates - {"pending"} || r == Unknown
  {
    if status == "RUNNING" then "running"
    else if status == "LAUNCHING" then "starting"
    else if status == "STOPPING" then "stopping"
    else if status == "STOPPED" then "stopped"
    else if status == "TERMINATING" then "deleting"
    else Unknown
  }

  /** Each of the six Aliyun states maps to its own name in lower case. */
  lemma AliyunStatusIsLowerCase(status: string)
    requires status in AliyunStates
    ensures MapAliyunStatus(status) == ToLower(status)
  {
    var r := MapAliyunStatus(status);
    assert |r| == |status|;
    forall i | 0 <= i < |r| ensures r[i] == LowerChar(status[i]) { }
  }

  /** Tencent's three states that differ from the normalised name only by case. */
  lemma TencentStatusIsLowerCase(status: string)
    requires status in {"RUNNING", "STOPPING", "STOPPED"}
    ensures MapTencentStatus(status) == ToLower(status)
  {
    var r := MapTencentStatus(status);
    assert |r| == |status|;
    forall i | 0 <= i < |r| ensures r[i] == LowerChar(status[i]) { }
  }

  /** Tencent's two states named differently: LAUNCHING is starting, TERMINATING is deleting, as Aliyun's Starting and Deleting. */
  lemma TencentStatusRenamed()
    ensures MapTencentStatus("LAUNCHING") == "starting" == MapAliyunStatus("Starting")
    ensures MapTencentStatus("TERMINATING") == "deleting" == MapAliyunStatus("Deleting")
  {
  }

  /** Distinct Tencent states map to distinct normalised statuses. */
  lemma TencentStatusInjective(a: string, b: string)
    requires a in TencentStates && b in TencentStates && a != b
    ensures MapTencentStatus(a) != MapTencentStatus(b)
  {
  }

  /** Every Tencent status lands on a value the Aliyun map also produces. */
  lemma TencentStatusesAreAliyunStatuses(status: string)
    ensures exists a :: a in AliyunStates + {""} && MapAliyunStatus(a) == MapTencentStatus(status)
  {
    var r := MapTencentStatus(status);
    if r == "running" { assert MapAliyunStatus("Running") == r; }
    else if r == "starting" { assert MapAliyunStatus("Starting") == r; }
    else if r == "stopping" { assert MapAliyunStatus("Stopping") == r; }
    else if r == "stopped" { assert MapAliyunStatus("Stopped") == r; }
    else if r == "deleting" { assert MapAliyunStatus("Deleting") == r; }
    else { assert MapAliyunStatus("") == r; }
  }

  /** Distinct known vendor states never collapse onto one normalised status. */
  lemma AliyunStatusInjective(a: string, b: string)
    requires a in AliyunStates && b in AliyunStates && a != b
    ensures MapAliyunStatus(a) != MapAliyunStatus(b)
  {
  }

  /** First public address, else a non-empty elastic IP, else "". */
  function ExtractPublicIP(inst: AliyunInstance): (r: string)
    ensures |inst.publicIpAddress| > 0 ==> r == inst.publicIpAddress[0]
    ensures |inst.publicIpAddress| == 0 ==> r == inst.eipAddress
    ensures r != "" ==> r in inst.publicIpAddress || r == inst.eipAddress
  {
    if |inst.publicIpAddress| > 0 then inst.publicIpAddress[0]
    else if inst.eipAddress != "" then inst.eipAddress
    else ""
  }

  /** First classic-network inner address, else the first VPC private address, else "". */
  function ExtractPrivateIP(inst: AliyunInstance): (r: string)
    ensures |inst.innerIpAddress| > 0 ==> r == inst.innerIpAddress[0]
    ensures |inst.innerIpAddress| == 0 && |inst.vpcPrivateIpAddress| > 0 ==> r == inst.vpcPrivateIpAddress[0]
    ensures r != "" ==> r in inst.innerIpAddress || r in inst.vpcPrivateIpAddress
  {
    if |inst.innerIpAddress| > 0 then inst.innerIpAddress[0]
    else if |inst.vpcPrivateIpAddress| > 0 then inst.vpcPrivateIpAddress[0]
    else ""
  }

  const GiB: nat := 1024 * 1024 * 1024

  /** A timestamp field: "" is skipped, otherwise the (abstract) parse decides. */
  function ParseOptional(s: string, parse: string -> Option<Time>): (t: Option<Time>)
    ensures s == "" ==> t == None
    ensures s != "" ==> t == parse(s)
  {
    if s != "" then parse(s) else None
  }

  /**
   * convertAliyunInstance. `parse` stands for
   * `time.Parse("2006-01-02T15:04:05Z", _)`, None when it fails.
   */
  function ConvertAliyunInstance(inst: AliyunInstance, parse: string -> Option<Time>): (r: Instance)
    ensures r.instanceId == inst.instanceId && r.region == inst.regionId
    ensures r.status == MapAliyunStatus(inst.status) && r.instanceStatus == inst.status
    ensures r.publicIp == ExtractPublicIP(inst) && r.privateIp == ExtractPrivateIP(inst)
    ensures r.cpu.Some? <==> inst.cpu > 0
    ensures r.cpu.Some? ==> r.cpu.value == inst.cpu
    ensures r.memory.Some? <==> inst.memory > 0
    ensures r.memory.Some? ==> r.memory.value * GiB <= inst.memory < (r.memory.value + 1) * GiB
    ensures r.instanceName == inst.instanceName && r.instanceType == inst.instanceType
    ensures r.osName == inst.osName && r.chargeType == inst.instanceChargeType
    ensures inst.creationTime == "" ==> r.createdTime == None
    ensures inst.creationTime != "" ==> r.createdTime == parse(inst.creationTime)
    ensures inst.expiredTime == "" ==> r.expiredTime == None
    ensures inst.expiredTime != "" ==> r.expiredTime == parse(inst.expiredTime)
    ensures r.id == 0 && r.providerId == 0 && r.lastSyncAt == None && r.lastSyncStatus == ""
    ensures r.osVersion == "" && r.diskSize == None && r.remark == ""
  {
    Empty.(
      instanceId := inst.instanceId,
      instanceName := inst.instanceName,
      instanceType := inst.instanceType,
      region := inst.regionId,
      osName := inst.osName,
      publicIp := ExtractPublicIP(inst),
      privateIp := ExtractPrivateIP(inst),
      status := MapAliyunStatus(inst.status),
      instanceStatus := inst.status,
      createdTime := ParseOptional(inst.creationTime, parse),
      expiredTime := ParseOptional(inst.expiredTime, parse),
      cpu := if inst.cpu > 0 then Some(inst.cpu) else None,
      memory := if inst.memory > 0 then Some(inst.memory / 1024 / 1024 / 1024) else None,
      chargeType := inst.instanceChargeType
    )
  }
}
