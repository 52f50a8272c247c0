/**
 * The cloud-instance row of the `gva_cloud_instances` table
 * (server/plugin/cloud_asset/model/cloud_instance.go). Pointer fields of the
 * Go struct are `Option`s; times are abstract instants (natural numbers).
 */
module InstanceModel {
  import opened Wrappers

  type Time = nat

  datatype Instance = Instance(
    id: nat,                       // primary key; 0 until the row is stored
    instanceId: string,            // the vendor's instance id
    instanceName: string,
    providerId: nat,
    region: string,
    instanceType: string,
    cpu: Option<int>,
    memory: Option<int>,           // in GB
    osName: string,
    osVersion: string,
    diskSize: Option<int>,
    publicIp: string,
    privateIp: string,
    status: string,                // normalised status
    instanceStatus: string,        // the vendor's raw status
    createdTime: Option<Time>,
    expiredTime: Option<Time>,
    chargeType: string,
    remark: string,
    lastSyncAt: Option<Time>,
    lastSyncStatus: string
  )

  /** The zero value of the Go struct. */
  const Empty: Instance := Instance(0, "", "", 0, "", "", None, None, "", "", None,
    "", "", "", "", None, None, "", "", None, "")

  /** The key the service uses to look a row up: `instance_id = ? AND provider_id = ?`. */
  predicate HasKey(row: Instance, instanceId: string, providerId: nat)
  {
    row.instanceId == instanceId && row.providerId == providerId
  }
}
