/**
 * The `gva_cloud_instances` table as the instance service changes it
 * (server/plugin/cloud_asset/service/cloud_instance.go): manual create,
 * batch delete, and the reconcile step of a sync, which upserts the fetched
 * instances and then deletes the stale rows of the synced provider and
 * region, all inside one transaction.
 *
 * The table is a sequence of rows in primary-key order. The functions below
 * give the meaning of every operation on a `Table` value; the class
 * `InstanceStore` performs them in place and is proved against them.
 */
module InstanceTable {
  import opened Wrappers
  import opened InstanceModel

  const ErrExists := "实例已存在"
  const ErrEmptyIds := "ids不能为空"
  const StatusSynced := "synced"
  const StatusManual := "manual"

  /** The message of a failed database statement (its text is the driver's). */
  const ErrDatabase := "database error"

  /**
   * Which statement of the reconcile transaction the database rejects:
   * the upsert of the instance at `upsertFailsAt`, the stale delete, or the commit.
   */
  datatype Faults = Faults(upsertFailsAt: Option<nat>, deleteFails: bool, commitFails: bool)

  const NoFaults := Faults(None, false, false)

  /** A snapshot of the table: its rows and the next auto-increment id. */
  datatype Table = Table(rows: seq<Instance>, nextId: nat)

  /** No two rows share an `(instance_id, provider_id)` key. */
  ghost predicate KeysUnique(rows: seq<Instance>)
  {
    forall i, j :: 0 <= i < j < |rows| ==> !HasKey(rows[j], rows[i].instanceId, rows[i].providerId)
  }

  /** Primary keys are positive, increasing in row order and below the next id. */
  ghost predicate IdsOrdered(rows: seq<Instance>, nextId: nat)
  {
    && (forall i :: 0 <= i < |rows| ==> 0 < rows[i].id < nextId)
    && (forall i, j :: 0 <= i < j < |rows| ==> rows[i].id < rows[j].id)
  }

  ghost predicate TableValid(t: Table)
  {
    0 < t.nextId && IdsOrdered(t.rows, t.nextId) && KeysUnique(t.rows)
  }

  /** `WHERE instance_id = ? AND provider_id = ?` followed by `First`: the first matching position. */
  function FindRow(rows: seq<Instance>, instanceId: string, providerId: nat): (k: Option<nat>)
    ensures k.Some? ==> k.value < |rows| && HasKey(rows[k.value], instanceId, providerId)
    ensures k.Some? ==> forall j :: 0 <= j < k.value ==> !HasKey(rows[j], instanceId, providerId)
    ensures k.None? ==> forall j :: 0 <= j < |rows| ==> !HasKey(rows[j], instanceId, providerId)
  {
    if rows == [] then None
    else if HasKey(rows[0], instanceId, providerId) then Some(0)
    else match FindRow(rows[1..], instanceId, providerId)
      case None => None
      case Some(k) => Some(k + 1)
  }

  /** The row `FindRow` finds. */
  function Lookup(rows: seq<Instance>, instanceId: string, providerId: nat): (r: Option<Instance>)
    ensures r.Some? ==> r.value in rows && HasKey(r.value, instanceId, providerId)
    ensures r.None? ==> forall x :: x in rows ==> !HasKey(x, instanceId, providerId)
  {
    match FindRow(rows, instanceId, providerId)
    case None => None
    case Some(k) => Some(rows[k])
  }

  /** With unique keys, a key that is found occurs in exactly one row. */
  lemma FoundExactlyOnce(rows: seq<Instance>, instanceId: string, providerId: nat, j: nat)
    requires KeysUnique(rows) && FindRow(rows, instanceId, providerId).Some?
    requires j < |rows| && HasKey(rows[j], instanceId, providerId)
    ensures FindRow(rows, instanceId, providerId) == Some(j)
  {
  }

  /** What `createCloudInstance` stores: the given row with a fresh id and a manual sync mark. */
  function ManualRow(inst: Instance, id: nat, now: Time): Instance
  {
    inst.(id := id, lastSyncAt := Some(now), lastSyncStatus := StatusManual)
  }

  /** CreateCloudInstance on a table value: refuse an existing key, otherwise append. */
  function Create(t: Table, inst: Instance, now: Time): (r: (Table, Option<string>))
    ensures r.1.Some? <==> FindRow(t.rows, inst.instanceId, inst.providerId).Some?
    ensures r.1.Some? ==> r.1 == Some(ErrExists) && r.0 == t
    ensures r.1.None? ==> r.0.rows == t.rows + [ManualRow(inst, t.nextId, now)] && r.0.nextId == t.nextId + 1
    ensures TableValid(t) ==> TableValid(r.0)
  {
    if FindRow(t.rows, inst.instanceId, inst.providerId).Some? then (t, Some(ErrExists))
    else
      var row := ManualRow(inst, t.nextId, now);
      var t' := Table(t.rows + [row], t.nextId + 1);
      assert forall i :: 0 <= i < |t.rows| ==> !HasKey(row, t.rows[i].instanceId, t.rows[i].providerId);
      (t', None)
  }

  /** `DELETE ... WHERE id IN ids`. */
  function DeleteIds(rows: seq<Instance>, ids: set<nat>): (r: seq<Instance>)
    ensures forall x :: x in r <==> x in rows && x.id !in ids
  {
    if rows == [] then []
    else
      var rest := DeleteIds(rows[1..], ids);
      if rows[0].id in ids then rest else [rows[0]] + rest
  }

  /** BatchDeleteCloudInstance on a table value: an empty id list is refused. */
  function BatchDelete(t: Table, ids: seq<nat>): (r: (Table, Option<string>))
    ensures r.1.Some? <==> ids == []
    ensures r.1.Some? ==> r.1 == Some(ErrEmptyIds) && r.0 == t
    ensures r.1.None? ==> r.0.nextId == t.nextId
    ensures r.1.None? ==> forall x :: x in r.0.rows <==> x in t.rows && x.id !in ids
  {
    if ids == [] then (t, Some(ErrEmptyIds))
    else (Table(DeleteIds(t.rows, set i | i in ids), t.nextId), None)
  }

  /**
   * A row put in front of a valid tail keeps the table valid when it sorts
   * first and its key does not occur in the tail; dropped rows of the
   * recursive deletions always satisfy this.
   */
  lemma PrependValid(row: Instance, rest: seq<Instance>, nextId: nat)
    requires IdsOrdered(rest, nextId) && KeysUnique(rest) && 0 < row.id < nextId
    requires forall x :: x in rest ==> row.id < x.id && !HasKey(x, row.instanceId, row.providerId)
    ensures IdsOrdered([row] + rest, nextId) && KeysUnique([row] + rest)
  {
    var r := [row] + rest;
    forall i, j | 0 <= i < j < |r|
      ensures r[i].id < r[j].id && !HasKey(r[j], r[i].instanceId, r[i].providerId)
    {
      assert r[j] == rest[j - 1];
      if i > 0 {
        assert r[i] == rest[i - 1];
      }
    }
  }

  /** Deleting rows by id keeps the table valid. */
  lemma {:induction false} DeleteIdsValid(rows: seq<Instance>, ids: set<nat>, nextId: nat)
    requires IdsOrdered(rows, nextId) && KeysUnique(rows)
    ensures IdsOrdered(DeleteIds(rows, ids), nextId) && KeysUnique(DeleteIds(rows, ids))
  {
    if rows != [] {
      DeleteIdsValid(rows[1..], ids, nextId);
      var rest := DeleteIds(rows[1..], ids);
      if rows[0].id !in ids {
        forall x | x in rest
          ensures rows[0].id < x.id && !HasKey(x, rows[0].instanceId, rows[0].providerId)
        {
          var j :| 0 <= j < |rows[1..]| && rows[1..][j] == x;
          assert rows[j + 1] == x;
        }
        PrependValid(rows[0], rest, nextId);
      }
    }
  }

  /** The fields every upserted instance is stamped with before it is written. */
  function Stamp(inst: Instance, providerId: nat, region: string, now: Time): Instance
  {
    inst.(providerId := providerId, region := region, lastSyncAt := Some(now), lastSyncStatus := StatusSynced)
  }

  /** The value GORM writes for a field: the new one unless it is the zero value. */
  function PickString(n: string, o: string): string { if n != "" then n else o }
  function PickNat(n: nat, o: nat): nat { if n != 0 then n else o }
  function PickOption<T>(n: Option<T>, o: Option<T>): Option<T> { if n.Some? then n else o }

  /** Every field of `n` other than the id that is not its zero value holds in `r`. */
  predicate DataWritten(n: Instance, r: Instance)
  {
    && (n.instanceId != "" ==> r.instanceId == n.instanceId)
    && (n.instanceName != "" ==> r.instanceName == n.instanceName)
    && (n.providerId != 0 ==> r.providerId == n.providerId)
    && (n.region != "" ==> r.region == n.region)
    && (n.instanceType != "" ==> r.instanceType == n.instanceType)
    && (n.cpu.Some? ==> r.cpu == n.cpu)
    && (n.memory.Some? ==> r.memory == n.memory)
    && (n.osName != "" ==> r.osName == n.osName)
    && (n.osVersion != "" ==> r.osVersion == n.osVersion)
    && (n.diskSize.Some? ==> r.diskSize == n.diskSize)
    && (n.publicIp != "" ==> r.publicIp == n.publicIp)
    && (n.privateIp != "" ==> r.privateIp == n.privateIp)
    && (n.status != "" ==> r.status == n.status)
    && (n.instanceStatus != "" ==> r.instanceStatus == n.instanceStatus)
    && (n.createdTime.Some? ==> r.createdTime == n.createdTime)
    && (n.expiredTime.Some? ==> r.expiredTime == n.expiredTime)
    && (n.chargeType != "" ==> r.chargeType == n.chargeType)
    && (n.remark != "" ==> r.remark == n.remark)
    && (n.lastSyncAt.Some? ==> r.lastSyncAt == n.lastSyncAt)
    && (n.lastSyncStatus != "" ==> r.lastSyncStatus == n.lastSyncStatus)
  }

  /** Every field of `n` other than the id that is its zero value keeps in `r` the value it has in `o`. */
  predicate DataKept(o: Instance, n: Instance, r: Instance)
  {
    && (n.instanceId == "" ==> r.instanceId == o.instanceId)
    && (n.instanceName == "" ==> r.instanceName == o.instanceName)
    && (n.providerId == 0 ==> r.providerId == o.providerId)
    && (n.region == "" ==> r.region == o.region)
    && (n.instanceType == "" ==> r.instanceType == o.instanceType)
    && (n.cpu.None? ==> r.cpu == o.cpu)
    && (n.memory.None? ==> r.memory == o.memory)
    && (n.osName == "" ==> r.osName == o.osName)
    && (n.osVersion == "" ==> r.osVersion == o.osVersion)
    && (n.diskSize.None? ==> r.diskSize == o.diskSize)
    && (n.publicIp == "" ==> r.publicIp == o.publicIp)
    && (n.privateIp == "" ==> r.privateIp == o.privateIp)
    && (n.status == "" ==> r.status == o.status)
    && (n.instanceStatus == "" ==> r.instanceStatus == o.instanceStatus)
    && (n.createdTime.None? ==> r.createdTime == o.createdTime)
    && (n.expiredTime.None? ==> r.expiredTime == o.expiredTime)
    && (n.chargeType == "" ==> r.chargeType == o.chargeType)
    && (n.remark == "" ==> r.remark == o.remark)
    && (n.lastSyncAt.None? ==> r.lastSyncAt == o.lastSyncAt)
    && (n.lastSyncStatus == "" ==> r.lastSyncStatus == o.lastSyncStatus)
  }

  /**
   * GORM `Updates(&struct)`: only the non-zero fields of `n` are written
   * over `o`; empty strings, nil pointers and a zero provider id are skipped.
   */
  function Merge(o: Instance, n: Instance): (r: Instance)
    ensures r.id == (if n.id != 0 then n.id else o.id)
    ensures r.instanceId == (if n.instanceId != "" then n.instanceId else o.instanceId)
    ensures r.providerId == (if n.providerId != 0 then n.providerId else o.providerId)
    ensures n.lastSyncStatus != "" ==> r.lastSyncStatus == n.lastSyncStatus
    ensures n.lastSyncAt.Some? ==> r.lastSyncAt == n.lastSyncAt
    ensures n.region != "" ==> r.region == n.region
    ensures DataWritten(n, r) && DataKept(o, n, r)
  {
    Instance(
      PickNat(n.id, o.id),
      PickString(n.instanceId, o.instanceId),
      PickString(n.instanceName, o.instanceName),
      PickNat(n.providerId, o.providerId),
      PickString(n.region, o.region),
      PickString(n.instanceType, o.instanceType),
      PickOption(n.cpu, o.cpu),
      PickOption(n.memory, o.memory),
      PickString(n.osName, o.osName),
      PickString(n.osVersion, o.osVersion),
      PickOption(n.diskSize, o.diskSize),
      PickString(n.publicIp, o.publicIp),
      PickString(n.privateIp, o.privateIp),
      PickString(n.status, o.status),
      PickString(n.instanceStatus, o.instanceStatus),
      PickOption(n.createdTime, o.createdTime),
      PickOption(n.expiredTime, o.expiredTime),
      PickString(n.chargeType, o.chargeType),
      PickString(n.remark, o.remark),
      PickOption(n.lastSyncAt, o.lastSyncAt),
      PickString(n.lastSyncStatus, o.lastSyncStatus)
    )
  }

  /** The write rule determines the update: any row that obeys it is `Merge`'s. */
  lemma MergeUnique(o: Instance, n: Instance, r: Instance)
    requires r.id == (if n.id != 0 then n.id else o.id)
    requires DataWritten(n, r) && DataKept(o, n, r)
    ensures r == Merge(o, n)
  {
  }

  /** A row as the sync leaves it: owned by the provider, marked synced at `now`, in the region if one was given. */
  predicate Synced(row: Instance, providerId: nat, region: string, now: Time)
  {
    && row.providerId == providerId
    && row.lastSyncStatus == StatusSynced
    && row.lastSyncAt == Some(now)
    && (region != "" ==> row.region == region)
  }

  /** One iteration of `upsertInstances`: update the row with the key, or insert a new one. */
  function UpsertOne(t: Table, inst: Instance, providerId: nat, region: string, now: Time): (r: Table)
    ensures FindRow(t.rows, inst.instanceId, providerId).None? ==> |r.rows| == |t.rows| + 1 && r.nextId == t.nextId + 1
    ensures FindRow(t.rows, inst.instanceId, providerId).Some? ==> |r.rows| == |t.rows| && r.nextId == t.nextId
    // a new key: the stamped instance is appended under the next id
    ensures FindRow(t.rows, inst.instanceId, providerId).None? ==>
      r.rows[..|t.rows|] == t.rows && r.rows[|t.rows|] == Stamp(inst, providerId, region, now).(id := t.nextId)
    // a known key: only its row changes; it keeps its id and takes the non-zero fields of the stamped instance
    ensures FindRow(t.rows, inst.instanceId, providerId).Some? ==>
      var k := FindRow(t.rows, inst.instanceId, providerId).value;
      && (forall i :: 0 <= i < |t.rows| && i != k ==> r.rows[i] == t.rows[i])
      && r.rows[k].id == t.rows[k].id
      && DataWritten(Stamp(inst, providerId, region, now), r.rows[k])
      && DataKept(t.rows[k], Stamp(inst, providerId, region, now), r.rows[k])
  {
    var stamped := Stamp(inst, providerId, region, now);
    match FindRow(t.rows, inst.instanceId, providerId)
    case None => Table(t.rows + [stamped.(id := t.nextId)], t.nextId + 1)
    case Some(k) => Table(t.rows[k := Merge(t.rows[k], stamped.(id := t.rows[k].id))], t.nextId)
  }

  /** `upsertInstances` over the whole list, in list order. */
  function UpsertAll(t: Table, insts: seq<Instance>, providerId: nat, region: string, now: Time): (r: Table)
    ensures |t.rows| <= |r.rows| <= |t.rows| + |insts|
    ensures r.nextId - t.nextId == |r.rows| - |t.rows|
  {
    if insts == [] then t
    else UpsertOne(UpsertAll(t, insts[..|insts| - 1], providerId, region, now), insts[|insts| - 1], providerId, region, now)
  }

  /** Upserting one more instance of the list extends the fold by one step. */
  lemma UpsertAllStep(t: Table, insts: seq<Instance>, i: nat, providerId: nat, region: string, now: Time)
    requires i < |insts|
    ensures UpsertAll(t, insts[..i + 1], providerId, region, now)
      == UpsertOne(UpsertAll(t, insts[..i], providerId, region, now), insts[i], providerId, region, now)
  {
    assert insts[..i + 1][..i] == insts[..i];
  }

  /** No fetched instance carries the key of `row` for this provider. */
  predicate NotFetched(row: Instance, insts: seq<Instance>, providerId: nat)
  {
    forall i :: 0 <= i < |insts| ==> !HasKey(row, insts[i].instanceId, providerId)
  }

  /** One upsert keeps the table valid, keeps every earlier row's position, id and key, and touches at most the row with its key. */
  lemma UpsertOneValid(t: Table, inst: Instance, providerId: nat, region: string, now: Time)
    requires TableValid(t)
    ensures var t' := UpsertOne(t, inst, providerId, region, now);
      && TableValid(t')
      && t.nextId <= t'.nextId
      && |t.rows| <= |t'.rows| <= |t.rows| + 1
      && (forall i :: 0 <= i < |t.rows| ==> t'.rows[i].id == t.rows[i].id)
      && (forall i :: 0 <= i < |t.rows| ==> HasKey(t'.rows[i], t.rows[i].instanceId, t.rows[i].providerId))
      && (forall i :: 0 <= i < |t.rows| && !HasKey(t.rows[i], inst.instanceId, providerId) ==> t'.rows[i] == t.rows[i])
  {
    var stamped := Stamp(inst, providerId, region, now);
    match FindRow(t.rows, inst.instanceId, providerId)
    case None =>
      AppendValid(t, stamped.(id := t.nextId));
    case Some(k) =>
      var row := Merge(t.rows[k], stamped.(id := t.rows[k].id));
      UpdateValid(t, k, row);
  }

  /** Appending a row with the next id and a new key keeps the table valid. */
  lemma AppendValid(t: Table, row: Instance)
    requires TableValid(t) && row.id == t.nextId
    requires forall i :: 0 <= i < |t.rows| ==> !HasKey(row, t.rows[i].instanceId, t.rows[i].providerId)
    ensures TableValid(Table(t.rows + [row], t.nextId + 1))
  {
  }

  /** Replacing a row by one with its id and key keeps the table valid. */
  lemma UpdateValid(t: Table, k: nat, row: Instance)
    requires TableValid(t) && k < |t.rows|
    requires row.id == t.rows[k].id && HasKey(row, t.rows[k].instanceId, t.rows[k].providerId)
    ensures TableValid(Table(t.rows[k := row], t.nextId))
  {
    var rows := t.rows[k := row];
    assert forall i :: 0 <= i < |t.rows| ==> HasKey(rows[i], t.rows[i].instanceId, t.rows[i].providerId);
  }

  /** After one upsert the instance's key finds a row, and that row is synced. */
  lemma UpsertOneSynced(t: Table, inst: Instance, providerId: nat, region: string, now: Time)
    requires TableValid(t)
    ensures var t' := UpsertOne(t, inst, providerId, region, now);
      && Lookup(t'.rows, inst.instanceId, providerId).Some?
      && Synced(Lookup(t'.rows, inst.instanceId, providerId).value, providerId, region, now)
  {
    UpsertOneValid(t, inst, providerId, region, now);
    var t' := UpsertOne(t, inst, providerId, region, now);
    match FindRow(t.rows, inst.instanceId, providerId)
    case None =>
      assert HasKey(t'.rows[|t.rows|], inst.instanceId, providerId);
      FoundExactlyOnce(t'.rows, inst.instanceId, providerId, |t.rows|);
    case Some(k) =>
      FoundExactlyOnce(t'.rows, inst.instanceId, providerId, k);
  }

  /**
   * The upsert loop's result: the table stays valid, earlier rows keep their
   * position, id and key, rows no fetched instance matches are untouched,
   * at most one row per instance is added, and every fetched instance has
   * exactly one synced row.
   */
  lemma {:induction false} UpsertAllFacts(t: Table, insts: seq<Instance>, providerId: nat, region: string, now: Time)
    requires TableValid(t)
    ensures var t' := UpsertAll(t, insts, providerId, region, now);
      && TableValid(t')
      && t.nextId <= t'.nextId
      && |t.rows| <= |t'.rows| <= |t.rows| + |insts|
      && (forall i :: 0 <= i < |t.rows| ==> t'.rows[i].id == t.rows[i].id)
      && (forall i :: 0 <= i < |t.rows| ==> HasKey(t'.rows[i], t.rows[i].instanceId, t.rows[i].providerId))
      && (forall i :: 0 <= i < |t.rows| && NotFetched(t.rows[i], insts, providerId) ==> t'.rows[i] == t.rows[i])
      && (forall j :: 0 <= j < |insts| ==>
            Lookup(t'.rows, insts[j].instanceId, providerId).Some?
            && Synced(Lookup(t'.rows, insts[j].instanceId, providerId).value, providerId, region, now))
  {
    if insts != [] {
      var init := insts[..|insts| - 1];
      var last := insts[|insts| - 1];
      var m := UpsertAll(t, init, providerId, region, now);
      UpsertAllFacts(t, init, providerId, region, now);
      UpsertOneValid(m, last, providerId, region, now);
      var t' := UpsertOne(m, last, providerId, region, now);
      assert t' == UpsertAll(t, insts, providerId, region, now);
      forall i | 0 <= i < |t.rows| && NotFetched(t.rows[i], insts, providerId)
        ensures t'.rows[i] == t.rows[i]
      {
        assert NotFetched(t.rows[i], init, providerId) by {
          forall j | 0 <= j < |init| ensures !HasKey(t.rows[i], init[j].instanceId, providerId) {
            assert init[j] == insts[j];
          }
        }
        assert !HasKey(t.rows[i], insts[|insts| - 1].instanceId, providerId);
      }
    }
    forall j | 0 <= j < |insts|
      ensures Lookup(UpsertAll(t, insts, providerId, region, now).rows, insts[j].instanceId, providerId).Some?
      ensures Synced(Lookup(UpsertAll(t, insts, providerId, region, now).rows, insts[j].instanceId, providerId).value, providerId, region, now)
    {
      UpsertAllSyncedAt(t, insts, j, providerId, region, now);
    }
  }

  /** The last conjunct of `UpsertAllFacts` for one position `j`, by induction on the list. */
  lemma {:induction false} UpsertAllSyncedAt(t: Table, insts: seq<Instance>, j: nat, providerId: nat, region: string, now: Time)
    requires TableValid(t) && j < |insts|
    ensures var t' := UpsertAll(t, insts, providerId, region, now);
      && Lookup(t'.rows, insts[j].instanceId, providerId).Some?
      && Synced(Lookup(t'.rows, insts[j].instanceId, providerId).value, providerId, region, now)
  {
    var init := insts[..|insts| - 1];
    var last := insts[|insts| - 1];
    var m := UpsertAll(t, init, providerId, region, now);
    UpsertAllValid(t, init, providerId, region, now);
    if j < |insts| - 1 && insts[j].instanceId != last.instanceId {
      assert init[j] == insts[j];
      UpsertAllSyncedAt(t, init, j, providerId, region, now);
      UpsertOneValid(m, last, providerId, region, now);
      UnchangedLookup(m, UpsertOne(m, last, providerId, region, now), insts[j].instanceId, last.instanceId, providerId);
    } else {
      UpsertOneSynced(m, last, providerId, region, now);
    }
  }

  /** The upsert loop keeps the table valid and never reuses an id. */
  lemma {:induction false} UpsertAllValid(t: Table, insts: seq<Instance>, providerId: nat, region: string, now: Time)
    requires TableValid(t)
    ensures TableValid(UpsertAll(t, insts, providerId, region, now))
    ensures t.nextId <= UpsertAll(t, insts, providerId, region, now).nextId
  {
    if insts != [] {
      var init := insts[..|insts| - 1];
      UpsertAllValid(t, init, providerId, region, now);
      UpsertOneValid(UpsertAll(t, init, providerId, region, now), insts[|insts| - 1], providerId, region, now);
    }
  }

  /** A row whose key no fetched instance carries keeps its position and contents through the loop. */
  lemma {:induction false} UpsertAllKeeps(t: Table, insts: seq<Instance>, i: nat, providerId: nat, region: string, now: Time)
    requires i < |t.rows| && NotFetched(t.rows[i], insts, providerId)
    ensures var u := UpsertAll(t, insts, providerId, region, now);
      i < |u.rows| && u.rows[i] == t.rows[i]
  {
    if insts != [] {
      var init := insts[..|insts| - 1];
      assert NotFetched(t.rows[i], init, providerId) by {
        forall j | 0 <= j < |init| ensures !HasKey(t.rows[i], init[j].instanceId, providerId) {
          assert init[j] == insts[j];
        }
      }
      UpsertAllKeeps(t, init, i, providerId, region, now);
      assert !HasKey(t.rows[i], insts[|insts| - 1].instanceId, providerId);
    }
  }

  /** No later instance of the list carries the instance id of `insts[j]`. */
  predicate LastOfKey(insts: seq<Instance>, j: nat)
    requires j < |insts|
  {
    forall k :: j < k < |insts| ==> insts[k].instanceId != insts[j].instanceId
  }

  /** No earlier instance of the list carries the instance id of `insts[j]`. */
  predicate FirstOfKey(insts: seq<Instance>, j: nat)
    requires j < |insts|
  {
    forall k :: 0 <= k < j ==> insts[k].instanceId != insts[j].instanceId
  }

  /** Some fetched instance carries the key of `row` for this provider. */
  predicate Fetched(row: Instance, insts: seq<Instance>, providerId: nat)
  {
    exists k :: 0 <= k < |insts| && HasKey(row, insts[k].instanceId, providerId)
  }

  /**
   * One upsert stores the instance: the row its key then finds holds every
   * non-zero field of the stamped instance, and a new row is the stamped
   * instance itself with the next id (`tx.Create(&instance)`).
   */
  lemma UpsertOneWrites(t: Table, inst: Instance, providerId: nat, region: string, now: Time)
    requires TableValid(t)
    ensures var t' := UpsertOne(t, inst, providerId, region, now);
      var found := Lookup(t'.rows, inst.instanceId, providerId);
      && found.Some?
      && DataWritten(Stamp(inst, providerId, region, now), found.value)
      && (FindRow(t.rows, inst.instanceId, providerId).None? ==>
            found.value == Stamp(inst, providerId, region, now).(id := t.nextId))
  {
    UpsertOneValid(t, inst, providerId, region, now);
    var t' := UpsertOne(t, inst, providerId, region, now);
    match FindRow(t.rows, inst.instanceId, providerId)
    case None =>
      assert HasKey(t'.rows[|t.rows|], inst.instanceId, providerId);
      FoundExactlyOnce(t'.rows, inst.instanceId, providerId, |t.rows|);
    case Some(k) =>
      FoundExactlyOnce(t'.rows, inst.instanceId, providerId, k);
  }

  /** Every row the upsert loop adds carries the key of a fetched instance. */
  lemma {:induction false} UpsertAllNewRows(t: Table, insts: seq<Instance>, providerId: nat, region: string, now: Time)
    requires TableValid(t)
    ensures var t' := UpsertAll(t, insts, providerId, region, now);
      forall i :: |t.rows| <= i < |t'.rows| ==> Fetched(t'.rows[i], insts, providerId)
  {
    if insts != [] {
      var init := insts[..|insts| - 1];
      var last := insts[|insts| - 1];
      var m := UpsertAll(t, init, providerId, region, now);
      UpsertAllValid(t, init, providerId, region, now);
      UpsertAllNewRows(t, init, providerId, region, now);
      UpsertOneValid(m, last, providerId, region, now);
      var t' := UpsertOne(m, last, providerId, region, now);
      forall i | |t.rows| <= i < |t'.rows|
        ensures Fetched(t'.rows[i], insts, providerId)
      {
        if i < |m.rows| {
          var k :| 0 <= k < |init| && HasKey(m.rows[i], init[k].instanceId, providerId);
          assert init[k] == insts[k];
          assert HasKey(t'.rows[i], insts[k].instanceId, providerId);
        } else {
          assert HasKey(t'.rows[i], insts[|insts| - 1].instanceId, providerId);
        }
      }
    }
  }

  /**
   * The upsert loop stores what was fetched: for the last instance of the list
   * with a given instance id, the row that id finds holds every non-zero
   * field of that instance as stamped (`Updates(&instance)` writes them).
   */
  lemma UpsertAllWrites(t: Table, insts: seq<Instance>, providerId: nat, region: string, now: Time)
    requires TableValid(t)
    ensures var t' := UpsertAll(t, insts, providerId, region, now);
      forall j :: 0 <= j < |insts| && LastOfKey(insts, j) ==>
        && Lookup(t'.rows, insts[j].instanceId, providerId).Some?
        && DataWritten(Stamp(insts[j], providerId, region, now), Lookup(t'.rows, insts[j].instanceId, providerId).value)
  {
    forall j | 0 <= j < |insts| && LastOfKey(insts, j)
      ensures var t' := UpsertAll(t, insts, providerId, region, now);
        && Lookup(t'.rows, insts[j].instanceId, providerId).Some?
        && DataWritten(Stamp(insts[j], providerId, region, now), Lookup(t'.rows, insts[j].instanceId, providerId).value)
    {
      UpsertAllWritesAt(t, insts, j, providerId, region, now);
    }
  }

  /** `UpsertAllWrites` for one position `j`, by induction on the list. */
  lemma {:induction false} UpsertAllWritesAt(t: Table, insts: seq<Instance>, j: nat, providerId: nat, region: string, now: Time)
    requires TableValid(t) && j < |insts| && LastOfKey(insts, j)
    ensures var t' := UpsertAll(t, insts, providerId, region, now);
      && Lookup(t'.rows, insts[j].instanceId, providerId).Some?
      && DataWritten(Stamp(insts[j], providerId, region, now), Lookup(t'.rows, insts[j].instanceId, providerId).value)
  {
    var init := insts[..|insts| - 1];
    var last := insts[|insts| - 1];
    var m := UpsertAll(t, init, providerId, region, now);
    UpsertAllValid(t, init, providerId, region, now);
    if j == |insts| - 1 {
      UpsertOneWrites(m, last, providerId, region, now);
    } else {
      assert init[j] == insts[j];
      assert LastOfKey(init, j) by {
        forall k | j < k < |init| ensures init[k].instanceId != init[j].instanceId {
          assert init[k] == insts[k];
        }
      }
      UpsertAllWritesAt(t, init, j, providerId, region, now);
      UpsertOneValid(m, last, providerId, region, now);
      UnchangedLookup(m, UpsertOne(m, last, providerId, region, now), insts[j].instanceId, last.instanceId, providerId);
    }
  }

  /**
   * An instance fetched once, whose key no row had, is inserted as it was
   * fetched and stamped, under a fresh id.
   */
  lemma UpsertAllInserts(t: Table, insts: seq<Instance>, providerId: nat, region: string, now: Time)
    requires TableValid(t)
    ensures var t' := UpsertAll(t, insts, providerId, region, now);
      forall j :: 0 <= j < |insts| && FirstOfKey(insts, j) && LastOfKey(insts, j) && FindRow(t.rows, insts[j].instanceId, providerId).None? ==>
        && Lookup(t'.rows, insts[j].instanceId, providerId).Some?
        && Lookup(t'.rows, insts[j].instanceId, providerId).value
             == Stamp(insts[j], providerId, region, now).(id := Lookup(t'.rows, insts[j].instanceId, providerId).value.id)
        && t.nextId <= Lookup(t'.rows, insts[j].instanceId, providerId).value.id
  {
    forall j | 0 <= j < |insts| && FirstOfKey(insts, j) && LastOfKey(insts, j) && FindRow(t.rows, insts[j].instanceId, providerId).None?
      ensures var t' := UpsertAll(t, insts, providerId, region, now);
        && Lookup(t'.rows, insts[j].instanceId, providerId).Some?
        && Lookup(t'.rows, insts[j].instanceId, providerId).value
             == Stamp(insts[j], providerId, region, now).(id := Lookup(t'.rows, insts[j].instanceId, providerId).value.id)
        && t.nextId <= Lookup(t'.rows, insts[j].instanceId, providerId).value.id
    {
      UpsertAllInsertsAt(t, insts, j, providerId, region, now);
    }
  }

  /** `UpsertAllInserts` for one position `j`, by induction on the list. */
  lemma {:induction false} UpsertAllInsertsAt(t: Table, insts: seq<Instance>, j: nat, providerId: nat, region: string, now: Time)
    requires TableValid(t) && j < |insts| && FirstOfKey(insts, j) && LastOfKey(insts, j)
    requires FindRow(t.rows, insts[j].instanceId, providerId).None?
    ensures var t' := UpsertAll(t, insts, providerId, region, now);
      && Lookup(t'.rows, insts[j].instanceId, providerId).Some?
      && Lookup(t'.rows, insts[j].instanceId, providerId).value
           == Stamp(insts[j], providerId, region, now).(id := Lookup(t'.rows, insts[j].instanceId, providerId).value.id)
      && t.nextId <= Lookup(t'.rows, insts[j].instanceId, providerId).value.id
  {
    var init := insts[..|insts| - 1];
    var last := insts[|insts| - 1];
    var m := UpsertAll(t, init, providerId, region, now);
    UpsertAllValid(t, init, providerId, region, now);
    if j == |insts| - 1 {
      assert forall k :: 0 <= k < |init| ==> init[k] == insts[k];
      FreshKey(t, init, last, providerId, region, now);
      UpsertOneWrites(m, last, providerId, region, now);
    } else {
      assert init[j] == insts[j];
      assert FirstOfKey(init, j) && LastOfKey(init, j) by {
        forall k | 0 <= k < |init| && k != j ensures init[k].instanceId != init[j].instanceId {
          assert init[k] == insts[k];
        }
      }
      UpsertAllInsertsAt(t, init, j, providerId, region, now);
      UpsertOneValid(m, last, providerId, region, now);
      UnchangedLookup(m, UpsertOne(m, last, providerId, region, now), insts[j].instanceId, last.instanceId, providerId);
    }
  }

  /** A key other than the upserted one finds the same row before and after the upsert. */
  lemma UnchangedLookup(m: Table, t': Table, key: string, upserted: string, providerId: nat)
    requires KeysUnique(t'.rows) && |m.rows| <= |t'.rows| && key != upserted
    requires Lookup(m.rows, key, providerId).Some?
    requires forall i :: 0 <= i < |m.rows| && !HasKey(m.rows[i], upserted, providerId) ==> t'.rows[i] == m.rows[i]
    ensures Lookup(t'.rows, key, providerId) == Lookup(m.rows, key, providerId)
  {
    var k := FindRow(m.rows, key, providerId).value;
    assert t'.rows[k] == m.rows[k];
    FoundExactlyOnce(t'.rows, key, providerId, k);
  }

  /** A key no row had and no earlier instance carried is still absent before its own upsert. */
  lemma FreshKey(t: Table, init: seq<Instance>, last: Instance, providerId: nat, region: string, now: Time)
    requires TableValid(t) && FindRow(t.rows, last.instanceId, providerId).None?
    requires forall k :: 0 <= k < |init| ==> init[k].instanceId != last.instanceId
    ensures FindRow(UpsertAll(t, init, providerId, region, now).rows, last.instanceId, providerId).None?
    ensures t.nextId <= UpsertAll(t, init, providerId, region, now).nextId
  {
    var m := UpsertAll(t, init, providerId, region, now);
    UpsertAllFacts(t, init, providerId, region, now);
    UpsertAllNewRows(t, init, providerId, region, now);
    forall i | 0 <= i < |m.rows| ensures !HasKey(m.rows[i], last.instanceId, providerId) {
      if i >= |t.rows| {
        var k :| 0 <= k < |init| && HasKey(m.rows[i], init[k].instanceId, providerId);
      }
    }
  }

  /** The ids passed to `Not("instance_id", existingIDs)`. */
  function InstanceIds(insts: seq<Instance>): (ids: seq<string>)
    ensures |ids| == |insts| && forall i :: 0 <= i < |insts| ==> ids[i] == insts[i].instanceId
  {
    seq(|insts|, i requires 0 <= i < |insts| => insts[i].instanceId)
  }

  /** The rows `deleteStaleInstances` keeps: all but those of the provider and region outside `ids`. */
  predicate Kept(row: Instance, ids: seq<string>, providerId: nat, region: string)
  {
    !(row.providerId == providerId && row.region == region && row.instanceId !in ids)
  }

  /** `DELETE WHERE provider_id = ? AND region = ? AND instance_id NOT IN ids`. */
  function DeleteStale(rows: seq<Instance>, ids: seq<string>, providerId: nat, region: string): (r: seq<Instance>)
    ensures |r| <= |rows|
    ensures forall i :: 0 <= i < |r| ==> Kept(r[i], ids, providerId, region)
  {
    if rows == [] then []
    else
      var rest := DeleteStale(rows[1..], ids, providerId, region);
      if Kept(rows[0], ids, providerId, region) then [rows[0]] + rest else rest
  }

  /** Stale deletion removes exactly the rows of this provider and region that are not in the list. */
  lemma {:induction false} DeleteStaleMembers(rows: seq<Instance>, ids: seq<string>, providerId: nat, region: string)
    ensures forall x :: x in DeleteStale(rows, ids, providerId, region) <==> x in rows && Kept(x, ids, providerId, region)
  {
    if rows != [] {
      DeleteStaleMembers(rows[1..], ids, providerId, region);
      assert forall x :: x in rows <==> x == rows[0] || x in rows[1..];
    }
  }

  /** Deleting stale rows keeps the table valid. */
  lemma {:induction false} DeleteStaleValid(rows: seq<Instance>, ids: seq<string>, providerId: nat, region: string, nextId: nat)
    requires IdsOrdered(rows, nextId) && KeysUnique(rows)
    ensures IdsOrdered(DeleteStale(rows, ids, providerId, region), nextId)
    ensures KeysUnique(DeleteStale(rows, ids, providerId, region))
  {
    if rows != [] {
      DeleteStaleValid(rows[1..], ids, providerId, region, nextId);
      DeleteStaleMembers(rows[1..], ids, providerId, region);
      var rest := DeleteStale(rows[1..], ids, providerId, region);
      if Kept(rows[0], ids, providerId, region) {
        forall x | x in rest
          ensures rows[0].id < x.id && !HasKey(x, rows[0].instanceId, rows[0].providerId)
        {
          var j :| 0 <= j < |rows[1..]| && rows[1..][j] == x;
          assert rows[j + 1] == x;
        }
        PrependValid(rows[0], rest, nextId);
      }
    }
  }

  /** A row found by key survives stale deletion when it is kept, and is still the one found. */
  lemma {:induction false} DeleteStaleLookup(rows: seq<Instance>, ids: seq<string>, providerId: nat, region: string, instanceId: string, pid: nat)
    requires Lookup(rows, instanceId, pid).Some?
    requires Kept(Lookup(rows, instanceId, pid).value, ids, providerId, region)
    ensures Lookup(DeleteStale(rows, ids, providerId, region), instanceId, pid) == Lookup(rows, instanceId, pid)
  {
    if !HasKey(rows[0], instanceId, pid) {
      assert Lookup(rows, instanceId, pid) == Lookup(rows[1..], instanceId, pid);
      DeleteStaleLookup(rows[1..], ids, providerId, region, instanceId, pid);
    }
  }

  /** The three results of `updateInstancesFromCache`: new table, count, error. */
  datatype Outcome = Outcome(table: Table, count: nat, err: Option<string>)

  /** The table a successful reconcile commits: upsert, then delete the stale rows. */
  function Reconciled(t: Table, insts: seq<Instance>, providerId: nat, region: string, now: Time): (r: Table)
    ensures t.nextId <= r.nextId <= t.nextId + |insts|
    ensures |r.rows| <= |t.rows| + |insts|
  {
    var u := UpsertAll(t, insts, providerId, region, now);
    Table(DeleteStale(u.rows, InstanceIds(insts), providerId, region), u.nextId)
  }

  /**
   * updateInstancesFromCache on a table value: nothing to do for an empty
   * list; otherwise upsert then delete stale rows, and on any failed
   * statement roll back to the table as it was with a zero count.
   */
  function Reconcile(t: Table, insts: seq<Instance>, providerId: nat, region: string, now: Time, f: Faults): (o: Outcome)
    ensures o.err.Some? <==>
      insts != [] && ((f.upsertFailsAt.Some? && f.upsertFailsAt.value < |insts|) || f.deleteFails || f.commitFails)
    ensures o.err.Some? ==> o.err == Some(ErrDatabase)
    ensures o.count == 0 || o.count == |insts|
  {
    if insts == [] then Outcome(t, 0, None)
    else if f.upsertFailsAt.Some? && f.upsertFailsAt.value < |insts| then Outcome(t, 0, Some(ErrDatabase))
    else if f.deleteFails || f.commitFails then Outcome(t, 0, Some(ErrDatabase))
    else Outcome(Reconciled(t, insts, providerId, region, now), |insts|, None)
  }

  /** A failed or empty reconcile leaves the table exactly as it was, with count 0. */
  lemma ReconcileNoEffect(t: Table, insts: seq<Instance>, providerId: nat, region: string, now: Time, f: Faults)
    requires insts == [] || Reconcile(t, insts, providerId, region, now, f).err.Some?
    ensures Reconcile(t, insts, providerId, region, now, f).table == t
    ensures Reconcile(t, insts, providerId, region, now, f).count == 0
  {
  }

  /** A non-empty reconcile either commits `Reconciled` and counts every fetched instance, or fails. */
  lemma ReconcileCommits(t: Table, insts: seq<Instance>, providerId: nat, region: string, now: Time, f: Faults)
    requires insts != []
    ensures var o := Reconcile(t, insts, providerId, region, now, f);
      o.err.None? ==> o.table == Reconciled(t, insts, providerId, region, now) && o.count == |insts|
    ensures f == NoFaults ==> Reconcile(t, insts, providerId, region, now, f).err.None?
  {
  }

  /** The committed table is valid: ids ordered, no duplicate key. */
  lemma ReconciledValid(t: Table, insts: seq<Instance>, providerId: nat, region: string, now: Time)
    requires TableValid(t)
    ensures TableValid(Reconciled(t, insts, providerId, region, now))
  {
    var u := UpsertAll(t, insts, providerId, region, now);
    UpsertAllFacts(t, insts, providerId, region, now);
    DeleteStaleValid(u.rows, InstanceIds(insts), providerId, region, u.nextId);
  }

  /** Every fetched instance has exactly one row, and it is synced. */
  lemma ReconciledSynced(t: Table, insts: seq<Instance>, providerId: nat, region: string, now: Time, j: nat)
    requires TableValid(t) && j < |insts|
    ensures var rows := Reconciled(t, insts, providerId, region, now).rows;
      && Lookup(rows, insts[j].instanceId, providerId).Some?
      && Synced(Lookup(rows, insts[j].instanceId, providerId).value, providerId, region, now)
  {
    var ids := InstanceIds(insts);
    var u := UpsertAll(t, insts, providerId, region, now);
    UpsertAllFacts(t, insts, providerId, region, now);
    assert ids[j] == insts[j].instanceId;
    DeleteStaleLookup(u.rows, ids, providerId, region, insts[j].instanceId, providerId);
  }

  /** After commit, the row of the last instance fetched with an id holds that instance's non-zero fields as stamped. */
  lemma ReconciledWrites(t: Table, insts: seq<Instance>, providerId: nat, region: string, now: Time, j: nat)
    requires TableValid(t) && j < |insts| && LastOfKey(insts, j)
    ensures var rows := Reconciled(t, insts, providerId, region, now).rows;
      && Lookup(rows, insts[j].instanceId, providerId).Some?
      && DataWritten(Stamp(insts[j], providerId, region, now), Lookup(rows, insts[j].instanceId, providerId).value)
  {
    var ids := InstanceIds(insts);
    var u := UpsertAll(t, insts, providerId, region, now);
    UpsertAllWritesAt(t, insts, j, providerId, region, now);
    assert ids[j] == insts[j].instanceId;
    DeleteStaleLookup(u.rows, ids, providerId, region, insts[j].instanceId, providerId);
  }

  /** After commit, an instance fetched once with a new key is stored exactly as fetched and stamped, under a fresh id. */
  lemma ReconciledInserts(t: Table, insts: seq<Instance>, providerId: nat, region: string, now: Time, j: nat)
    requires TableValid(t) && j < |insts| && FirstOfKey(insts, j) && LastOfKey(insts, j)
    requires FindRow(t.rows, insts[j].instanceId, providerId).None?
    ensures var rows := Reconciled(t, insts, providerId, region, now).rows;
      && Lookup(rows, insts[j].instanceId, providerId).Some?
      && Lookup(rows, insts[j].instanceId, providerId).value
           == Stamp(insts[j], providerId, region, now).(id := Lookup(rows, insts[j].instanceId, providerId).value.id)
      && t.nextId <= Lookup(rows, insts[j].instanceId, providerId).value.id
  {
    var ids := InstanceIds(insts);
    var u := UpsertAll(t, insts, providerId, region, now);
    UpsertAllInsertsAt(t, insts, j, providerId, region, now);
    assert ids[j] == insts[j].instanceId;
    DeleteStaleLookup(u.rows, ids, providerId, region, insts[j].instanceId, providerId);
  }

  /** No row of this provider and region lies outside the fetched list (for a non-empty list). */
  lemma ReconciledNoStale(t: Table, insts: seq<Instance>, providerId: nat, region: string, now: Time, x: Instance)
    requires x in Reconciled(t, insts, providerId, region, now).rows
    requires x.providerId == providerId && x.region == region
    ensures x.instanceId in InstanceIds(insts)
  {
    var u := UpsertAll(t, insts, providerId, region, now);
    DeleteStaleMembers(u.rows, InstanceIds(insts), providerId, region);
  }

  /** A row of another provider, or of this provider in another region and not fetched, is left as it was. */
  lemma ReconciledKeepsOthers(t: Table, insts: seq<Instance>, providerId: nat, region: string, now: Time, x: Instance)
    requires TableValid(t) && x in t.rows && NotFetched(x, insts, providerId)
    requires !(x.providerId == providerId && x.region == region)
    ensures x in Reconciled(t, insts, providerId, region, now).rows
  {
    var u := UpsertAll(t, insts, providerId, region, now);
    var i :| 0 <= i < |t.rows| && t.rows[i] == x;
    UpsertAllKeeps(t, insts, i, providerId, region, now);
    DeleteStaleMembers(u.rows, InstanceIds(insts), providerId, region);
  }

  /** `updateSyncStatus`: mark every row of the provider and region with a status and time. */
  function SetSyncStatus(rows: seq<Instance>, providerId: nat, region: string, status: string, now: Time): (r: seq<Instance>)
    ensures |r| == |rows|
    ensures forall i :: 0 <= i < |rows| && !(rows[i].providerId == providerId && rows[i].region == region) ==> r[i] == rows[i]
    ensures forall i :: 0 <= i < |rows| && rows[i].providerId == providerId && rows[i].region == region ==>
      r[i] == rows[i].(lastSyncStatus := status, lastSyncAt := Some(now))
  {
    seq(|rows|, i requires 0 <= i < |rows| =>
      if rows[i].providerId == providerId && rows[i].region == region
      then rows[i].(lastSyncStatus := status, lastSyncAt := Some(now))
      else rows[i])
  }

  /** Marking sync status changes no id or key, so the table stays valid. */
  lemma SetSyncStatusValid(t: Table, providerId: nat, region: string, status: string, now: Time)
    requires TableValid(t)
    ensures TableValid(Table(SetSyncStatus(t.rows, providerId, region, status, now), t.nextId))
  {
    var r := SetSyncStatus(t.rows, providerId, region, status, now);
    assert forall i :: 0 <= i < |r| ==>
      r[i].id == t.rows[i].id && r[i].instanceId == t.rows[i].instanceId && r[i].providerId == t.rows[i].providerId;
  }

  /** The instance table, changed in place by the service. */
  class InstanceStore {
    var rows: seq<Instance>
    var nextId: nat

    function State(): Table
      reads this
    {
      Table(rows, nextId)
    }

    ghost predicate Valid()
      reads this
    {
      TableValid(State())
    }

    constructor ()
      ensures Valid() && rows == [] && nextId == 1
    {
      rows := [];
      nextId := 1;
    }

    /** CreateCloudInstance: refuse an existing `(instance_id, provider_id)`, otherwise insert a manual row. */
    method CreateCloudInstance(inst: Instance, now: Time) returns (err: Option<string>)
      requires Valid()
      modifies this
      ensures Valid()
      ensures (State(), err) == Create(old(State()), inst, now)
    {
      if FindRow(rows, inst.instanceId, inst.providerId).Some? {
        return Some(ErrExists);
      }
      rows := rows + [ManualRow(inst, nextId, now)];
      nextId := nextId + 1;
      err := None;
    }

    /** BatchDeleteCloudInstance: refuse an empty id list, otherwise delete the rows with those ids. */
    method BatchDeleteCloudInstance(ids: seq<nat>) returns (err: Option<string>)
      requires Valid()
      modifies this
      ensures Valid()
      ensures (State(), err) == BatchDelete(old(State()), ids)
    {
      if |ids| == 0 {
        return Some(ErrEmptyIds);
      }
      var idSet := set i | i in ids;
      DeleteIdsValid(rows, idSet, nextId);
      rows := DeleteIds(rows, idSet);
      err := None;
    }

    /** updateSyncStatus; its error is ignored by the caller, so it has none here. */
    method UpdateSyncStatus(providerId: nat, region: string, status: string, now: Time)
      requires Valid()
      modifies this
      ensures Valid()
      ensures rows == SetSyncStatus(old(rows), providerId, region, status, now) && nextId == old(nextId)
    {
      SetSyncStatusValid(State(), providerId, region, status, now);
      rows := SetSyncStatus(rows, providerId, region, status, now);
    }

    /**
     * upsertInstances inside the transaction. `failsAt` names the instance
     * whose statement the database rejects; the rows written before it stay
     * in the transaction for the caller to roll back.
     */
    method Upsert(insts: seq<Instance>, providerId: nat, region: string, now: Time, failsAt: Option<nat>)
      returns (count: nat, err: Option<string>)
      requires Valid()
      modifies this
      ensures Valid()
      ensures err.None? <==> !(failsAt.Some? && failsAt.value < |insts|)
      ensures err.None? ==> count == |insts| && State() == UpsertAll(old(State()), insts, providerId, region, now)
      ensures err.Some? ==> count == 0 && err == Some(ErrDatabase)
      ensures err.Some? ==> State() == UpsertAll(old(State()), insts[..failsAt.value], providerId, region, now)
    {
      count := 0;
      var i := 0;
      while i < |insts|
        invariant 0 <= i <= |insts|
        invariant count == i
        invariant failsAt.Some? ==> i <= failsAt.value
        invariant Valid()
        invariant State() == UpsertAll(old(State()), insts[..i], providerId, region, now)
      {
        if failsAt.Some? && failsAt.value == i {
          return 0, Some(ErrDatabase);
        }
        UpsertAllStep(old(State()), insts, i, providerId, region, now);
        UpsertRow(insts[i], providerId, region, now);
        count := count + 1;
        i := i + 1;
      }
      assert insts[..i] == insts;
      err := None;
    }

    /** One iteration of upsertInstances: find the row by key, then update it or insert the stamped instance. */
    method UpsertRow(inst: Instance, providerId: nat, region: string, now: Time)
      requires Valid()
      modifies this
      ensures Valid()
      ensures State() == UpsertOne(old(State()), inst, providerId, region, now)
    {
      UpsertOneValid(State(), inst, providerId, region, now);
      var stamped := Stamp(inst, providerId, region, now);
      var k := FindRow(rows, inst.instanceId, providerId);
      if k.None? {
        rows := rows + [stamped.(id := nextId)];
        nextId := nextId + 1;
      } else {
        rows := rows[k.value := Merge(rows[k.value], stamped.(id := rows[k.value].id))];
      }
    }

    /** deleteStaleInstances: collect the fetched ids, then delete the rest of the provider's region. */
    method DeleteStaleRows(insts: seq<Instance>, providerId: nat, region: string, fails: bool)
      returns (err: Option<string>)
      requires Valid()
      modifies this
      ensures Valid()
      ensures err.Some? <==> fails
      ensures err.Some? ==> err == Some(ErrDatabase) && State() == old(State())
      ensures err.None? ==> rows == DeleteStale(old(rows), InstanceIds(insts), providerId, region) && nextId == old(nextId)
    {
      var existingIds: seq<string> := [];
      var i := 0;
      while i < |insts|
        invariant 0 <= i <= |insts|
        invariant existingIds == InstanceIds(insts[..i])
      {
        existingIds := existingIds + [insts[i].instanceId];
        i := i + 1;
      }
      assert insts[..i] == insts;
      if fails {
        return Some(ErrDatabase);
      }
      DeleteStaleValid(rows, existingIds, providerId, region, nextId);
      rows := DeleteStale(rows, existingIds, providerId, region);
      err := None;
    }

    /**
     * updateInstancesFromCache: an empty list is a no-op; otherwise upsert and
     * stale deletion run in one transaction that is rolled back on any error.
     */
    method UpdateInstancesFromCache(insts: seq<Instance>, providerId: nat, region: string, now: Time, f: Faults)
      returns (count: nat, err: Option<string>)
      requires Valid()
      modifies this
      ensures Valid()
      ensures Outcome(State(), count, err) == Reconcile(old(State()), insts, providerId, region, now, f)
    {
      if |insts| == 0 {
        return 0, None;
      }
      var savedRows, savedNext := rows, nextId;
      count, err := Upsert(insts, providerId, region, now, f.upsertFailsAt);
      if err.Some? {
        rows, nextId := savedRows, savedNext;
        return 0, err;
      }
      err := DeleteStaleRows(insts, providerId, region, f.deleteFails);
      if err.Some? {
        rows, nextId := savedRows, savedNext;
        return 0, err;
      }
      if f.commitFails {
        rows, nextId := savedRows, savedNext;
        return 0, Some(ErrDatabase);
      }
    }
  }
}
