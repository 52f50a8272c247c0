/**
 * The sync entry point of server/plugin/cloud_asset/service/cloud_instance.go:
 * `SyncInstances` with its five-minute instance cache keyed by
 * "<providerID>_<region>", and `ClearCache`. The vendor listing is an input:
 * the instances the SDK call returned (already converted), or its error.
 */
module InstanceService {
  import opened Wrappers
  import opened InstanceModel
  import opened InstanceTable
  import opened Credentials
  import Keys

  /** Time is counted in nanoseconds, like Go's `time.Duration`. */
  const Second: nat := 1_000_000_000
  const Minute: nat := 60 * Second
  const CacheExpireTime: nat := 5 * Minute

  const ErrProviderNotFound := "云厂商不存在"
  const ErrProviderDisabled := "云厂商已禁用"
  const ErrAwsUnsupported := "AWS 暂未支持"

  /** `fmt.Errorf(prefix + ": %w", err)`. */
  function Wrap(prefix: string, msg: string): string
  {
    prefix + ": " + msg
  }

  /** A cached listing and the instant it stops being used. */
  datatype SyncCache = SyncCache(data: seq<Instance>, expiredAt: Time)

  datatype SyncRequest = SyncRequest(providerId: nat, region: string, forceSync: bool)

  /** The cached listing a non-forced sync reuses: an entry whose expiry is still ahead. */
  function CacheHit(cache: map<string, SyncCache>, key: string, now: Time, force: bool): (r: Option<seq<Instance>>)
    ensures r.Some? <==> !force && key in cache && now < cache[key].expiredAt
    ensures r.Some? ==> r.value == cache[key].data
  {
    if !force && key in cache && now < cache[key].expiredAt then Some(cache[key].data) else None
  }

  /** The entry a successful fetch at `now` stores is reused exactly until five minutes have passed. */
  lemma StoredEntryLifetime(cache: map<string, SyncCache>, key: string, insts: seq<Instance>, now: Time, later: Time)
    ensures var c := cache[key := SyncCache(insts, now + CacheExpireTime)];
      && (later < now + CacheExpireTime ==> CacheHit(c, key, later, false) == Some(insts))
      && (later >= now + CacheExpireTime ==> CacheHit(c, key, later, false) == None)
      && CacheHit(c, key, later, true) == None
  {
  }

  /** ClearCache on the map: one key when both a provider and a region are given, every key otherwise. */
  function ClearedCache(cache: map<string, SyncCache>, providerId: nat, region: string): (c: map<string, SyncCache>)
    ensures providerId > 0 && region != "" ==> c == cache - {Keys.CacheKey(providerId, region)}
    ensures !(providerId > 0 && region != "") ==> c == map[]
  {
    if providerId > 0 && region != "" then cache - {Keys.CacheKey(providerId, region)} else map[]
  }

  /** A selective clear forgets only the entry of that provider and region. */
  lemma ClearOneKeepsOthers(cache: map<string, SyncCache>, providerId: nat, region: string, p: nat, r: string)
    requires providerId > 0 && region != ""
    ensures var c := ClearedCache(cache, providerId, region);
      && Keys.CacheKey(providerId, region) !in c
      && ((p, r) != (providerId, region) ==>
            (Keys.CacheKey(p, r) in c <==> Keys.CacheKey(p, r) in cache)
            && (Keys.CacheKey(p, r) in c ==> c[Keys.CacheKey(p, r)] == cache[Keys.CacheKey(p, r)]))
  {
    if (p, r) != (providerId, region) && Keys.CacheKey(p, r) == Keys.CacheKey(providerId, region) {
      Keys.CacheKeyInjective(p, r, providerId, region);
    }
  }

  /** `provider.Status != nil && *provider.Status == 1`. */
  predicate Enabled(provider: Option<ProviderRecord>)
  {
    provider.Some? && provider.value.status == Some(1)
  }

  /** The vendors whose instances are listed. */
  predicate Supported(providerType: string)
  {
    providerType == "aliyun" || providerType == "tencent"
  }

  /** The cache key of a request: `fmt.Sprintf("%d_%s", ProviderID, Region)`. */
  function Key(req: SyncRequest): string
  {
    Keys.CacheKey(req.providerId, req.region)
  }

  /** The service: the instance table and the process-wide instance cache. */
  class CloudInstanceService {
    const store: InstanceStore
    var instanceCache: map<string, SyncCache>

    ghost predicate Valid()
      reads this, store
    {
      store.Valid()
    }

    constructor (store: InstanceStore)
      requires store.Valid()
      ensures Valid() && this.store == store && instanceCache == map[]
    {
      this.store := store;
      instanceCache := map[];
    }

    /** ClearCache. */
    method ClearCache(providerId: nat, region: string)
      modifies this
      ensures instanceCache == ClearedCache(old(instanceCache), providerId, region)
    {
      if providerId > 0 && region != "" {
        instanceCache := instanceCache - {Keys.CacheKey(providerId, region)};
      } else {
        instanceCache := map[];
      }
    }

    /**
     * SyncInstances. `provider` is the row found by id (None: no such row);
     * `fetched` is what the vendor's listing call returned; `f` says which
     * statements of the reconcile transaction the database rejects.
     */
    method SyncInstances(req: SyncRequest, provider: Option<ProviderRecord>, fetched: Result<seq<Instance>>, now: Time, f: Faults)
      returns (count: nat, err: Option<string>)
      requires Valid()
      modifies this, store
      ensures Valid()
      ensures err.Some? ==> count == 0
      // the provider must exist and be enabled
      ensures provider.None? ==>
        err == Some(ErrProviderNotFound) && unchanged(store) && instanceCache == old(instanceCache)
      ensures provider.Some? && provider.value.status != Some(1) ==>
        err == Some(ErrProviderDisabled) && unchanged(store) && instanceCache == old(instanceCache)
      // a fresh cache entry is reconciled again instead of fetching
      ensures Enabled(provider) && CacheHit(old(instanceCache), Key(req), now, req.forceSync).Some? ==>
        var o := Reconcile(old(store.State()), old(instanceCache)[Key(req)].data, req.providerId, req.region, now, f);
        store.State() == o.table && count == o.count && err == o.err && instanceCache == old(instanceCache)
      // otherwise the vendor type decides
      ensures Enabled(provider) && CacheHit(old(instanceCache), Key(req), now, req.forceSync).None? ==>
        (provider.value.providerType == "aws" ==>
          err == Some(ErrAwsUnsupported) && unchanged(store) && instanceCache == old(instanceCache))
      ensures Enabled(provider) && CacheHit(old(instanceCache), Key(req), now, req.forceSync).None? ==>
        (!Supported(provider.value.providerType) && provider.value.providerType != "aws" ==>
          err == Some("不支持的云厂商类型: " + provider.value.providerType)
          && unchanged(store) && instanceCache == old(instanceCache))
      // a failed fetch marks the region's rows as failed
      ensures Enabled(provider) && CacheHit(old(instanceCache), Key(req), now, req.forceSync).None? ==>
        (Supported(provider.value.providerType) && fetched.Err? ==>
          err == Some(Wrap("同步云服务器实例失败", fetched.msg))
          && store.rows == SetSyncStatus(old(store.rows), req.providerId, req.region, "failed", now)
          && store.nextId == old(store.nextId) && instanceCache == old(instanceCache))
      // a fetched listing is reconciled; only a committed one is cached and marked successful
      ensures Enabled(provider) && CacheHit(old(instanceCache), Key(req), now, req.forceSync).None? ==>
        (Supported(provider.value.providerType) && fetched.Ok? ==>
          var o := Reconcile(old(store.State()), fetched.value, req.providerId, req.region, now, f);
          if o.err.Some? then
            err == Some(Wrap("更新数据库失败", o.err.value))
            && store.State() == old(store.State()) && instanceCache == old(instanceCache)
          else
            err.None? && count == o.count
            && store.rows == SetSyncStatus(o.table.rows, req.providerId, req.region, "success", now)
            && store.nextId == o.table.nextId
            && instanceCache == old(instanceCache)[Key(req) := SyncCache(fetched.value, now + CacheExpireTime)])
    {
      if provider.None? {
        return 0, Some(ErrProviderNotFound);
      }
      var prov := provider.value;
      if prov.status.None? || prov.status.value != 1 {
        return 0, Some(ErrProviderDisabled);
      }

      var cacheKey := Key(req);
      if !req.forceSync && cacheKey in instanceCache {
        var cache := instanceCache[cacheKey];
        if now < cache.expiredAt {
          count, err := store.UpdateInstancesFromCache(cache.data, req.providerId, req.region, now, f);
          return;
        }
      }

      var instances: seq<Instance>;
      if prov.providerType == "aliyun" || prov.providerType == "tencent" {
        if fetched.Err? {
          store.UpdateSyncStatus(req.providerId, req.region, "failed", now);
          return 0, Some(Wrap("同步云服务器实例失败", fetched.msg));
        }
        instances := fetched.value;
      } else if prov.providerType == "aws" {
        return 0, Some(ErrAwsUnsupported);
      } else {
        return 0, Some("不支持的云厂商类型: " + prov.providerType);
      }

      var e: Option<string>;
      count, e := store.UpdateInstancesFromCache(instances, req.providerId, req.region, now, f);
      if e.Some? {
        return 0, Some(Wrap("更新数据库失败", e.value));
      }

      instanceCache := instanceCache[cacheKey := SyncCache(instances, now + CacheExpireTime)];
      store.UpdateSyncStatus(req.providerId, req.region, "success", now);
      err := None;
    }
  }
}
