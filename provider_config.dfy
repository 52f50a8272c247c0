/**
 * Provider configuration assembly
 * (server/plugin/cloud_asset/service/cloud_provider.go): the vendor region
 * listing with its dispatch errors, Tencent's AVAILABLE filter, the region
 * whitelist of a provider row, the display name of a vendor, and the
 * ten-minute configuration cache keyed by "<projectId>_<providerType>".
 * Vendor SDK answers are inputs.
 */
module ProviderConfig {
  import opened Wrappers
  import opened Credentials
  import Crypto
  import Keys

  datatype RegionVO = RegionVO(regionId: string, localName: string)

  /** A Tencent `RegionInfo`: its state pointer may be nil. */
  datatype TencentRegion = TencentRegion(region: string, regionName: string, regionState: Option<string>)

  /** What each vendor's region listing call returned. */
  datatype VendorRegions = VendorRegions(aliyun: Result<seq<RegionVO>>, tencent: Result<seq<TencentRegion>>)

  datatype ProviderInfo = ProviderInfo(name: string, version: string)
  datatype ProviderLimits = ProviderLimits(maxSyncBatch: int)
  datatype ProviderConfigResponse = ProviderConfigResponse(providerInfo: ProviderInfo, regions: seq<RegionVO>, limits: ProviderLimits)

  const EmptyResponse := ProviderConfigResponse(ProviderInfo("", ""), [], ProviderLimits(0))

  const Version := "v1.0"
  const MaxSyncBatch := 5

  const ErrAwsUnsupported := "AWS 暂未支持"
  const ErrNoCredential := "该项目未配置有效的云厂商凭证"
  const ErrVendor := "调用云厂商API失败: "

  /** Nanoseconds, as Go's `time.Duration`. */
  const ConfigCacheTtl: nat := 10 * 60 * 1_000_000_000

  /** getProviderName: display names of the three known vendors, anything else unchanged. */
  function GetProviderName(t: string): (r: string)
    ensures r == t <==> t !in {"aliyun", "tencent", "aws"}
    ensures t in {"aliyun", "tencent", "aws"} ==> r in {"阿里云", "腾讯云", "AWS"}
  {
    if t == "aliyun" then "阿里云"
    else if t == "tencent" then "腾讯云"
    else if t == "aws" then "AWS"
    else t
  }

  // ---- Tencent regions ----

  predicate IsAvailable(r: TencentRegion)
  {
    r.regionState.Some? && r.regionState.value == "AVAILABLE"
  }

  function RegionOf(r: TencentRegion): RegionVO
  {
    RegionVO(r.region, r.regionName)
  }

  /** The AVAILABLE regions of a Tencent listing, in listing order. */
  function Available(rs: seq<TencentRegion>): (r: seq<RegionVO>)
    ensures |r| <= |rs|
    ensures (forall i :: 0 <= i < |rs| ==> IsAvailable(rs[i])) ==> |r| == |rs|
  {
    if rs == [] then []
    else Available(rs[..|rs| - 1]) + (if IsAvailable(rs[|rs| - 1]) then [RegionOf(rs[|rs| - 1])] else [])
  }

  /** A region is listed exactly when some entry with a non-nil AVAILABLE state carries it. */
  lemma {:induction false} AvailableMembers(rs: seq<TencentRegion>, x: RegionVO)
    ensures x in Available(rs) <==> exists r :: r in rs && IsAvailable(r) && RegionOf(r) == x
  {
    if rs != [] {
      var init := rs[..|rs| - 1];
      AvailableMembers(init, x);
      assert rs == init + [rs[|rs| - 1]];
      if x in Available(rs) && x !in Available(init) {
        assert IsAvailable(rs[|rs| - 1]) && RegionOf(rs[|rs| - 1]) == x;
      }
      if exists r :: r in rs && IsAvailable(r) && RegionOf(r) == x {
        var r :| r in rs && IsAvailable(r) && RegionOf(r) == x;
        if r != rs[|rs| - 1] {
          assert r in init;
        }
      }
    }
  }

  /** The loop of getTencentRegions that keeps the AVAILABLE entries. */
  method FilterAvailable(rs: seq<TencentRegion>) returns (regions: seq<RegionVO>)
    ensures regions == Available(rs)
  {
    regions := [];
    var i := 0;
    while i < |rs|
      invariant 0 <= i <= |rs|
      invariant regions == Available(rs[..i])
    {
      var r := rs[i];
      if r.regionState.Some? && r.regionState.value == "AVAILABLE" {
        regions := regions + [RegionVO(r.region, r.regionName)];
      }
      assert rs[..i + 1][..i] == rs[..i];
      i := i + 1;
    }
    assert rs[..i] == rs;
  }

  /** GetRegions: dispatch on the vendor; AWS and unknown vendors are errors. */
  method GetRegions(provider: string, sdk: VendorRegions) returns (r: Result<seq<RegionVO>>)
    ensures provider == "aliyun" ==> r == sdk.aliyun
    ensures provider == "tencent" && sdk.tencent.Err? ==> r == Err(sdk.tencent.msg)
    ensures provider == "tencent" && sdk.tencent.Ok? ==> r == Ok(Available(sdk.tencent.value))
    ensures provider == "aws" ==> r == Err(ErrAwsUnsupported)
    ensures provider !in {"aliyun", "tencent", "aws"} ==> r == Err("unsupported provider: " + provider)
  {
    if provider == "aliyun" {
      r := sdk.aliyun;
    } else if provider == "tencent" {
      if sdk.tencent.Err? {
        r := Err(sdk.tencent.msg);
      } else {
        var regions := FilterAvailable(sdk.tencent.value);
        r := Ok(regions);
      }
    } else if provider == "aws" {
      r := Err(ErrAwsUnsupported);
    } else {
      r := Err("unsupported provider: " + provider);
    }
  }

  // ---- the region whitelist ----

  /** Go's `unicode.IsSpace`. */
  predicate IsSpace(c: char)
  {
    c == ' ' || c == '\t' || c == '\n' || c == '\U{000B}' || c == '\U{000C}' || c == '\r'
    || c == '\U{0085}' || c == '\U{00A0}' || c == '\U{1680}' || ('\U{2000}' <= c <= '\U{200A}')
    || c == '\U{2028}' || c == '\U{2029}' || c == '\U{202F}' || c == '\U{205F}' || c == '\U{3000}'
  }

  /** The number of white-space characters `s` starts with. */
  function LeadingSpaces(s: string): (n: nat)
    ensures n <= |s|
    ensures forall i :: 0 <= i < n ==> IsSpace(s[i])
    ensures n < |s| ==> !IsSpace(s[n])
  {
    if s != [] && IsSpace(s[0]) then 1 + LeadingSpaces(s[1..]) else 0
  }

  /** Trailing white space removed. */
  function TrimRight(s: string): (r: string)
    ensures |r| <= |s| && r == s[..|r|]
    ensures forall i :: |r| <= i < |s| ==> IsSpace(s[i])
    ensures r != [] ==> !IsSpace(r[|r| - 1])
  {
    if s != [] && IsSpace(s[|s| - 1]) then TrimRight(s[..|s| - 1]) else s
  }

  /**
   * strings.TrimSpace: the slice of `s` after its leading white space, with
   * white space on neither end, and only white space cut away.
   */
  function TrimSpace(s: string): (r: string)
    ensures LeadingSpaces(s) + |r| <= |s| && r == s[LeadingSpaces(s)..LeadingSpaces(s) + |r|]
    ensures forall i :: LeadingSpaces(s) + |r| <= i < |s| ==> IsSpace(s[i])
    ensures r != [] ==> !IsSpace(r[0]) && !IsSpace(r[|r| - 1])
  {
    var l := LeadingSpaces(s);
    var r := TrimRight(s[l..]);
    assert forall i :: l + |r| <= i < |s| ==> s[i] == s[l..][i - l];
    assert r != [] ==> r[0] == s[l];
    r
  }

  /** strings.Split(s, ","). */
  function Split(s: string): (pieces: seq<string>)
    ensures 0 < |pieces| <= |s| + 1
  {
    if s == [] then [""]
    else
      var rest := Split(s[1..]);
      if s[0] == ',' then [""] + rest else [[s[0]] + rest[0]] + rest[1..]
  }

  /** strings.Join(pieces, ","). */
  function Join(pieces: seq<string>): string
  {
    if |pieces| <= 1 then (if pieces == [] then "" else pieces[0])
    else pieces[0] + "," + Join(pieces[1..])
  }

  /** Splitting loses nothing (joining the pieces gives the string back) and no piece holds a comma. */
  lemma {:induction false} SplitJoin(s: string)
    ensures Join(Split(s)) == s
    ensures forall i :: 0 <= i < |Split(s)| ==> ',' !in Split(s)[i]
  {
    if s != [] {
      SplitJoin(s[1..]);
      var rest := Split(s[1..]);
      if s[0] == ',' {
        assert Split(s) == [""] + rest;
        assert s == [','] + s[1..];
      } else {
        var ps := Split(s);
        assert ps == [[s[0]] + rest[0]] + rest[1..];
        if |rest| > 1 {
          assert ps[1..] == rest[1..];
          assert Join(rest) == rest[0] + "," + Join(rest[1..]);
        }
        assert s == [s[0]] + s[1..];
      }
    }
  }

  /** The allowed region ids of a whitelist's pieces: each piece trimmed, empty ones dropped. */
  function TokenSet(pieces: seq<string>): set<string>
  {
    set p | p in pieces && TrimSpace(p) != "" :: TrimSpace(p)
  }

  /** Trimming a piece without commas gives a token without commas. */
  lemma TrimKeepsNoComma(p: string)
    requires ',' !in p
    ensures ',' !in TrimSpace(p)
  {
    var t := TrimSpace(p);
    var l := LeadingSpaces(p);
    forall k | 0 <= k < |t|
      ensures t[k] != ','
    {
      assert t[k] == p[l + k];
    }
  }

  /** A whitelist token is never empty, holds no comma and has no surrounding white space. */
  lemma TokenShape(csv: string, t: string)
    requires t in TokenSet(Split(csv))
    ensures t != "" && ',' !in t && !IsSpace(t[0]) && !IsSpace(t[|t| - 1])
  {
    var pieces := Split(csv);
    var p :| p in pieces && TrimSpace(p) != "" && TrimSpace(p) == t;
    var i :| 0 <= i < |pieces| && pieces[i] == p;
    SplitJoin(csv);
    assert ',' !in pieces[i];
    TrimKeepsNoComma(p);
  }

  /** The first loop of the whitelist filter: the set of allowed region ids. */
  method BuildAllowed(csv: string) returns (allowed: set<string>)
    ensures allowed == TokenSet(Split(csv))
  {
    var pieces := Split(csv);
    allowed := {};
    var i := 0;
    while i < |pieces|
      invariant 0 <= i <= |pieces|
      invariant allowed == TokenSet(pieces[..i])
    {
      var trimmed := TrimSpace(pieces[i]);
      if trimmed != "" {
        allowed := allowed + {trimmed};
      }
      assert pieces[..i + 1] == pieces[..i] + [pieces[i]];
      i := i + 1;
    }
    assert pieces[..i] == pieces;
  }

  /** The regions whose id is allowed, in listing order. */
  function Whitelisted(all: seq<RegionVO>, allowed: set<string>): (r: seq<RegionVO>)
    ensures |r| <= |all|
    ensures forall i :: 0 <= i < |r| ==> r[i].regionId in allowed
  {
    if all == [] then []
    else Whitelisted(all[..|all| - 1], allowed) + (if all[|all| - 1].regionId in allowed then [all[|all| - 1]] else [])
  }

  /** `a` is `b` with some elements left out, order kept. */
  ghost predicate Subsequence<T>(a: seq<T>, b: seq<T>)
    decreases |b|
  {
    if b == [] then a == []
    else
      || (a != [] && a[|a| - 1] == b[|b| - 1] && Subsequence(a[..|a| - 1], b[..|b| - 1]))
      || Subsequence(a, b[..|b| - 1])
  }

  /** Whitelisting keeps exactly the allowed regions, as a subsequence of the listing. */
  lemma {:induction false} WhitelistedFacts(all: seq<RegionVO>, allowed: set<string>)
    ensures Subsequence(Whitelisted(all, allowed), all)
    ensures forall x :: x in Whitelisted(all, allowed) <==> x in all && x.regionId in allowed
  {
    if all != [] {
      var init := all[..|all| - 1];
      var last := all[|all| - 1];
      WhitelistedFacts(init, allowed);
      assert all == init + [last];
      var w := Whitelisted(all, allowed);
      assert all[..|all| - 1] == init;
      if last.regionId in allowed {
        assert w[..|w| - 1] == Whitelisted(init, allowed) && w[|w| - 1] == last;
      } else {
        assert w == Whitelisted(init, allowed);
      }
    }
  }

  /** The second loop of the whitelist filter: keep the allowed regions in order. */
  method FilterRegions(all: seq<RegionVO>, allowed: set<string>) returns (regions: seq<RegionVO>)
    ensures regions == Whitelisted(all, allowed)
  {
    regions := [];
    var i := 0;
    while i < |all|
      invariant 0 <= i <= |all|
      invariant regions == Whitelisted(all[..i], allowed)
    {
      if all[i].regionId in allowed {
        regions := regions + [all[i]];
      }
      assert all[..i + 1][..i] == all[..i];
      i := i + 1;
    }
    assert all[..i] == all;
  }

  /** The regions of a provider row: all of them without a whitelist, the whitelisted ones otherwise. */
  function SelectRegions(all: seq<RegionVO>, whitelist: string): (r: seq<RegionVO>)
    ensures whitelist == "" ==> r == all
    ensures |r| <= |all|
  {
    if whitelist == "" then all else Whitelisted(all, TokenSet(Split(whitelist)))
  }

  /** Region selection: unchanged without a whitelist; otherwise exactly the listed ids, in order. */
  lemma SelectRegionsFacts(all: seq<RegionVO>, whitelist: string)
    ensures whitelist == "" ==> SelectRegions(all, whitelist) == all
    ensures Subsequence(SelectRegions(all, whitelist), all)
    ensures whitelist != "" ==> forall x :: x in SelectRegions(all, whitelist) <==>
      x in all && x.regionId in TokenSet(Split(whitelist))
  {
    WhitelistedFacts(all, TokenSet(Split(whitelist)));
    if whitelist == "" {
      SubsequenceRefl(all);
    }
  }

  /** Every character of a piece comes from the split string. */
  lemma {:induction false} SplitChars(s: string, i: nat, c: char)
    requires i < |Split(s)| && c in Split(s)[i]
    ensures c in s
  {
    if s != [] {
      var rest := Split(s[1..]);
      if s[0] == ',' {
        assert Split(s)[i] == rest[i - 1];
        SplitChars(s[1..], i - 1, c);
      } else if i == 0 {
        if c != s[0] {
          assert c in rest[0];
          SplitChars(s[1..], 0, c);
        }
      } else {
        assert Split(s)[i] == rest[i];
        SplitChars(s[1..], i, c);
      }
    }
  }

  /** A whitelist made of nothing but commas and white space allows no region at all. */
  lemma BlankWhitelist(all: seq<RegionVO>, whitelist: string)
    requires whitelist != ""
    requires forall k :: 0 <= k < |whitelist| ==> whitelist[k] == ',' || IsSpace(whitelist[k])
    ensures SelectRegions(all, whitelist) == []
  {
    var pieces := Split(whitelist);
    forall p | p in pieces
      ensures TrimSpace(p) == ""
    {
      var i :| 0 <= i < |pieces| && pieces[i] == p;
      SplitJoin(whitelist);
      forall k | 0 <= k < |p|
        ensures IsSpace(p[k])
      {
        SplitChars(whitelist, i, p[k]);
      }
    }
    assert TokenSet(pieces) == {};
    WhitelistedFacts(all, {});
  }

  lemma {:induction false} SubsequenceRefl<T>(a: seq<T>)
    ensures Subsequence(a, a)
  {
    if a != [] {
      SubsequenceRefl(a[..|a| - 1]);
    }
  }

  // ---- the configuration cache ----

  datatype ConfigCacheItem = ConfigCacheItem(data: ProviderConfigResponse, expiredAt: nat)

  /** `project_id = ? AND type = ? AND status = 1`. */
  predicate CredentialMatch(p: ProviderRecord, projectId: nat, providerType: string)
  {
    p.projectId == projectId && p.providerType == providerType && p.status == Some(1)
  }

  /** No row before position `k` matches. */
  predicate NoEarlierMatch(providers: seq<ProviderRecord>, k: int, projectId: nat, providerType: string)
    requires 0 <= k <= |providers|
  {
    forall j :: 0 <= j < k ==> !CredentialMatch(providers[j], projectId, providerType)
  }

  /**
   * The query followed by `First`: the matching row with the lowest primary
   * key, the table being in primary-key order.
   */
  function FindCredential(providers: seq<ProviderRecord>, projectId: nat, providerType: string): (r: Option<ProviderRecord>)
    ensures r.Some? ==> CredentialMatch(r.value, projectId, providerType)
    ensures r.Some? ==> exists k :: 0 <= k < |providers| && providers[k] == r.value && NoEarlierMatch(providers, k, projectId, providerType)
    ensures r.None? <==> forall p :: p in providers ==> !CredentialMatch(p, projectId, providerType)
  {
    if providers == [] then None
    else if CredentialMatch(providers[0], projectId, providerType) then
      assert NoEarlierMatch(providers, 0, projectId, providerType);
      Some(providers[0])
    else
      var rest := FindCredential(providers[1..], projectId, providerType);
      assert rest.Some? ==> exists k :: 0 <= k < |providers| && providers[k] == rest.value && NoEarlierMatch(providers, k, projectId, providerType) by {
        if rest.Some? {
          var k :| 0 <= k < |providers| - 1 && providers[1..][k] == rest.value && NoEarlierMatch(providers[1..], k, projectId, providerType);
          assert providers[k + 1] == rest.value;
          assert forall j :: 0 < j < k + 1 ==> providers[j] == providers[1..][j - 1];
        }
      }
      assert rest.None? ==> forall p :: p in providers ==> !CredentialMatch(p, projectId, providerType) by {
        if rest.None? {
          assert forall p :: p in providers ==> p == providers[0] || p in providers[1..];
        }
      }
      rest
  }

  /**
   * The credential query as `First` returns it: the first matching stored row
   * after its `AfterFind` hook has decrypted AK and SK. A hook error fails the
   * query, in the same way as a missing row.
   */
  function QueryCredential(providers: seq<ProviderRecord>, projectId: nat, providerType: string, key: seq<Crypto.byte>, p: Crypto.Primitives)
    : (r: Option<ProviderRecord>)
    ensures FindCredential(providers, projectId, providerType).None? ==> r.None?
    ensures FindCredential(providers, projectId, providerType).Some? ==>
      var c := FindCredential(providers, projectId, providerType).value;
      && (r.None? <==> LoadKeys(c.ak, c.sk, key, p).err.Some?)
      && (r.Some? ==> r.value == c.(ak := LoadKeys(c.ak, c.sk, key, p).ak, sk := LoadKeys(c.ak, c.sk, key, p).sk))
    ensures r.Some? ==> CredentialMatch(r.value, projectId, providerType)
  {
    match FindCredential(providers, projectId, providerType)
    case None => None
    case Some(c) =>
      var keys := LoadKeys(c.ak, c.sk, key, p);
      if keys.err.Some? then None else Some(c.(ak := keys.ak, sk := keys.sk))
  }

  /**
   * A credential saved through `BeforeSave` is found with its plain AK and SK,
   * given sound primitives, a valid key and good randomness.
   */
  lemma QueryFindsSaved(providers: seq<ProviderRecord>, projectId: nat, providerType: string, key: seq<Crypto.byte>, p: Crypto.Primitives,
                        ak: seq<Crypto.byte>, sk: seq<Crypto.byte>, nonceAk: Crypto.Nonce, nonceSk: Crypto.Nonce)
    requires Crypto.Sound(p) && Crypto.ValidKeyLength(|key|)
    requires FindCredential(providers, projectId, providerType).Some?
    requires var c := FindCredential(providers, projectId, providerType).value;
      var saved := SaveKeys(ak, sk, key, Ok(nonceAk), Ok(nonceSk), p);
      c.ak == saved.ak && c.sk == saved.sk
    ensures QueryCredential(providers, projectId, providerType, key, p)
      == Some(FindCredential(providers, projectId, providerType).value.(ak := ak, sk := sk))
  {
    LoadAfterSave(ak, sk, key, nonceAk, nonceSk, p);
  }

  /** The vendor has a region listing and its call succeeded. */
  predicate ListingOk(providerType: string, sdk: VendorRegions)
  {
    (providerType == "aliyun" && sdk.aliyun.Ok?) || (providerType == "tencent" && sdk.tencent.Ok?)
  }

  /** A cached configuration is used while its expiry is ahead. */
  function ConfigHit(cache: map<string, ConfigCacheItem>, key: string, now: nat): (r: Option<ProviderConfigResponse>)
    ensures r.Some? <==> key in cache && now < cache[key].expiredAt
    ensures r.Some? ==> r.value == cache[key].data
  {
    if key in cache && now < cache[key].expiredAt then Some(cache[key].data) else None
  }

  /** A configuration stored at `now` is served for ten minutes and not after. */
  lemma ConfigEntryLifetime(cache: map<string, ConfigCacheItem>, key: string, resp: ProviderConfigResponse, now: nat, later: nat)
    ensures var c := cache[key := ConfigCacheItem(resp, now + ConfigCacheTtl)];
      && (later < now + ConfigCacheTtl ==> ConfigHit(c, key, later) == Some(resp))
      && (later >= now + ConfigCacheTtl ==> ConfigHit(c, key, later) == None)
  {
  }

  class CloudProviderService {
    var configCache: map<string, ConfigCacheItem>

    constructor ()
      ensures configCache == map[]
    {
      configCache := map[];
    }

    /**
     * GetProviderConfig at instant `now`; `providers` is the provider table
     * as stored (keys encrypted), `key` and `p` are what `AfterFind` decrypts
     * with, and `sdk` the vendors' region listings.
     */
    method GetProviderConfig(projectId: nat, providerType: string, providers: seq<ProviderRecord>, key: seq<Crypto.byte>, p: Crypto.Primitives,
                             sdk: VendorRegions, now: nat)
      returns (resp: ProviderConfigResponse, err: Option<string>)
      modifies this
      // a live entry is served as it is
      ensures ConfigHit(old(configCache), Keys.CacheKey(projectId, providerType), now).Some? ==>
        resp == old(configCache)[Keys.CacheKey(projectId, providerType)].data && err.None?
        && configCache == old(configCache)
      // otherwise a lookup follows; an expired entry is gone whatever its outcome
      ensures ConfigHit(old(configCache), Keys.CacheKey(projectId, providerType), now).None? ==>
        (err.Some? ==>
          resp == EmptyResponse && configCache == old(configCache) - {Keys.CacheKey(projectId, providerType)})
      ensures ConfigHit(old(configCache), Keys.CacheKey(projectId, providerType), now).None? ==>
        (QueryCredential(providers, projectId, providerType, key, p).None? ==> err == Some(ErrNoCredential))
      // on a miss the call succeeds exactly when an enabled credential is found and decrypted and its vendor's listing succeeds
      ensures ConfigHit(old(configCache), Keys.CacheKey(projectId, providerType), now).None? ==>
        (err.None? <==> QueryCredential(providers, projectId, providerType, key, p).Some? && ListingOk(providerType, sdk))
      // the vendor listing failed: its error, wrapped
      ensures (ConfigHit(old(configCache), Keys.CacheKey(projectId, providerType), now).None?
               && QueryCredential(providers, projectId, providerType, key, p).Some?) ==>
        && (providerType == "aliyun" && sdk.aliyun.Err? ==> err == Some(ErrVendor + sdk.aliyun.msg))
        && (providerType == "tencent" && sdk.tencent.Err? ==> err == Some(ErrVendor + sdk.tencent.msg))
        && (providerType == "aws" ==> err == Some(ErrVendor + ErrAwsUnsupported))
        && (providerType !in {"aliyun", "tencent", "aws"} ==> err == Some(ErrVendor + ("unsupported provider: " + providerType)))
      ensures ConfigHit(old(configCache), Keys.CacheKey(projectId, providerType), now).None? ==>
        (err.None? ==>
          && resp.providerInfo == ProviderInfo(GetProviderName(providerType), Version)
          && resp.limits == ProviderLimits(MaxSyncBatch)
          && QueryCredential(providers, projectId, providerType, key, p).Some?
          && (providerType == "aliyun" ==>
                sdk.aliyun.Ok?
                && resp.regions == SelectRegions(sdk.aliyun.value, QueryCredential(providers, projectId, providerType, key, p).value.region))
          && (providerType == "tencent" ==>
                sdk.tencent.Ok?
                && resp.regions == SelectRegions(Available(sdk.tencent.value), QueryCredential(providers, projectId, providerType, key, p).value.region))
          && configCache == old(configCache)[Keys.CacheKey(projectId, providerType) := ConfigCacheItem(resp, now + ConfigCacheTtl)])
    {
      var cacheKey := Keys.CacheKey(projectId, providerType);
      if cacheKey in configCache {
        var item := configCache[cacheKey];
        if now < item.expiredAt {
          return item.data, None;
        }
        configCache := configCache - {cacheKey};
      }

      var cp := QueryCredential(providers, projectId, providerType, key, p);
      if cp.None? {
        return EmptyResponse, Some(ErrNoCredential);
      }

      var allRegions := GetRegions(providerType, sdk);
      if allRegions.Err? {
        return EmptyResponse, Some(ErrVendor + allRegions.msg);
      }

      var regions: seq<RegionVO>;
      if cp.value.region != "" {
        var allowed := BuildAllowed(cp.value.region);
        regions := FilterRegions(allRegions.value, allowed);
      } else {
        regions := allRegions.value;
      }

      resp := ProviderConfigResponse(ProviderInfo(GetProviderName(providerType), Version), regions, ProviderLimits(MaxSyncBatch));
      configCache := configCache[cacheKey := ConfigCacheItem(resp, now + ConfigCacheTtl)];
      err := None;
    }
  }
}
