# cloud_asset: a verified model of the instance sync, provider configuration and credential encoding

This project models the self-contained logic of the `cloud_asset` plugin of
gin-vue-admin in Dafny 4.11 and proves what that logic promises.

- **Instance sync** (`server/plugin/cloud_asset/service/cloud_instance.go`).
  The `gva_cloud_instances` table is a sequence of rows in primary-key order, with the next auto-increment id.
  `InstanceTable.InstanceStore` is a class over that table.
  Its methods (manual create, batch delete, upsert, stale delete, the reconcile transaction, `updateSyncStatus`) change it in place.
  Each method is proved equal to a function on `Table` values, and lemmas prove the properties of those functions.
  A reconcile matches rows on `(instance_id, provider_id)` and stamps them with the provider, the region and `"synced"`.
  It then deletes the rows of that provider and region that are not in the fetched list.
  The whole step is all or nothing: a failing statement, chosen by a `Faults` value, rolls the table back.
  `InstanceService.CloudInstanceService` holds the five-minute instance cache keyed by `"<providerID>_<region>"`.
  It implements `SyncInstances` and `ClearCache`.
  The vendor listing is an input to `SyncInstances`.
  After a committed fetch (the cache path returns the reconcile's result without marking), `updateSyncStatus` overwrites the rows' `"synced"` mark with `"success"`; the model does the same.
- **Field normalisers** (`InstanceFields`): the status mappings of both vendors, the IP precedence rules and `convertAliyunInstance`.
- **Provider configuration** (`server/plugin/cloud_asset/service/cloud_provider.go`, module `ProviderConfig`).
  It covers `GetRegions` dispatch, the AVAILABLE filter of the Tencent listing, `getProviderName`, and the region whitelist.
  The whitelist is split on commas, trimmed with Go's `unicode.IsSpace` white space, and empty tokens are dropped.
  `GetProviderConfig` uses a ten-minute configuration cache, and an expired entry is dropped before the lookup.
  Its credential query runs the `AfterFind` hook on the row found, so a key that does not decrypt fails the query.
- **Credentials** (`server/plugin/cloud_asset/model/cloud_provider.go`, `server/plugin/cloud_asset/utils/crypto.go`).
  `InitCrypto` normalises the key.
  `Encrypt` and `Decrypt` build and check the `nonce ‖ sealed` frame.
  The `BeforeSave` and `AfterFind` hooks rewrite AK and SK in place.
  Go strings here are byte strings, so they are modelled as sequences of bytes.
  SHA-256, base64 (standard alphabet) and AES-GCM seal/open are abstract functions in a `Primitives` value.
  `Crypto.Sound` lists the laws assumed of them: decode undoes encode, open undoes seal, and padded base64 is 4 characters per started 3 bytes.
- **Front-end labels** (`web/src/plugin/cloud_asset/config/provider.js`, module `ProviderLabels`): `PROVIDER_OPTIONS` and `getProviderLabel`.

Time is a natural number of nanoseconds, like Go's `time.Duration`, and the current instant is a parameter.
The cache keys are `fmt.Sprintf("%d_%s", id, name)`; `Keys.CacheKeyInjective` proves that distinct pairs have distinct keys.
`configCache` and `instanceCache` are package-level `sync.Map`s in the source.
Here each is a field of the service object that uses it.

## Model

| member | source | states |
|---|---|---|
| Keys.DecimalRoundTrip | server/plugin/cloud_asset/service/cloud_instance.go:191 | the `%d` rendering of a key's id reads back as that id |
| Keys.CacheKey | server/plugin/cloud_asset/service/cloud_instance.go:191 | the key is a run of decimal digits that reads back as the id, then an underscore, then the name |
| Keys.CacheKeyInjective | server/plugin/cloud_asset/service/cloud_instance.go:191 | two `"<id>_<name>"` keys are equal only for equal ids and names, so one provider's key never names another's |
| InstanceFields.MapAliyunStatus | server/plugin/cloud_asset/service/cloud_instance.go:426-439 | a status is mapped to a known state exactly when it is one of the six Aliyun states; every other input gives "unknown" |
| InstanceFields.AliyunStatusIsLowerCase | server/plugin/cloud_asset/service/cloud_instance.go:427-434 | each Aliyun state maps to its own lower-case spelling |
| InstanceFields.AliyunStatusInjective | server/plugin/cloud_asset/service/cloud_instance.go:427-434 | distinct Aliyun states map to distinct names |
| InstanceFields.MapTencentStatus | server/plugin/cloud_asset/service/cloud_instance.go:553-565 | a status is mapped to a known state exactly when it is one of the five Tencent states; the result is never "pending"; every other input gives "unknown" |
| InstanceFields.TencentStatusRenamed | server/plugin/cloud_asset/service/cloud_instance.go:553-565 | LAUNCHING becomes "starting" and TERMINATING becomes "deleting", the names Aliyun's Starting and Deleting get |
| InstanceFields.TencentStatusInjective | server/plugin/cloud_asset/service/cloud_instance.go:554-560 | distinct Tencent states map to distinct names |
| InstanceFields.TencentStatusIsLowerCase | server/plugin/cloud_asset/service/cloud_instance.go:555-558 | RUNNING, STOPPING and STOPPED map to their lower-case spelling |
| InstanceFields.TencentStatusesAreAliyunStatuses | server/plugin/cloud_asset/service/cloud_instance.go:554-560 | every Tencent result is also the result of some Aliyun status, so both vendors share one vocabulary |
| InstanceFields.ExtractPublicIP | server/plugin/cloud_asset/service/cloud_instance.go:442-450 | the first public address if any, else the EIP (possibly ""); a non-empty result is one of those addresses |
| InstanceFields.ExtractPrivateIP | server/plugin/cloud_asset/service/cloud_instance.go:453-461 | the first inner address if any, else the first VPC private address, else ""; a non-empty result is one of those |
| InstanceFields.ParseOptional | server/plugin/cloud_asset/service/cloud_instance.go:398-407 | an empty timestamp stays nil; otherwise the parse result is kept, nil when parsing fails |
| InstanceFields.ConvertAliyunInstance | server/plugin/cloud_asset/service/cloud_instance.go:384-423 | fields are copied, status and IPs come from the normalisers, CPU is set exactly when positive, memory exactly when positive and then is the whole number of GiB it holds |
| InstanceTable.FindRow | server/plugin/cloud_asset/service/cloud_instance.go:294-295 | the position found holds the key and no earlier row does; None means no row holds it |
| InstanceTable.Lookup | server/plugin/cloud_asset/service/cloud_instance.go:294-295 | the row found is in the table and has the key; None means no row has it |
| InstanceTable.FoundExactlyOnce | server/plugin/cloud_asset/service/cloud_instance.go:294-295 | with unique keys, any row holding a found key is the row found |
| InstanceTable.Create | server/plugin/cloud_asset/service/cloud_instance.go:47-64 | an existing `(instance_id, provider_id)` is refused with "实例已存在" and nothing changes; otherwise one row with a fresh id and "manual" is appended; a valid table stays valid |
| InstanceTable.DeleteIds | server/plugin/cloud_asset/service/cloud_instance.go:76 | exactly the rows whose id is not listed remain |
| InstanceTable.BatchDelete | server/plugin/cloud_asset/service/cloud_instance.go:72-77 | an empty id list is refused with "ids不能为空" and nothing changes; otherwise exactly the listed ids are removed |
| InstanceTable.Merge | server/plugin/cloud_asset/service/cloud_instance.go:306-310 | a GORM struct update writes every non-zero field of the new value and keeps the old value wherever the new one is zero (`DataWritten`, `DataKept`); the id is the new one unless zero |
| InstanceTable.MergeUnique | server/plugin/cloud_asset/service/cloud_instance.go:306-310 | the non-zero write rule fixes the update: any row that obeys it is the one `Merge` gives |
| InstanceTable.UpsertOne | server/plugin/cloud_asset/service/cloud_instance.go:286-312 | a new key appends the stamped instance itself under the next id and changes no earlier row; a known key changes only its row, which keeps its id, takes every non-zero field of the stamped instance and keeps its other fields; an insert uses one fresh id, an update none |
| InstanceTable.UpsertAll | server/plugin/cloud_asset/service/cloud_instance.go:282-315 | the loop adds between zero and one row per instance, and uses exactly one fresh id per added row |
| InstanceTable.UpsertOneValid | server/plugin/cloud_asset/service/cloud_instance.go:286-312 | one upsert keeps the table valid; it keeps every existing row's position, id and key and touches only the row with the instance's key |
| InstanceTable.UpsertOneSynced | server/plugin/cloud_asset/service/cloud_instance.go:286-312 | after one upsert the instance's key finds a row owned by the provider and stamped "synced" at `now` |
| InstanceTable.UpsertOneWrites | server/plugin/cloud_asset/service/cloud_instance.go:293-312 | after one upsert the key finds a row holding every non-zero field of the stamped instance; for a new key that row is the stamped instance with the next id |
| InstanceTable.UpsertAllFacts | server/plugin/cloud_asset/service/cloud_instance.go:282-315 | after the loop every fetched instance has exactly one row; it belongs to the provider, is stamped "synced" at `now` and holds the region; existing rows keep their ids; unmatched rows are untouched; at most one row per instance is added |
| InstanceTable.UpsertAllSyncedAt | server/plugin/cloud_asset/service/cloud_instance.go:282-315 | for any one fetched instance, after the loop its key finds a row owned by the provider and stamped "synced" at `now` |
| InstanceTable.UpsertAllValid | server/plugin/cloud_asset/service/cloud_instance.go:282-315 | the loop keeps the table valid and never lowers the next id |
| InstanceTable.UpsertAllNewRows | server/plugin/cloud_asset/service/cloud_instance.go:282-315 | every row the loop adds carries the key of some fetched instance |
| InstanceTable.UpsertAllKeeps | server/plugin/cloud_asset/service/cloud_instance.go:282-315 | a row whose key no fetched instance carries stays in its place with its contents unchanged through the loop |
| InstanceTable.UpsertAllWrites | server/plugin/cloud_asset/service/cloud_instance.go:282-315 | for the last instance fetched with each id, the row that id finds after the loop holds every non-zero field of that instance as stamped |
| InstanceTable.UpsertAllWritesAt | server/plugin/cloud_asset/service/cloud_instance.go:282-315 | the same for one position of the list |
| InstanceTable.UpsertAllInserts | server/plugin/cloud_asset/service/cloud_instance.go:297-303 | an instance fetched once whose key no row had is stored exactly as fetched and stamped, under an id at or above the old next id |
| InstanceTable.UpsertAllInsertsAt | server/plugin/cloud_asset/service/cloud_instance.go:297-303 | the same for one position of the list |
| InstanceTable.InstanceIds | server/plugin/cloud_asset/service/cloud_instance.go:318-321 | the id list has one entry per fetched instance, in order |
| InstanceTable.DeleteStale | server/plugin/cloud_asset/service/cloud_instance.go:323-325 | stale deletion never adds rows, and every row it keeps is outside the provider and region or has a listed instance id |
| InstanceTable.DeleteStaleMembers | server/plugin/cloud_asset/service/cloud_instance.go:323-325 | stale deletion removes exactly the rows of this provider and region whose instance id is not listed |
| InstanceTable.DeleteStaleValid | server/plugin/cloud_asset/service/cloud_instance.go:323-325 | stale deletion keeps ids ordered and keys unique |
| InstanceTable.DeleteStaleLookup | server/plugin/cloud_asset/service/cloud_instance.go:323-325 | a kept row is still the one its key finds |
| InstanceTable.Reconcile | server/plugin/cloud_asset/service/cloud_instance.go:250-279 | the transaction fails exactly when the list is non-empty and some statement fails, always with the database error; the count is 0 or the whole list |
| InstanceTable.Reconciled | server/plugin/cloud_asset/service/cloud_instance.go:263-275 | the committed table uses at most one fresh id per fetched instance and grows by at most the list length |
| InstanceTable.ReconcileNoEffect | server/plugin/cloud_asset/service/cloud_instance.go:250-279 | an empty list or a failed statement leaves the table exactly as it was, with count 0 |
| InstanceTable.ReconcileCommits | server/plugin/cloud_asset/service/cloud_instance.go:256-279 | a committed reconcile yields the upsert-then-delete table and counts every fetched instance; without faults it commits |
| InstanceTable.ReconciledValid | server/plugin/cloud_asset/service/cloud_instance.go:263-275 | the committed table has ordered ids and no duplicate key |
| InstanceTable.ReconciledSynced | server/plugin/cloud_asset/service/cloud_instance.go:282-315 | after commit every fetched instance has one row, owned by the provider, synced at `now`, in the region |
| InstanceTable.ReconciledWrites | server/plugin/cloud_asset/service/cloud_instance.go:263-315 | after commit, the row of the last instance fetched with an id holds that instance's non-zero fields as stamped |
| InstanceTable.ReconciledInserts | server/plugin/cloud_asset/service/cloud_instance.go:263-315 | after commit, an instance fetched once with a new key is stored exactly as fetched and stamped, under a fresh id |
| InstanceTable.ReconciledNoStale | server/plugin/cloud_asset/service/cloud_instance.go:317-326 | after commit no row of this provider and region has an instance id outside the fetched list |
| InstanceTable.ReconciledKeepsOthers | server/plugin/cloud_asset/service/cloud_instance.go:317-326 | a row of another provider or region that was not fetched survives unchanged |
| InstanceTable.SetSyncStatus | server/plugin/cloud_asset/service/cloud_instance.go:329-337 | the rows of the provider and region get the status and time; every other row is unchanged |
| InstanceTable.SetSyncStatusValid | server/plugin/cloud_asset/service/cloud_instance.go:329-337 | marking sync status keeps the table valid |
| InstanceTable.InstanceStore.CreateCloudInstance | server/plugin/cloud_asset/service/cloud_instance.go:47-64 | the store's new state and error are those of `Create`, and the store stays valid |
| InstanceTable.InstanceStore.BatchDeleteCloudInstance | server/plugin/cloud_asset/service/cloud_instance.go:72-77 | the store's new state and error are those of `BatchDelete` |
| InstanceTable.InstanceStore.UpdateSyncStatus | server/plugin/cloud_asset/service/cloud_instance.go:329-337 | the rows become `SetSyncStatus` of the old rows |
| InstanceTable.InstanceStore.UpsertRow | server/plugin/cloud_asset/service/cloud_instance.go:293-312 | one loop iteration leaves the state `UpsertOne` gives, and the store stays valid |
| InstanceTable.InstanceStore.Upsert | server/plugin/cloud_asset/service/cloud_instance.go:282-315 | the loop succeeds exactly when no statement fails; on success the count is the list length and the state is the upsert of the list; a failure returns 0 and leaves the prefix written, for the transaction to undo |
| InstanceTable.InstanceStore.DeleteStaleRows | server/plugin/cloud_asset/service/cloud_instance.go:317-326 | builds the id list by appending and leaves the rows of `DeleteStale`, or fails without change |
| InstanceTable.InstanceStore.UpdateInstancesFromCache | server/plugin/cloud_asset/service/cloud_instance.go:250-280 | the new state, count and error are those of `Reconcile`; a failure restores the snapshot |
| InstanceService.CacheHit | server/plugin/cloud_asset/service/cloud_instance.go:194-206 | a cached list is reused exactly when the sync is not forced and the entry's expiry is after `now` |
| InstanceService.StoredEntryLifetime | server/plugin/cloud_asset/service/cloud_instance.go:236-241 | an entry stored at `now` is reused before `now + 5 min` and not from then on, and never by a forced sync |
| InstanceService.ClearedCache | server/plugin/cloud_asset/service/cloud_instance.go:663-674 | a clear with a provider and a region removes that key; any other clear empties the cache |
| InstanceService.ClearOneKeepsOthers | server/plugin/cloud_asset/service/cloud_instance.go:664-666 | a selective clear keeps every other provider and region's entry as it was |
| InstanceService.CloudInstanceService.ClearCache | server/plugin/cloud_asset/service/cloud_instance.go:663-674 | the cache becomes `ClearedCache` of the old one |
| InstanceService.CloudInstanceService.SyncInstances | server/plugin/cloud_asset/service/cloud_instance.go:176-247 | per case: a missing or disabled provider is refused; a live cache entry is reconciled without a fetch; aws and unknown vendors are refused; a failed fetch marks the rows "failed"; a failed reconcile changes nothing; a committed one is cached for five minutes and marked "success" |
| Crypto.DefaultKey | server/plugin/cloud_asset/utils/crypto.go:22 | the built-in key is 32 bytes long |
| Crypto.NormaliseKey | server/plugin/cloud_asset/utils/crypto.go:16-34 | an empty key gives the default; a 16, 24 or 32 byte key is kept; any other is replaced by its SHA-256 digest; the result always has an AES length |
| Crypto.NormaliseKeyIdempotent | server/plugin/cloud_asset/utils/crypto.go:29-33 | normalising a normalised key changes nothing |
| Crypto.KeyStore.InitCrypto | server/plugin/cloud_asset/utils/crypto.go:16-34 | the stored key is `NormaliseKey` of the configured one and has an AES length |
| Crypto.Encrypt | server/plugin/cloud_asset/utils/crypto.go:37-55 | a bad key length and a failed random read are errors; otherwise the result is the base64 of `nonce ‖ seal(nonce, plaintext)` |
| Crypto.Decrypt | server/plugin/cloud_asset/utils/crypto.go:58-86 | a base64 failure and a bad key length are returned as errors; a plaintext is returned only when the frame holds a full nonce and opening the rest with it succeeds |
| Crypto.DecryptRejectsShort | server/plugin/cloud_asset/utils/crypto.go:74-77 | data shorter than the nonce is refused with "ciphertext too short" |
| Crypto.DecryptSplitsFrame | server/plugin/cloud_asset/utils/crypto.go:79-80 | decrypting `nonce ‖ sealed` opens exactly `sealed` with exactly `nonce` |
| Crypto.DecryptEncrypt | server/plugin/cloud_asset/utils/crypto.go:37-86 | under sound primitives and a valid key, decrypting an encryption gives the plaintext back |
| Crypto.EncryptNonEmpty | server/plugin/cloud_asset/utils/crypto.go:53-54 | an encryption is at least 16 characters long, so it is never the empty string |
| Credentials.SaveKeysFields | server/plugin/cloud_asset/model/cloud_provider.go:27-43 | on success an empty AK or SK stays empty and a non-empty one becomes its encryption |
| Credentials.SaveKeys | server/plugin/cloud_asset/model/cloud_provider.go:27-43 | empty keys stay empty; any error comes from encrypting a non-empty AK or SK, and leaves SK untouched |
| Credentials.SaveKeysFailure | server/plugin/cloud_asset/model/cloud_provider.go:28-40 | an AK failure is reported with both keys unchanged; an SK failure is reported with AK already encrypted; the hook succeeds exactly when each non-empty key encrypts |
| Credentials.LoadKeysFields | server/plugin/cloud_asset/model/cloud_provider.go:46-65 | each non-empty key becomes its decryption, empty ones stay empty, and the first decryption error is returned |
| Credentials.LoadKeys | server/plugin/cloud_asset/model/cloud_provider.go:46-65 | empty keys stay empty; any error comes from decrypting a non-empty AK or SK, and leaves SK untouched |
| Credentials.LoadAfterSave | server/plugin/cloud_asset/model/cloud_provider.go:26-65 | with sound primitives and a valid key, loading what was saved restores both AK and SK without error |
| Credentials.CloudProvider.BeforeSave | server/plugin/cloud_asset/model/cloud_provider.go:27-43 | AK, SK and the error are those of `SaveKeys`; every other field is unchanged |
| Credentials.CloudProvider.AfterFind | server/plugin/cloud_asset/model/cloud_provider.go:46-65 | AK, SK and the error are those of `LoadKeys`; every other field is unchanged |
| ProviderConfig.GetProviderName | server/plugin/cloud_asset/service/cloud_provider.go:159-170 | the result equals the input exactly when the input is not aliyun, tencent or aws; those three get a display name |
| ProviderConfig.Available | server/plugin/cloud_asset/service/cloud_provider.go:209-216 | the filter never adds regions, and keeps them all when every entry is AVAILABLE |
| ProviderConfig.AvailableMembers | server/plugin/cloud_asset/service/cloud_provider.go:209-216 | a region is listed exactly when some Tencent entry with a non-nil "AVAILABLE" state carries it |
| ProviderConfig.FilterAvailable | server/plugin/cloud_asset/service/cloud_provider.go:209-216 | the append loop yields the AVAILABLE regions in listing order |
| ProviderConfig.GetRegions | server/plugin/cloud_asset/service/cloud_provider.go:80-91 | aliyun and tencent return their listing (Tencent's filtered to AVAILABLE); aws fails with "AWS 暂未支持"; any other vendor fails with "unsupported provider: " and its name |
| ProviderConfig.TrimSpace | server/plugin/cloud_asset/service/cloud_provider.go:124 | the result is the slice of the piece after its leading white space, only white space is cut, and it neither starts nor ends with white space |
| ProviderConfig.Split | server/plugin/cloud_asset/service/cloud_provider.go:123 | a comma split yields at least one piece and at most one more than the whitelist has characters |
| ProviderConfig.SplitJoin | server/plugin/cloud_asset/service/cloud_provider.go:123 | joining the comma-split pieces gives the whitelist back, and no piece holds a comma |
| ProviderConfig.TrimKeepsNoComma | server/plugin/cloud_asset/service/cloud_provider.go:124 | trimming a piece without commas gives a token without commas |
| ProviderConfig.TokenShape | server/plugin/cloud_asset/service/cloud_provider.go:123-127 | every allowed region id is non-empty, holds no comma and has no surrounding white space |
| ProviderConfig.BuildAllowed | server/plugin/cloud_asset/service/cloud_provider.go:121-127 | the loop's set is the set of trimmed non-empty pieces |
| ProviderConfig.Whitelisted | server/plugin/cloud_asset/service/cloud_provider.go:129-133 | the filter never adds regions and keeps only regions with an allowed id |
| ProviderConfig.WhitelistedFacts | server/plugin/cloud_asset/service/cloud_provider.go:129-133 | the filtered list is a subsequence of the listing and holds exactly its regions with an allowed id |
| ProviderConfig.SelectRegions | server/plugin/cloud_asset/service/cloud_provider.go:121-136 | an empty whitelist returns the listing itself, and no selection is longer than the listing |
| ProviderConfig.FilterRegions | server/plugin/cloud_asset/service/cloud_provider.go:129-133 | the append loop yields the whitelisted regions in listing order |
| ProviderConfig.SelectRegionsFacts | server/plugin/cloud_asset/service/cloud_provider.go:121-136 | without a whitelist the listing is returned unchanged; with one the result is the subsequence of regions whose id is a token |
| ProviderConfig.BlankWhitelist | server/plugin/cloud_asset/service/cloud_provider.go:121-133 | a non-empty whitelist of only commas and white space selects no region |
| ProviderConfig.FindCredential | server/plugin/cloud_asset/service/cloud_provider.go:106-111 | the row found belongs to the project and vendor and is enabled, and it is the first such row in primary-key order, as `First` returns; None means no row is |
| ProviderConfig.QueryCredential | server/plugin/cloud_asset/service/cloud_provider.go:106-111 | the query finds nothing when no enabled row matches, and fails when the first match's AK or SK does not decrypt; otherwise it returns that row with both keys decrypted by `LoadKeys` |
| ProviderConfig.QueryFindsSaved | server/plugin/cloud_asset/model/cloud_provider.go:26-65 | a credential written through `BeforeSave` is found with its plain AK and SK, under sound primitives and a valid key |
| ProviderConfig.ConfigHit | server/plugin/cloud_asset/service/cloud_provider.go:97-100 | a cached configuration is served exactly when its expiry is after `now` |
| ProviderConfig.ConfigEntryLifetime | server/plugin/cloud_asset/service/cloud_provider.go:150-154 | a configuration stored at `now` is served before `now + 10 min` and not from then on |
| ProviderConfig.CloudProviderService.GetProviderConfig | server/plugin/cloud_asset/service/cloud_provider.go:94-157 | a live entry is returned as is; an expired one is deleted; no enabled credential, or one whose AK or SK does not decrypt, gives "该项目未配置有效的云厂商凭证", and a failed listing gives its error; on a miss the call succeeds exactly when the credential query succeeds and the vendor's listing succeeds; on success the response is the vendor's name, "v1.0", batch limit 5 and the selected regions, cached for ten minutes |
| ProviderLabels.FindOption | web/src/plugin/cloud_asset/config/provider.js:10 | the option found has the value and no earlier option does; None exactly when no option has it |
| ProviderLabels.GetProviderLabel | web/src/plugin/cloud_asset/config/provider.js:9-12 | the label is the caption of an option with that value or the type itself, and a type no option carries is returned unchanged |
| ProviderLabels.GetProviderLabelFacts | web/src/plugin/cloud_asset/config/provider.js:9-12 | the five vendors get their labels and every other type is returned unchanged |
| ProviderLabels.OptionsDistinct | web/src/plugin/cloud_asset/config/provider.js:1-7 | no two options share a value or a label |
| ProviderLabels.LabelsAgreeWithServer | web/src/plugin/cloud_asset/config/provider.js:2-4 | for aliyun, tencent and aws the front-end label equals the server's display name |
| ProviderLabels.UnknownTypesShownAsStored | web/src/plugin/cloud_asset/config/provider.js:11 | a type outside every list is shown as stored by both front end and server |

## Left out

- Vendor SDK calls, their clients, pagination and retry-with-sleep loops (`syncAliyunInstances`, `syncTencentInstances`, the client half of `getAliyunRegions` and `getTencentRegions`): network code; their results are inputs.
- `convertTencentInstance`: only its status mapping (`mapTencentStatus`) is modelled.
- `BatchSyncInstances`: its substance is goroutine fan-out with a semaphore and an error channel.
- `cacheLock` and the `sync.Map` concurrency: each call is one atomic step.
- `DeleteCloudInstance`, `UpdateCloudInstance`, `GetCloudInstance`, the list and VO queries, `GetInstanceStats`, `ValidateInstanceOwnership`: thin ORM queries.
- Database I/O errors outside the reconcile transaction (the count query and insert of create, the batch delete, the provider lookup of `SyncInstances` other than "not found", including an `AfterFind` decryption error, which the source returns as it is, `updateSyncStatus`, whose errors the source ignores): not modelled.
- The unique index on the `instance_id` column alone and the framework's soft delete: the model keeps `(instance_id, provider_id)` unique and deletes rows outright.
- Auto-increment ids: a rolled-back transaction also restores the next id, which real databases do not.
- The model assigns the id, the sync time and the sync status itself on create and upsert; a non-zero `ID` supplied by a caller, which GORM `Create` would keep, is not modelled.
- `time.Parse` of Aliyun timestamps is an abstract parameter, and `time.Now` is one `now` per call where the source reads the clock several times.
- SHA-256, base64 and AES-GCM are abstract; the random nonce is a parameter.
- Crypto.Encrypt: the `cipher.NewGCM` failure cannot happen for a valid AES key and is not modelled.
- Service strings are Unicode strings and credential strings are byte sequences; the conversion between them is not modelled.
- GetRegions: the AK and SK passed to the vendor clients are not modelled, and a nil Tencent region or name pointer (where the source would panic) cannot be expressed.
- GetProviderConfig: the credential query (`QueryCredential`) fails only by finding no enabled row or by the `AfterFind` decryption failing on the row found. Other database errors are not modelled. The source reports every failure of the query as "no valid credential".
- A Go nil slice and an empty slice are both the empty sequence.
- DeleteStale: the model reads `Not("instance_id", existingIDs)` (cloud_instance.go:324) as `instance_id NOT IN (the fetched ids)`. GORM v2's condition builder may instead read a bare column name followed by a slice as a primary-key condition. GORM is not part of this model, so no finding is claimed.
- The recovered panic in `updateInstancesFromCache` (cloud_instance.go:257-261), which rolls back and returns `(0, nil)`, is not modelled: a panic cannot be expressed here.
- HTTP handlers, routers, plugin registration and the front-end API wrappers: framework plumbing.
