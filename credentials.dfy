/**
 * The cloud-provider row and its GORM hooks
 * (server/plugin/cloud_asset/model/cloud_provider.go): a non-empty access key
 * (AK) or secret key (SK) is replaced by its encryption before a save and by
 * its decryption after a load.
 */
module Credentials {
  import opened Wrappers
  import opened Crypto

  /** A `gva_cloud_providers` row as the services read it. */
  datatype ProviderRecord = ProviderRecord(
    id: nat,
    ak: seq<byte>,
    sk: seq<byte>,
    providerType: string,
    region: string,           // comma-separated region whitelist; "" for none
    status: Option<int>,      // 1 enabled, 2 disabled
    remark: string,
    projectId: nat
  )

  /** Both keys after a hook, and the hook's error. */
  datatype KeyPair = KeyPair(ak: seq<byte>, sk: seq<byte>, err: Option<string>)

  /** BeforeSave on the two fields: encrypt AK, then SK; the first failure stops the hook. */
  function SaveKeys(ak: seq<byte>, sk: seq<byte>, key: seq<byte>, nonceAk: Result<Nonce>, nonceSk: Result<Nonce>, p: Primitives): (r: KeyPair)
    ensures ak == [] ==> r.ak == []
    ensures sk == [] ==> r.sk == []
    ensures r.err.Some? ==> r.sk == sk
    ensures r.err.Some? ==>
      || (ak != [] && Encrypt(key, ak, nonceAk, p).Err? && r.err == Some(Encrypt(key, ak, nonceAk, p).msg))
      || (sk != [] && Encrypt(key, sk, nonceSk, p).Err? && r.err == Some(Encrypt(key, sk, nonceSk, p).msg))
  {
    if ak != [] && Encrypt(key, ak, nonceAk, p).Err? then KeyPair(ak, sk, Some(Encrypt(key, ak, nonceAk, p).msg))
    else
      var ak' := if ak != [] then Encrypt(key, ak, nonceAk, p).value else ak;
      if sk != [] && Encrypt(key, sk, nonceSk, p).Err? then KeyPair(ak', sk, Some(Encrypt(key, sk, nonceSk, p).msg))
      else KeyPair(ak', if sk != [] then Encrypt(key, sk, nonceSk, p).value else sk, None)
  }

  /** AfterFind on the two fields: decrypt AK, then SK; the first failure stops the hook. */
  function LoadKeys(ak: seq<byte>, sk: seq<byte>, key: seq<byte>, p: Primitives): (r: KeyPair)
    ensures ak == [] ==> r.ak == []
    ensures sk == [] ==> r.sk == []
    ensures r.err.Some? ==> r.sk == sk
    ensures r.err.Some? ==>
      || (ak != [] && Decrypt(key, ak, p).Err? && r.err == Some(Decrypt(key, ak, p).msg))
      || (sk != [] && Decrypt(key, sk, p).Err? && r.err == Some(Decrypt(key, sk, p).msg))
  {
    if ak != [] && Decrypt(key, ak, p).Err? then KeyPair(ak, sk, Some(Decrypt(key, ak, p).msg))
    else
      var ak' := if ak != [] then Decrypt(key, ak, p).value else ak;
      if sk != [] && Decrypt(key, sk, p).Err? then KeyPair(ak', sk, Some(Decrypt(key, sk, p).msg))
      else KeyPair(ak', if sk != [] then Decrypt(key, sk, p).value else sk, None)
  }

  /** An empty key stays empty on save; a non-empty one becomes its encryption. */
  lemma SaveKeysFields(ak: seq<byte>, sk: seq<byte>, key: seq<byte>, nonceAk: Result<Nonce>, nonceSk: Result<Nonce>, p: Primitives)
    requires SaveKeys(ak, sk, key, nonceAk, nonceSk, p).err.None?
    ensures var r := SaveKeys(ak, sk, key, nonceAk, nonceSk, p);
      && (ak == [] ==> r.ak == [])
      && (sk == [] ==> r.sk == [])
      && (ak != [] ==> Encrypt(key, ak, nonceAk, p) == Ok(r.ak))
      && (sk != [] ==> Encrypt(key, sk, nonceSk, p) == Ok(r.sk))
  {
  }

  /** A failed encryption is reported; when it is SK's, AK has already been replaced. */
  lemma SaveKeysFailure(ak: seq<byte>, sk: seq<byte>, key: seq<byte>, nonceAk: Result<Nonce>, nonceSk: Result<Nonce>, p: Primitives)
    ensures var r := SaveKeys(ak, sk, key, nonceAk, nonceSk, p);
      && (ak != [] && Encrypt(key, ak, nonceAk, p).Err? ==>
            r == KeyPair(ak, sk, Some(Encrypt(key, ak, nonceAk, p).msg)))
      && (ak != [] && Encrypt(key, ak, nonceAk, p).Ok? && sk != [] && Encrypt(key, sk, nonceSk, p).Err? ==>
            r == KeyPair(Encrypt(key, ak, nonceAk, p).value, sk, Some(Encrypt(key, sk, nonceSk, p).msg)))
      && (r.err.None? <==> (ak == [] || Encrypt(key, ak, nonceAk, p).Ok?) && (sk == [] || Encrypt(key, sk, nonceSk, p).Ok?))
  {
  }

  /** AfterFind decrypts each non-empty key and reports the first decryption error. */
  lemma LoadKeysFields(ak: seq<byte>, sk: seq<byte>, key: seq<byte>, p: Primitives)
    ensures var r := LoadKeys(ak, sk, key, p);
      && (ak != [] && Decrypt(key, ak, p).Err? ==> r == KeyPair(ak, sk, Some(Decrypt(key, ak, p).msg)))
      && (r.err.None? <==> (ak == [] || Decrypt(key, ak, p).Ok?) && (sk == [] || Decrypt(key, sk, p).Ok?))
      && (r.err.None? ==> (ak == [] ==> r.ak == []) && (sk == [] ==> r.sk == []))
      && (r.err.None? ==> (ak != [] ==> Decrypt(key, ak, p) == Ok(r.ak)) && (sk != [] ==> Decrypt(key, sk, p) == Ok(r.sk)))
  {
  }

  /** Loading what was saved restores both keys, given sound primitives, a valid key and good randomness. */
  lemma LoadAfterSave(ak: seq<byte>, sk: seq<byte>, key: seq<byte>, nonceAk: Nonce, nonceSk: Nonce, p: Primitives)
    requires Sound(p) && ValidKeyLength(|key|)
    ensures var saved := SaveKeys(ak, sk, key, Ok(nonceAk), Ok(nonceSk), p);
      && saved.err.None?
      && LoadKeys(saved.ak, saved.sk, key, p) == KeyPair(ak, sk, None)
  {
    if ak != [] {
      DecryptEncrypt(key, ak, nonceAk, p);
      EncryptNonEmpty(key, ak, Ok(nonceAk), p);
    }
    if sk != [] {
      DecryptEncrypt(key, sk, nonceSk, p);
      EncryptNonEmpty(key, sk, Ok(nonceSk), p);
    }
  }

  /** A provider object, on which the hooks rewrite AK and SK in place. */
  class CloudProvider {
    var id: nat
    var ak: seq<byte>
    var sk: seq<byte>
    var providerType: string
    var region: string
    var status: Option<int>
    var remark: string
    var projectId: nat

    constructor (r: ProviderRecord)
      ensures Record() == r
    {
      id, ak, sk, providerType := r.id, r.ak, r.sk, r.providerType;
      region, status, remark, projectId := r.region, r.status, r.remark, r.projectId;
    }

    function Record(): ProviderRecord
      reads this
    {
      ProviderRecord(id, ak, sk, providerType, region, status, remark, projectId)
    }

    /** BeforeSave, under the key held by `keys`; `nonceAk`/`nonceSk` are what the random reader yields. */
    method BeforeSave(keys: KeyStore, nonceAk: Result<Nonce>, nonceSk: Result<Nonce>, p: Primitives)
      returns (err: Option<string>)
      modifies this
      ensures KeyPair(ak, sk, err) == SaveKeys(old(ak), old(sk), keys.encryptionKey, nonceAk, nonceSk, p)
      ensures Record() == old(Record()).(ak := ak, sk := sk)
    {
      if ak != [] {
        var encrypted := Encrypt(keys.encryptionKey, ak, nonceAk, p);
        if encrypted.Err? {
          return Some(encrypted.msg);
        }
        ak := encrypted.value;
      }
      if sk != [] {
        var encrypted := Encrypt(keys.encryptionKey, sk, nonceSk, p);
        if encrypted.Err? {
          return Some(encrypted.msg);
        }
        sk := encrypted.value;
      }
      return None;
    }

    /** AfterFind, under the key held by `keys`. */
    method AfterFind(keys: KeyStore, p: Primitives) returns (err: Option<string>)
      modifies this
      ensures KeyPair(ak, sk, err) == LoadKeys(old(ak), old(sk), keys.encryptionKey, p)
      ensures Record() == old(Record()).(ak := ak, sk := sk)
    {
      if ak != [] {
        var decrypted := Decrypt(keys.encryptionKey, ak, p);
        if decrypted.Err? {
          return Some(decrypted.msg);
        }
        ak := decrypted.value;
      }
      if sk != [] {
        var decrypted := Decrypt(keys.encryptionKey, sk, p);
        if decrypted.Err? {
          return Some(decrypted.msg);
        }
        sk := decrypted.value;
      }
      return None;
    }
  }
}
