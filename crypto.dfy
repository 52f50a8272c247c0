/**
 * Key set-up and the AES-GCM envelope of server/plugin/cloud_asset/utils/crypto.go.
 * Go strings are byte strings, so keys, plaintexts and ciphertexts are byte
 * sequences. SHA-256, base64 (standard alphabet, section 4 of RFC 4648) and the
 * AES-GCM seal/open are library code: they are abstract functions bundled in
 * `Primitives`, and `Sound` states the laws this model relies on.
 */
module Crypto {
  import opened Wrappers
  import Keys

  type byte = b: int | 0 <= b < 256

  /** `gcm.NonceSize()` for AES-GCM with the standard nonce. */
  const NonceSize: nat := 12

  type Digest = s: seq<byte> | |s| == 32 witness seq(32, _ => 0)

  type Nonce = s: seq<byte> | |s| == NonceSize witness seq(NonceSize, _ => 0)

  datatype Primitives = Primitives(
    sha256: seq<byte> -> Digest,
    encode: seq<byte> -> seq<byte>,             // base64.StdEncoding.EncodeToString
    decode: seq<byte> -> Result<seq<byte>>,     // base64.StdEncoding.DecodeString
    seal: (seq<byte>, Nonce, seq<byte>) -> seq<byte>,          // sealed text and tag, without the nonce
    open: (seq<byte>, Nonce, seq<byte>) -> Option<seq<byte>>   // None: authentication failed
  )

  /** Decoding undoes encoding, a padded encoding has 4 characters per started 3 bytes, and open undoes seal. */
  ghost predicate Sound(p: Primitives)
  {
    && (forall b :: p.decode(p.encode(b)) == Ok(b))
    && (forall b :: |p.encode(b)| == 4 * ((|b| + 2) / 3))
    && (forall k, n, m :: p.open(k, n, p.seal(k, n, m)) == Some(m))
  }

  const ErrTooShort := "ciphertext too short"
  const ErrAuthentication := "cipher: message authentication failed"

  /** The key sizes `aes.NewCipher` accepts (AES-128, AES-192, AES-256). */
  predicate ValidKeyLength(n: nat)
  {
    n == 16 || n == 24 || n == 32
  }

  /** `aes.KeySizeError`'s message. */
  function KeySizeError(n: nat): string
  {
    "crypto/aes: invalid key size " + Keys.Decimal(n)
  }

  /** The bytes of an ASCII string. */
  function AsciiBytes(s: string): (b: seq<byte>)
    requires forall i :: 0 <= i < |s| ==> s[i] < 128 as char
    ensures |b| == |s|
  {
    seq(|s|, i requires 0 <= i < |s| => s[i] as int)
  }

  const DefaultKeyText := "default-32-byte-encryption-key!!"

  /** The built-in key used when none is configured; it is a valid AES-256 key. */
  function DefaultKey(): (k: seq<byte>)
    ensures |k| == 32
  {
    AsciiBytes(DefaultKeyText)
  }

  /** InitCrypto's key: the default for an empty key, the key itself if AES accepts it, its SHA-256 digest otherwise. */
  function NormaliseKey(key: seq<byte>, p: Primitives): (k: seq<byte>)
    ensures ValidKeyLength(|k|)
    ensures key == [] ==> k == DefaultKey()
    ensures ValidKeyLength(|key|) ==> k == key
    ensures key != [] && !ValidKeyLength(|key|) ==> k == p.sha256(key)
  {
    var k := if key == [] then DefaultKey() else key;
    if ValidKeyLength(|k|) then k else p.sha256(k)
  }

  /** Feeding a normalised key to InitCrypto again changes nothing. */
  lemma NormaliseKeyIdempotent(key: seq<byte>, p: Primitives)
    ensures NormaliseKey(NormaliseKey(key, p), p) == NormaliseKey(key, p)
  {
  }

  /** The holder of the package-level `encryptionKey`, nil until InitCrypto runs. */
  class KeyStore {
    var encryptionKey: seq<byte>

    constructor ()
      ensures encryptionKey == []
    {
      encryptionKey := [];
    }

    method InitCrypto(key: seq<byte>, p: Primitives)
      modifies this
      ensures encryptionKey == NormaliseKey(key, p)
      ensures ValidKeyLength(|encryptionKey|)
    {
      var k: seq<byte>;
      if key == [] {
        k := DefaultKey();
      } else {
        k := key;
      }
      if !ValidKeyLength(|k|) {
        k := p.sha256(k);
      }
      encryptionKey := k;
    }
  }

  /** Encrypt: `nonce ‖ seal(nonce, plaintext)`, base64-encoded. `nonce` is what the random reader yields. */
  function Encrypt(key: seq<byte>, plaintext: seq<byte>, nonce: Result<Nonce>, p: Primitives): (r: Result<seq<byte>>)
    ensures !ValidKeyLength(|key|) ==> r == Err(KeySizeError(|key|))
    ensures ValidKeyLength(|key|) && nonce.Err? ==> r == Err(nonce.msg)
    ensures ValidKeyLength(|key|) && nonce.Ok? ==> r == Ok(p.encode(nonce.value + p.seal(key, nonce.value, plaintext)))
  {
    if !ValidKeyLength(|key|) then Err(KeySizeError(|key|))
    else match nonce
      case Err(e) => Err(e)
      case Ok(n) => Ok(p.encode(n + p.seal(key, n, plaintext)))
  }

  /** Decrypt: decode, check the framing, split at the nonce size, open. */
  function Decrypt(key: seq<byte>, ciphertext: seq<byte>, p: Primitives): (r: Result<seq<byte>>)
    ensures p.decode(ciphertext).Err? ==> r == Err(p.decode(ciphertext).msg)
    ensures p.decode(ciphertext).Ok? && !ValidKeyLength(|key|) ==> r == Err(KeySizeError(|key|))
    ensures r.Ok? ==>
      && ValidKeyLength(|key|) && p.decode(ciphertext).Ok? && |p.decode(ciphertext).value| >= NonceSize
      && p.open(key, p.decode(ciphertext).value[..NonceSize], p.decode(ciphertext).value[NonceSize..]) == Some(r.value)
  {
    match p.decode(ciphertext)
    case Err(e) => Err(e)
    case Ok(data) =>
      if !ValidKeyLength(|key|) then Err(KeySizeError(|key|))
      else if |data| < NonceSize then Err(ErrTooShort)
      else
        var nonce: Nonce, sealed := data[..NonceSize], data[NonceSize..];
        match p.open(key, nonce, sealed)
        case None => Err(ErrAuthentication)
        case Some(plain) => Ok(plain)
  }

  /** Data decoded to fewer bytes than a nonce is refused before any opening is tried. */
  lemma DecryptRejectsShort(key: seq<byte>, ciphertext: seq<byte>, p: Primitives)
    requires ValidKeyLength(|key|)
    requires p.decode(ciphertext).Ok? && |p.decode(ciphertext).value| < NonceSize
    ensures Decrypt(key, ciphertext, p) == Err(ErrTooShort)
  {
  }

  /** Decrypt opens exactly the bytes after the nonce, with the nonce in front of them. */
  lemma DecryptSplitsFrame(key: seq<byte>, ciphertext: seq<byte>, p: Primitives, nonce: Nonce, sealed: seq<byte>)
    requires ValidKeyLength(|key|)
    requires p.decode(ciphertext) == Ok(nonce + sealed)
    ensures Decrypt(key, ciphertext, p) ==
      match p.open(key, nonce, sealed) case None => Err(ErrAuthentication) case Some(m) => Ok(m)
  {
    var data := nonce + sealed;
    assert data[..NonceSize] == nonce && data[NonceSize..] == sealed;
  }

  /** The envelope round-trips: decrypting what Encrypt produced gives the plaintext back. */
  lemma DecryptEncrypt(key: seq<byte>, plaintext: seq<byte>, nonce: Nonce, p: Primitives)
    requires Sound(p) && ValidKeyLength(|key|)
    ensures Encrypt(key, plaintext, Ok(nonce), p).Ok?
    ensures Decrypt(key, Encrypt(key, plaintext, Ok(nonce), p).value, p) == Ok(plaintext)
  {
    var sealed := p.seal(key, nonce, plaintext);
    DecryptSplitsFrame(key, p.encode(nonce + sealed), p, nonce, sealed);
  }

  /** Encrypt never yields the empty string, since the nonce alone encodes to 16 characters. */
  lemma EncryptNonEmpty(key: seq<byte>, plaintext: seq<byte>, nonce: Result<Nonce>, p: Primitives)
    requires Sound(p) && Encrypt(key, plaintext, nonce, p).Ok?
    ensures |Encrypt(key, plaintext, nonce, p).value| >= 16
  {
    var b := nonce.value + p.seal(key, nonce.value, plaintext);
    assert |p.encode(b)| == 4 * ((|b| + 2) / 3);
  }
}
