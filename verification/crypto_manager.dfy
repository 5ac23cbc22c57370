/** `CryptoManager` of public/crypto.js: a two-state machine (no key / key
    held) over the browser's SubtleCrypto, deriving an AES-GCM key from the
    room phrase with PBKDF2 and a phrase-derived salt, and the two loops that
    turn bytes into a "binary string" for `btoa` and back after `atob`. */
module CryptoManager {
  import opened Wrappers
  import opened WebPlatform

  /** The salt is this many leading bytes of the phrase's SHA-256 digest. */
  const SaltLength := 16
  const Pbkdf2Iterations := 100000
  const KeyLengthBits := 256

  /** The PBKDF2 parameters for a given salt. */
  function Pbkdf2For(salt: seq<byte>): Pbkdf2Params {
    Pbkdf2Params("PBKDF2", salt, Pbkdf2Iterations, "SHA-256")
  }

  const AesKeyParameters := AesKeyParams("AES-GCM", KeyLengthBits)

  /** The two errors the manager throws. */
  datatype CryptoError = KeyNotDerived | DecryptFailed {
    /** The `Error` message of each. */
    function Message(): string {
      match this
      case KeyNotDerived => "Key not derived. Call deriveKey() first."
      case DecryptFailed => "Failed to decrypt message. Wrong key or corrupted data."
    }
  }

  /** What `encrypt` resolves to: the ciphertext and the IV, both base64. */
  datatype Sealed = Sealed(ciphertext: string, iv: string)

  // ---------------------------------------------------------------------------
  // Specification functions

  /** The binary string `String.fromCharCode(bytes[0]) + ...`. */
  function BinaryOf(bytes: seq<byte>): BinaryString {
    seq(|bytes|, i requires 0 <= i < |bytes| => bytes[i] as char)
  }

  /** The bytes stored by `bytes[i] = binary.charCodeAt(i)` into a
      `Uint8Array`, which keeps the code modulo 256. */
  function BytesOf(binary: string): seq<byte> {
    seq(|binary|, i requires 0 <= i < |binary| => (binary[i] as int) % 256)
  }

  /** A byte sequence survives the trip through a binary string. */
  lemma BytesOfBinaryOf(bytes: seq<byte>)
    ensures |BinaryOf(bytes)| == |bytes|
    ensures BytesOf(BinaryOf(bytes)) == bytes
  {
  }

  /** A binary string survives the trip through bytes. */
  lemma BinaryOfBytesOf(binary: BinaryString)
    ensures |BytesOf(binary)| == |binary|
    ensures BinaryOf(BytesOf(binary)) == binary
  {
  }

  /** The salt of `deriveKey(phrase)`. */
  function SaltFor(p: Platform, phrase: string): (salt: seq<byte>)
    ensures |salt| == SaltLength
    ensures salt <= p.sha256(p.encode(phrase))
  {
    p.sha256(p.encode(phrase))[..SaltLength]
  }

  /** The key `deriveKey(phrase)` produces: a function of the phrase alone. */
  function KeyFor(p: Platform, phrase: string): AesKey {
    p.pbkdf2(p.encode(phrase), Pbkdf2For(SaltFor(p, phrase)), AesKeyParameters)
  }

  /** What `encrypt(plaintext)` resolves to, or throws, given the current key
      and the IV the random source produced. */
  function EncryptResult(p: Platform, key: Option<AesKey>, iv: Iv, plaintext: string): (r: Result<Sealed, CryptoError>)
    ensures r.Failure? <==> key.None?
    ensures r.Failure? ==> r.error == KeyNotDerived
    ensures r.Success? ==> r.value.iv == p.btoa(BinaryOf(iv))
  {
    match key
    case None => Failure(KeyNotDerived)
    case Some(k) =>
      Success(Sealed(p.btoa(BinaryOf(p.aesGcmEncrypt(k, iv, p.encode(plaintext)))), p.btoa(BinaryOf(iv))))
  }

  /** What `decrypt(ciphertextBase64, ivBase64)` resolves to, or throws. */
  function DecryptResult(p: Platform, key: Option<AesKey>, ciphertext: string, iv: string): (r: Result<string, CryptoError>)
    ensures key.None? ==> r == Failure(KeyNotDerived)
    ensures key.Some? && r.Failure? ==> r.error == DecryptFailed
    ensures r.Success? <==>
      key.Some? && p.atob(ciphertext).Some? && p.atob(iv).Some?
      && p.aesGcmDecrypt(key.value, BytesOf(p.atob(iv).value), BytesOf(p.atob(ciphertext).value)).Some?
  {
    match key
    case None => Failure(KeyNotDerived)
    case Some(k) =>
      match (p.atob(ciphertext), p.atob(iv))
      case (Some(c), Some(v)) =>
        (match p.aesGcmDecrypt(k, BytesOf(v), BytesOf(c))
         case Some(plain) => Success(p.decode(plain))
         case None => Failure(DecryptFailed))
      case _ => Failure(DecryptFailed)
  }

  /** Decrypting what was encrypted under the same key gives back the
      plaintext, on any platform whose base64, AES-GCM and UTF-8 follow their
      standards, for every plaintext whose UTF-8 fits GCM's length limit;
      only a leading byte order mark is lost, as `TextDecoder` drops it. */
  lemma {:induction false} DecryptUndoesEncrypt(p: Platform, key: AesKey, iv: Iv, plaintext: string)
    requires Base64RoundTrips(p) && AesGcmRoundTrips(p) && Utf8RoundTrips(p)
    requires |p.encode(plaintext)| <= GcmMaxPlaintextLength
    ensures EncryptResult(p, Some(key), iv, plaintext).Success?
    ensures var sealed := EncryptResult(p, Some(key), iv, plaintext).value;
            DecryptResult(p, Some(key), sealed.ciphertext, sealed.iv) == Success(WithoutBom(plaintext))
    ensures plaintext == [] || plaintext[0] != ByteOrderMark ==>
            var sealed := EncryptResult(p, Some(key), iv, plaintext).value;
            DecryptResult(p, Some(key), sealed.ciphertext, sealed.iv) == Success(plaintext)
  {
    var data := p.encode(plaintext);
    var c := p.aesGcmEncrypt(key, iv, data);
    var sealed := EncryptResult(p, Some(key), iv, plaintext).value;
    assert p.atob(sealed.ciphertext) == Some(BinaryOf(c));
    assert p.atob(sealed.iv) == Some(BinaryOf(iv));
    BytesOfBinaryOf(c);
    BytesOfBinaryOf(iv);
    assert p.aesGcmDecrypt(key, iv, c) == Some(data);
  }

  /** A message that starts with a byte order mark comes back without it:
      `"\u{FEFF}hi"` decrypts to `"hi"`. */
  lemma LeadingBomIsLost(p: Platform, key: AesKey, iv: Iv)
    requires Base64RoundTrips(p) && AesGcmRoundTrips(p) && Utf8RoundTrips(p)
    requires |p.encode([ByteOrderMark, 'h', 'i'])| <= GcmMaxPlaintextLength
    ensures var sealed := EncryptResult(p, Some(key), iv, [ByteOrderMark, 'h', 'i']).value;
            DecryptResult(p, Some(key), sealed.ciphertext, sealed.iv) == Success("hi")
  {
    DecryptUndoesEncrypt(p, key, iv, [ByteOrderMark, 'h', 'i']);
    assert WithoutBom([ByteOrderMark, 'h', 'i']) == "hi";
  }

  /** Two clients that derive from the same phrase decrypt each other's
      messages. */
  lemma SamePhraseDecrypts(p: Platform, phrase: string, iv: Iv, plaintext: string)
    requires Base64RoundTrips(p) && AesGcmRoundTrips(p) && Utf8RoundTrips(p)
    requires |p.encode(plaintext)| <= GcmMaxPlaintextLength
    ensures var sealed := EncryptResult(p, Some(KeyFor(p, phrase)), iv, plaintext);
            sealed.Success? &&
            DecryptResult(p, Some(KeyFor(p, phrase)), sealed.value.ciphertext, sealed.value.iv) == Success(WithoutBom(plaintext))
  {
    DecryptUndoesEncrypt(p, KeyFor(p, phrase), iv, plaintext);
  }

  /** When AES-GCM rejects a payload under the receiver's key (a different
      phrase, a tampered message) the caller sees the single decryption
      error, never some other plaintext. */
  lemma RejectedPayloadFails(p: Platform, key: AesKey, ciphertext: string, iv: string)
    requires p.atob(ciphertext).Some? && p.atob(iv).Some?
    requires p.aesGcmDecrypt(key, BytesOf(p.atob(iv).value), BytesOf(p.atob(ciphertext).value)).None?
    ensures DecryptResult(p, Some(key), ciphertext, iv) == Failure(DecryptFailed)
    ensures DecryptResult(p, Some(key), ciphertext, iv).error.Message() == "Failed to decrypt message. Wrong key or corrupted data."
  {
  }

  // ---------------------------------------------------------------------------
  // The manager

  class Manager {
    /** The browser's `crypto.subtle`, `TextEncoder`, `btoa` and `atob`. */
    const platform: Platform
    /** `this.cryptoKey`, null until a key is derived. */
    var cryptoKey: Option<AesKey>
    /** `this.password`, the phrase the key came from. */
    var password: Option<string>

    /** A key is held exactly when a phrase is, and it is that phrase's key. */
    ghost predicate Valid()
      reads this
    {
      && (cryptoKey.Some? <==> password.Some?)
      && (password.Some? ==> cryptoKey == Some(KeyFor(platform, password.value)))
    }

    /** `isReady()`. */
    predicate IsReady()
      reads this
      ensures Valid() ==> (IsReady() <==> password.Some?)
    {
      cryptoKey.Some?
    }

    constructor (platform: Platform)
      ensures Valid()
      ensures this.platform == platform
      ensures cryptoKey == None && password == None
      ensures !IsReady()
    {
      this.platform := platform;
      cryptoKey := None;
      password := None;
    }

    /** `deriveKey(password)`: from either state to Ready with the phrase's key. */
    method DeriveKey(phrase: string) returns (key: AesKey)
      modifies this
      ensures Valid() && IsReady()
      ensures password == Some(phrase)
      ensures key == KeyFor(platform, phrase) && cryptoKey == Some(key)
    {
      password := Some(phrase);
      var passwordData := platform.encode(phrase);
      var saltHash := platform.sha256(passwordData);
      var salt := saltHash[..SaltLength];
      key := platform.pbkdf2(passwordData, Pbkdf2For(salt), AesKeyParameters);
      cryptoKey := Some(key);
    }

    /** `encrypt(plaintext)`, with the 12 random IV bytes passed in. */
    method Encrypt(plaintext: string, iv: Iv) returns (r: Result<Sealed, CryptoError>)
      ensures r == EncryptResult(platform, cryptoKey, iv, plaintext)
    {
      if cryptoKey.None? {
        return Failure(KeyNotDerived);
      }
      var data := platform.encode(plaintext);
      var ciphertext := platform.aesGcmEncrypt(cryptoKey.value, iv, data);
      var ciphertext64 := ArrayBufferToBase64(ciphertext);
      var iv64 := ArrayBufferToBase64(iv);
      r := Success(Sealed(ciphertext64, iv64));
    }

    /** `decrypt(ciphertextBase64, ivBase64)`: every failure inside the `try`
        becomes the one `DecryptFailed` error. */
    method Decrypt(ciphertext64: string, iv64: string) returns (r: Result<string, CryptoError>)
      ensures r == DecryptResult(platform, cryptoKey, ciphertext64, iv64)
    {
      if cryptoKey.None? {
        return Failure(KeyNotDerived);
      }
      var ciphertext := Base64ToArrayBuffer(ciphertext64);
      if ciphertext.None? {
        return Failure(DecryptFailed);
      }
      var iv := Base64ToArrayBuffer(iv64);
      if iv.None? {
        return Failure(DecryptFailed);
      }
      var decrypted := platform.aesGcmDecrypt(cryptoKey.value, iv.value, ciphertext.value);
      if decrypted.None? {
        return Failure(DecryptFailed);
      }
      r := Success(platform.decode(decrypted.value));
    }

    /** `arrayBufferToBase64(buffer)`: one character per byte, then `btoa`. */
    method ArrayBufferToBase64(buffer: seq<byte>) returns (base64: string)
      ensures base64 == platform.btoa(BinaryOf(buffer))
    {
      var binary := "";
      for i := 0 to |buffer|
        invariant |binary| == i
        invariant forall k :: 0 <= k < i ==> binary[k] as int == buffer[k]
      {
        binary := binary + [buffer[i] as char];
      }
      assert binary == BinaryOf(buffer);
      base64 := platform.btoa(binary);
    }

    /** `base64ToArrayBuffer(base64)`: `atob`, then one byte per character;
        `None` when `atob` throws. */
    method Base64ToArrayBuffer(base64: string) returns (buffer: Option<seq<byte>>)
      ensures platform.atob(base64).None? ==> buffer.None?
      ensures platform.atob(base64).Some? ==> buffer == Some(BytesOf(platform.atob(base64).value))
    {
      var decoded := platform.atob(base64);
      if decoded.None? {
        return None;
      }
      var binary := decoded.value;
      var bytes := new byte[|binary|];
      for i := 0 to |binary|
        invariant forall k :: 0 <= k < i ==> bytes[k] == (binary[k] as int) % 256
      {
        bytes[i] := (binary[i] as int) % 256;
      }
      assert bytes[..] == BytesOf(binary);
      buffer := Some(bytes[..]);
    }

    /** `clearKey()`: back to the state with no key. */
    method ClearKey()
      modifies this
      ensures Valid() && !IsReady()
      ensures cryptoKey == None && password == None
    {
      cryptoKey := None;
      password := None;
    }
  }

  /** Two independent managers given the same phrase hold the same key. */
  method IndependentClientsAgree(platform: Platform, phrase: string) returns (first: AesKey, second: AesKey)
    ensures first == second
    ensures first == KeyFor(platform, phrase)
  {
    var alice := new Manager(platform);
    var bob := new Manager(platform);
    first := alice.DeriveKey(phrase);
    second := bob.DeriveKey(phrase);
  }
}
