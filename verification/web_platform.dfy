/** The browser built-ins the client code calls: `TextEncoder`/`TextDecoder`,
    `crypto.subtle` and `btoa`/`atob`. None of them is defined here; a
    `Platform` value is an arbitrary choice of each, so every fact proved
    about the chat code holds for any implementation of them. The standards
    they follow enter only as the named predicates below, and only where a
    lemma says it relies on one. */
module WebPlatform {
  import opened Wrappers

  /** An octet: one element of a `Uint8Array`. */
  type byte = b: int | 0 <= b < 256

  /** Length in bytes of a SHA-256 digest (FIPS 180-4). */
  const DigestLength := 32

  /** The output of `crypto.subtle.digest('SHA-256', ...)`. */
  type Digest = s: seq<byte> | |s| == DigestLength witness seq(DigestLength, _ => 0 as byte)

  /** Length in bytes of the AES-GCM initialisation vector the client draws. */
  const IvLength := 12

  /** The bytes `crypto.getRandomValues(new Uint8Array(12))` fills in. */
  type Iv = s: seq<byte> | |s| == IvLength witness seq(IvLength, _ => 0 as byte)

  /** A "binary string": one character per byte, every code below 256.
      This is what `atob` returns and what `btoa` accepts. */
  type BinaryString = s: string | forall i :: 0 <= i < |s| ==> s[i] as int < 256

  /** A non-extractable `CryptoKey` for AES-GCM; its bits stay inside the platform. */
  datatype AesKey = AesKey(handle: seq<byte>)

  /** The algorithm object passed to `crypto.subtle.deriveKey` for PBKDF2. */
  datatype Pbkdf2Params = Pbkdf2Params(name: string, salt: seq<byte>, iterations: nat, hash: string)

  /** The algorithm object describing the key `deriveKey` produces. */
  datatype AesKeyParams = AesKeyParams(name: string, length: nat)

  datatype Platform = Platform(
    /** `new TextEncoder().encode(s)`: UTF-8. */
    encode: string -> seq<byte>,
    /** `new TextDecoder().decode(b)`: malformed input is replaced, never rejected,
        and one leading byte order mark is dropped (`ignoreBOM` is false). */
    decode: seq<byte> -> string,
    /** `crypto.subtle.digest('SHA-256', b)`. */
    sha256: seq<byte> -> Digest,
    /** `importKey('raw', password, 'PBKDF2', ...)` followed by `deriveKey(params, material, keyParams, ...)`
        (PBKDF2 is section 5.2 of RFC 8018). */
    pbkdf2: (seq<byte>, Pbkdf2Params, AesKeyParams) -> AesKey,
    /** `crypto.subtle.encrypt({name: 'AES-GCM', iv}, key, data)` (NIST SP 800-38D). */
    aesGcmEncrypt: (AesKey, seq<byte>, seq<byte>) -> seq<byte>,
    /** `crypto.subtle.decrypt({name: 'AES-GCM', iv}, key, data)`; `None` is the rejected promise
        (the authentication tag did not verify). */
    aesGcmDecrypt: (AesKey, seq<byte>, seq<byte>) -> Option<seq<byte>>,
    /** `btoa(binary)`: base64 of section 4 of RFC 4648. */
    btoa: string -> string,
    /** `atob(text)`; `None` is the thrown `InvalidCharacterError`. */
    atob: string -> Option<BinaryString>)

  /** `atob` undoes `btoa` on every binary string (RFC 4648, section 4). */
  ghost predicate Base64RoundTrips(p: Platform) {
    forall s: BinaryString :: p.atob(p.btoa(s)) == Some(s)
  }

  /** The longest plaintext GCM accepts, in bytes: 2^39 - 256 bits
      (NIST SP 800-38D, section 5.2.1.1). */
  const GcmMaxPlaintextLength := 0x10_0000_0000 - 32

  /** AES-GCM decryption under the key and 12-byte IV used to encrypt returns
      the plaintext, for every plaintext within GCM's length limit
      (NIST SP 800-38D, sections 7.1 and 7.2). */
  ghost predicate AesGcmRoundTrips(p: Platform) {
    forall key, iv: Iv, data: seq<byte> | |data| <= GcmMaxPlaintextLength ::
      p.aesGcmDecrypt(key, iv, p.aesGcmEncrypt(key, iv, data)) == Some(data)
  }

  /** U+FEFF, the byte order mark. */
  const ByteOrderMark: char := '\U{FEFF}'

  /** `s` without one leading byte order mark. */
  function WithoutBom(s: string): string {
    if s != [] && s[0] == ByteOrderMark then s[1..] else s
  }

  /** Decoding UTF-8 undoes encoding for every string of Unicode scalar values,
      except that the decoder drops a leading byte order mark (the Encoding
      Standard's "UTF-8 decode", section 6). */
  ghost predicate Utf8RoundTrips(p: Platform) {
    forall s :: p.decode(p.encode(s)) == WithoutBom(s)
  }
}
