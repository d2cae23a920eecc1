/**
 * The cryptographic primitives the client calls, as uninterpreted functions
 * bundled in one record, together with the laws the protocol relies on:
 * ECDH agreement (NIST SP 800-56A section 5.7.1.2), AES-GCM decryption
 * undoing encryption under the same key (NIST SP 800-38D section 7),
 * CryptoJS AES decryption undoing encryption under the same passphrase, and
 * Base64 decoding and re-encoding a ciphertext without loss. Determinism of
 * the hashes (SHA-256, FIPS 180-4 section 6.2; Keccak-256) and of AES-GCM
 * under the fixed all-zero nonce is built in: each is a function.
 *
 * No law states what decryption under a WRONG key returns: CryptoJS returns
 * whatever decodes, and nothing here claims wrong-key detection.
 */
module Crypto {
  import opened Wrappers
  import opened Bytes

  datatype Primitives = Primitives(
    /** The public half (SPKI hex) of an ECDH P-384 private key (PKCS#8 hex). */
    publicOf: string -> string,
    /** `deriveSecretKey(privateKey, publicKey)`: the shared AES-GCM key. */
    derive: (string, string) -> string,
    /** `encryptAESGCM(data, key)` with the fixed zero nonce, as hex. */
    gcmEncrypt: (string, string) -> string,
    /** `decryptAESGCM(hex, key)`; `None` when authentication fails. */
    gcmDecrypt: (string, string) -> Option<string>,
    /** `encryptWithCryptoJS(text, passphrase)`. */
    aesEncrypt: (string, string) -> string,
    /** `decryptWithCryptoJS(ciphertext, passphrase)`. */
    aesDecrypt: (string, string) -> string,
    /** `CryptoJS.AES.encrypt(wordArray, passphrase).toString()`: Base64 text. */
    aesEncryptBytes: (seq<byte>, string) -> string,
    /** `CryptoJS.AES.decrypt(base64, passphrase)`: a word array. */
    aesDecryptBytes: (string, string) -> WordArray,
    /** `sha256Hex(text)`: SHA-256 of the UTF-8 text, as hex. */
    sha256Hex: string -> string,
    /** `CryptoJS.SHA256(wordArray).toString()`: SHA-256 of raw bytes, as hex. */
    sha256Bytes: seq<byte> -> string,
    /** `keccak256(hexSignature).toString("hex")`. */
    keccak256Hex: string -> string,
    /** The browser's Base64 decoder. */
    atob: string -> string,
    /** The browser's Base64 encoder. */
    btoa: string -> string)

  /** Both sides of an ECDH exchange derive the same key. */
  ghost predicate EcdhAgrees(p: Primitives) {
    forall a: string, b: string {:trigger p.derive(a, p.publicOf(b))} ::
      p.derive(a, p.publicOf(b)) == p.derive(b, p.publicOf(a))
  }

  ghost predicate GcmRoundTrip(p: Primitives) {
    forall d: string, k: string :: p.gcmDecrypt(p.gcmEncrypt(d, k), k) == Some(d)
  }

  /** CryptoJS output is never empty (it carries at least the salt header). */
  ghost predicate AesRoundTrip(p: Primitives) {
    forall d: string, k: string :: p.aesEncrypt(d, k) != "" && p.aesDecrypt(p.aesEncrypt(d, k), k) == d
  }

  /**
   * Decrypting encrypted bytes yields a word array of exactly those bytes;
   * the Base64 ciphertext decodes to a binary string that encodes back to it.
   */
  ghost predicate AesBytesRoundTrip(p: Primitives) {
    forall b: seq<byte>, k: string {:trigger p.aesEncryptBytes(b, k)} ::
      var c := p.aesEncryptBytes(b, k);
      && p.aesDecryptBytes(c, k).sigBytes == |b|
      && Unpacked(p.aesDecryptBytes(c, k).words, |b|) == b
      && IsBinary(p.atob(c))
      && p.btoa(p.atob(c)) == c
  }

  ghost predicate Axioms(p: Primitives) {
    EcdhAgrees(p) && GcmRoundTrip(p) && AesRoundTrip(p) && AesBytesRoundTrip(p)
  }

  /**
   * A concrete (and deliberately insecure) instance of the primitives, which
   * shows the laws above can all hold at once.
   */
  function Reference(): Primitives {
    Primitives(
      (priv: string) => priv,
      (a: string, b: string) => seq(|a| + |b|, _ => 'k'),
      (d: string, k: string) => k + d,
      (c: string, k: string) => if |k| <= |c| && c[..|k|] == k then Some(c[|k|..]) else None,
      (d: string, k: string) => "S" + d,
      (c: string, k: string) => if c == "" then c else c[1..],
      (b: seq<byte>, k: string) => BinaryString(b),
      (c: string, k: string) => Packed(BinaryBytes(c)),
      (s: string) => s,
      (b: seq<byte>) => BinaryString(b),
      (s: string) => s,
      (s: string) => s,
      (s: string) => s)
  }

  lemma ReferenceSatisfiesAxioms()
    ensures Axioms(Reference())
  {
    ReferenceGcm();
    ReferenceAes();
    ReferenceAesBytes();
  }

  lemma ReferenceGcm()
    ensures GcmRoundTrip(Reference())
  {
    var p := Reference();
    forall d: string, k: string
      ensures p.gcmDecrypt(p.gcmEncrypt(d, k), k) == Some(d)
    {
      assert (k + d)[..|k|] == k && (k + d)[|k|..] == d;
    }
  }

  lemma ReferenceAes()
    ensures AesRoundTrip(Reference())
  {
    var p := Reference();
    forall d: string, k: string
      ensures p.aesEncrypt(d, k) != "" && p.aesDecrypt(p.aesEncrypt(d, k), k) == d
    {
      assert ("S" + d)[1..] == d;
    }
  }

  lemma ReferenceAesBytes()
    ensures AesBytesRoundTrip(Reference())
  {
    var p := Reference();
    forall b: seq<byte>, k: string
      ensures p.aesDecryptBytes(p.aesEncryptBytes(b, k), k).sigBytes == |b|
      ensures Unpacked(p.aesDecryptBytes(p.aesEncryptBytes(b, k), k).words, |b|) == b
    {
      BinaryBytesOfBinaryString(b);
      UnpackPacked(b);
    }
  }
}
