/**
 * The identity key at rest: a random salt, signed by the wallet, is hashed
 * (Keccak-256) into a storage key that encrypts the ECDH private key; the
 * key material is then bound to the account by a second typed-data
 * signature over its hashes.
 */
module UserKeys {
  import opened Wrappers
  import opened Types
  import opened Bytes
  import opened Eip712
  import opened Crypto

  /** `JSON.stringify(KEYS_META)`: the key description uploaded with the keys. */
  const KeysMetaJson: string :=
    "{\"name\":\"ECDH\",\"named_curve\":\"P-384\",\"private_key_format\":\"pkcs8\","
    + "\"public_key_format\":\"spki\",\"private_key_encoding\":\"hex\",\"public_key_encoding\":\"hex\","
    + "\"key_usages\":[\"deriveKey\"],\"derived_key_name\":\"AES-GCM\"}"

  const SaltHint: string := "Sign this salt to generate encryption key"

  const NoAccountMessage: string := "No wallet account connected"

  /** The number of random bytes in a salt. */
  const SaltLength: nat := 32

  /**
   * `signTypedData`: without a connected account it fails before asking the
   * wallet; otherwise it asks the wallet for one signature of `message` under
   * the MetaMail domain, with the schema's primary type.
   */
  function SignTypedData(w: Wallet, schema: Schema, message: TypedMessage): (r: Result<string, Failure>)
    ensures w.account.None? ==> r == Err(Failed(NoAccountMessage))
    ensures w.account.Some? ==> r == w.signTypedData(TypedData(w.account.value, MetaMailDomain, schema, schema.primaryType, message))
  {
    match w.account
    case None => Err(Failed(NoAccountMessage))
    case Some(address) => w.signTypedData(TypedData(address, MetaMailDomain, schema, schema.primaryType, message))
  }

  /** `signSalt`: the salt and the fixed hint, signed as `Sign_Salt`. */
  function SignSalt(w: Wallet, salt: string): Result<string, Failure> {
    SignTypedData(w, SaltSchema, SaltMessage(salt, SaltHint))
  }

  /** `deriveStorageKey`: the Keccak-256 hash of the salt signature, as hex. */
  function DeriveStorageKey(p: Primitives, signedSalt: string): string {
    p.keccak256Hex(signedSalt)
  }

  /** `decryptPrivateKey`: sign the salt, derive the storage key, decrypt. */
  function DecryptPrivateKey(p: Primitives, w: Wallet, encryptedPrivateKey: string, salt: string): (r: Result<string, Failure>)
    ensures r.Err? <==> SignSalt(w, salt).Err?
    ensures r.Err? ==> r.error == SignSalt(w, salt).error
  {
    var signedSalt :- SignSalt(w, salt);
    Ok(p.aesDecrypt(encryptedPrivateKey, DeriveStorageKey(p, signedSalt)))
  }

  predicate IsLowerHexDigit(c: char) {
    '0' <= c <= '9' || 'a' <= c <= 'f'
  }

  function HexDigit(d: nat): (c: char)
    requires d < 16
    ensures IsLowerHexDigit(c)
  {
    if d < 10 then ('0' as int + d) as char else ('a' as int + d - 10) as char
  }

  /** The value of a hexadecimal digit, either case; 0 for any other character. */
  function HexValue(c: char): (v: nat)
    ensures v < 16
  {
    if '0' <= c <= '9' then c as int - '0' as int
    else if 'a' <= c <= 'f' then c as int - 'a' as int + 10
    else if 'A' <= c <= 'F' then c as int - 'A' as int + 10
    else 0
  }

  lemma HexValueOfDigit(d: nat)
    requires d < 16
    ensures HexValue(HexDigit(d)) == d
  {
  }

  /** `b.toString(16).padStart(2, "0")`. */
  function HexByte(b: byte): string {
    [HexDigit(b as int / 16), HexDigit(b as int % 16)]
  }

  /** The bytes, each as two lower-case hex digits, joined. */
  function SaltHex(bytes: seq<byte>): (s: string)
    ensures |s| == 2 * |bytes|
    ensures forall i :: 0 <= i < |s| ==> IsLowerHexDigit(s[i])
  {
    if bytes == [] then [] else HexByte(bytes[0]) + SaltHex(bytes[1..])
  }

  /** Reads pairs of hex digits back into bytes. */
  function ParseHex(s: string): (bytes: seq<byte>)
    ensures |bytes| == |s| / 2
  {
    if |s| < 2 then [] else [(HexValue(s[0]) * 16 + HexValue(s[1])) as byte] + ParseHex(s[2..])
  }

  /** The salt string determines the salt bytes: nothing is lost by the padding. */
  lemma {:induction false} ParseSaltHex(bytes: seq<byte>)
    ensures ParseHex(SaltHex(bytes)) == bytes
  {
    if bytes != [] {
      var s := SaltHex(bytes);
      assert s == HexByte(bytes[0]) + SaltHex(bytes[1..]);
      assert s[2..] == SaltHex(bytes[1..]);
      HexValueOfDigit(bytes[0] as int / 16);
      HexValueOfDigit(bytes[0] as int % 16);
      ParseSaltHex(bytes[1..]);
    }
  }

  /** `sha256Hex(sha256Hex(publicKey) + sha256Hex(encryptedPrivateKey))`. */
  function KeysHash(p: Primitives, publicKey: string, encryptedPrivateKey: string): string {
    p.sha256Hex(p.sha256Hex(publicKey) + p.sha256Hex(encryptedPrivateKey))
  }

  /** What `generateEncryptionKeys` uploads. */
  datatype KeyUpload = KeyUpload(
    signature: string,
    salt: string,
    encryptedPrivateKey: string,
    publicKey: string,
    keysMeta: string,
    date: string)

  /**
   * `generateEncryptionKeys`, given the random salt bytes, the private key of
   * the freshly generated pair and the current time: sign the salt, encrypt
   * the private key under the storage key, sign the key data.
   */
  function GenerateEncryptionKeys(p: Primitives, w: Wallet, saltBytes: seq<byte>, privateKey: string, date: string): (r: Result<KeyUpload, Failure>)
    requires |saltBytes| == SaltLength
    ensures w.account.None? ==> r == Err(Failed(NoAccountMessage))
    ensures r.Ok? ==>
      && |r.value.salt| == 64
      && (forall i :: 0 <= i < 64 ==> IsLowerHexDigit(r.value.salt[i]))
      && ParseHex(r.value.salt) == saltBytes
      && r.value.publicKey == p.publicOf(privateKey)
      && r.value.keysMeta == KeysMetaJson
      && r.value.date == date
  {
    var salt := SaltHex(saltBytes);
    var signedSalt :- SignSalt(w, salt);
    var storageKey := DeriveStorageKey(p, signedSalt);
    var publicKey := p.publicOf(privateKey);
    var encryptedPrivateKey := p.aesEncrypt(privateKey, storageKey);
    var keysHash := KeysHash(p, publicKey, encryptedPrivateKey);
    var signature :- SignTypedData(w, KeyDataSchema, KeyDataMessage(date, salt, keysHash, KeysMetaJson));
    ParseSaltHex(saltBytes);
    Ok(KeyUpload(signature, salt, encryptedPrivateKey, publicKey, KeysMetaJson, date))
  }

  /**
   * The upload record carries exactly what was signed as `Sign_KeyData`: its
   * salt, date and key description, and the hash of its two keys.
   */
  lemma UploadIsSigned(p: Primitives, w: Wallet, saltBytes: seq<byte>, privateKey: string, date: string)
    requires |saltBytes| == SaltLength
    requires GenerateEncryptionKeys(p, w, saltBytes, privateKey, date).Ok?
    ensures var u := GenerateEncryptionKeys(p, w, saltBytes, privateKey, date).value;
      && w.account.Some?
      && Ok(u.signature) == w.signTypedData(TypedData(w.account.value, MetaMailDomain, KeyDataSchema, "Sign_KeyData",
           KeyDataMessage(u.date, u.salt, KeysHash(p, u.publicKey, u.encryptedPrivateKey), u.keysMeta)))
  {
  }

  /**
   * A wallet that signs the stored salt as it did at key generation recovers
   * the private key that was generated.
   */
  lemma PrivateKeyRoundTrip(p: Primitives, w: Wallet, w': Wallet, saltBytes: seq<byte>, privateKey: string, date: string)
    requires Axioms(p)
    requires |saltBytes| == SaltLength
    requires GenerateEncryptionKeys(p, w, saltBytes, privateKey, date).Ok?
    requires SignSalt(w', SaltHex(saltBytes)) == SignSalt(w, SaltHex(saltBytes))
    ensures var u := GenerateEncryptionKeys(p, w, saltBytes, privateKey, date).value;
      DecryptPrivateKey(p, w', u.encryptedPrivateKey, u.salt) == Ok(privateKey)
  {
  }
}
