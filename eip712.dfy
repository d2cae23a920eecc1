/**
 * EIP-712 typed data as the client builds it: the signing domain, the three
 * message schemas, the messages themselves, and the wallet that signs them.
 */
module Eip712 {
  import opened Wrappers
  import opened Types

  datatype Domain = Domain(name: string, version: string)

  /** The domain every signature of the client is made under. */
  const MetaMailDomain: Domain := Domain("MetaMail", "1.0.0")

  datatype TypeField = TypeField(name: string, typ: string)

  /** A `types` record with its single primary type. */
  datatype Schema = Schema(primaryType: string, fields: seq<TypeField>)

  const SaltSchema: Schema := Schema("Sign_Salt", [TypeField("hint", "string"), TypeField("salt", "string")])

  const KeyDataSchema: Schema := Schema("Sign_KeyData", [
    TypeField("date", "string"), TypeField("salt", "string"),
    TypeField("keys_hash", "string"), TypeField("keys_meta", "string")])

  const MailSchema: Schema := Schema("Sign_Mail", [
    TypeField("from", "string"), TypeField("to", "string[]"), TypeField("cc", "string[]"),
    TypeField("date", "string"), TypeField("subject", "string"),
    TypeField("text_hash", "string"), TypeField("html_hash", "string"),
    TypeField("attachment_hashes", "string[]"),
    TypeField("encrypted_encryption_key_hashes", "string[]"),
    TypeField("encryption_public_key_hashes", "string[]")])

  /** The message objects the client signs, one constructor per schema. */
  datatype TypedMessage =
    | SaltMessage(salt: string, hint: string)
    | KeyDataMessage(date: string, salt: string, keysHash: string, keysMeta: string)
    | MailMessage(
        from: string,
        to: seq<string>,
        cc: seq<string>,
        date: string,
        subject: string,
        textHash: string,
        htmlHash: string,
        attachmentHashes: seq<string>,
        encryptedKeyHashes: seq<string>,
        publicKeyHashes: seq<string>)

  /** The argument of `signTypedData`. */
  datatype TypedData = TypedData(
    account: string,
    domain: Domain,
    types: Schema,
    primaryType: string,
    message: TypedMessage)

  /**
   * A wallet client: the connected account, if any, and its signing call,
   * which either yields a signature or fails (for example when the user
   * rejects the request). Being a function, it signs the same data the same way.
   */
  datatype Wallet = Wallet(account: Option<string>, signTypedData: TypedData -> Result<string, Failure>)

  /** A wallet user's refusal, which the views treat as a silent cancel. */
  predicate IsRejection(f: Failure) {
    f.Rejected?
  }
}
