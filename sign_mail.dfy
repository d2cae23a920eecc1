/**
 * The typed-data message a sender signs when sending: the parties as
 * display strings, the content hashes, and one SHA-256 hash per wrapped key
 * and per public key of the envelope. Bcc recipients have no field here.
 */
module SignMail {
  import opened Wrappers
  import opened Types
  import opened Seqs
  import opened Eip712
  import opened Crypto
  import opened UserKeys

  /** `concatAddress`: `name <address>`, with an absent name rendered as "". */
  function ConcatAddress(person: PersonItem): (r: string)
    ensures |r| == |person.name| + |person.address| + 3
    ensures r[..|person.name|] == person.name
    ensures r[|person.name|..|person.name| + 2] == " <"
    ensures r[|person.name| + 2..|r| - 1] == person.address && r[|r| - 1] == '>'
  {
    person.name + " <" + person.address + ">"
  }

  /** What the sender asks to be signed. */
  datatype SignMailParams = SignMailParams(
    from: PersonItem,
    to: seq<PersonItem>,
    cc: seq<PersonItem>,
    date: string,
    subject: string,
    textHash: string,
    htmlHash: string,
    attachmentHashes: seq<string>,
    encryptedEncryptionKeys: seq<string>,
    encryptionPublicKeys: seq<string>)

  /** The `Sign_Mail` message built from the parameters. */
  function MailMessageOf(p: Primitives, params: SignMailParams): (m: TypedMessage)
    ensures m.MailMessage?
    ensures m.from == ConcatAddress(params.from)
    ensures |m.to| == |params.to| && forall i :: 0 <= i < |m.to| ==> m.to[i] == ConcatAddress(params.to[i])
    ensures |m.cc| == |params.cc| && forall i :: 0 <= i < |m.cc| ==> m.cc[i] == ConcatAddress(params.cc[i])
    ensures m.date == params.date && m.subject == params.subject
    ensures m.textHash == params.textHash && m.htmlHash == params.htmlHash
    ensures m.attachmentHashes == params.attachmentHashes
    ensures |m.encryptedKeyHashes| == |params.encryptedEncryptionKeys|
    ensures forall i :: 0 <= i < |m.encryptedKeyHashes| ==> m.encryptedKeyHashes[i] == p.sha256Hex(params.encryptedEncryptionKeys[i])
    ensures |m.publicKeyHashes| == |params.encryptionPublicKeys|
    ensures forall i :: 0 <= i < |m.publicKeyHashes| ==> m.publicKeyHashes[i] == p.sha256Hex(params.encryptionPublicKeys[i])
  {
    MailMessage(
      ConcatAddress(params.from),
      Map(ConcatAddress, params.to),
      Map(ConcatAddress, params.cc),
      params.date,
      params.subject,
      params.textHash,
      params.htmlHash,
      params.attachmentHashes,
      Map(p.sha256Hex, params.encryptedEncryptionKeys),
      Map(p.sha256Hex, params.encryptionPublicKeys))
  }

  /**
   * `signMailMessage`: without a connected account it fails before hashing
   * anything; otherwise the wallet signs the message under the MetaMail
   * domain as `Sign_Mail`.
   */
  function SignMailMessage(p: Primitives, w: Wallet, params: SignMailParams): (r: Result<string, Failure>)
    ensures w.account.None? ==> r == Err(Failed(NoAccountMessage))
    ensures w.account.Some? ==>
      r == w.signTypedData(TypedData(w.account.value, MetaMailDomain, MailSchema, "Sign_Mail", MailMessageOf(p, params)))
  {
    SignTypedData(w, MailSchema, MailMessageOf(p, params))
  }
}
