/**
 * The compose store: the state of the mail being written, and the steps
 * that open it, edit it, save it as a draft and send it. Sending assembles
 * the envelope: one wrap of the content key per party, laid out
 * positionally as [sender, ...To, ...Cc], or, when some recipient has no
 * published key, no wraps at all and the content key in clear.
 */
module Compose {
  import opened Wrappers
  import opened Types
  import opened Text
  import opened Seqs
  import opened Eip712
  import opened Crypto
  import opened UserKeys
  import opened Auth
  import opened CryptoMail
  import opened SignMail

  const NoRecipientsMessage: string := "Please add at least one recipient."
  const SendFailedMessage: string := "Failed to send mail"

  datatype ComposeMode = New | Reply | Forward

  /** The first `|p|` characters of `s` are `p`, ignoring ASCII letter case (`p` is lower-case). */
  predicate StartsWithIgnoringCase(s: string, p: string) {
    |p| <= |s| && ToLower(s[..|p|]) == p
  }

  /** `/^re:/i`. */
  predicate IsReply(subject: string) {
    StartsWithIgnoringCase(subject, "re:")
  }

  /** `/^fwd?:/i`. */
  predicate IsForward(subject: string) {
    StartsWithIgnoringCase(subject, "fw:") || StartsWithIgnoringCase(subject, "fwd:")
  }

  function BuildReplySubject(subject: string): (r: string)
    ensures IsReply(subject) ==> r == subject
    ensures !IsReply(subject) ==> r == "Re: " + subject
    ensures IsReply(r)
  {
    if IsReply(subject) then subject
    else
      assert ("Re: " + subject)[..3] == "Re:";
      "Re: " + subject
  }

  function BuildForwardSubject(subject: string): (r: string)
    ensures IsForward(subject) ==> r == subject
    ensures !IsForward(subject) ==> r == "Fwd: " + subject
    ensures IsForward(r)
  {
    if IsForward(subject) then subject
    else
      assert ("Fwd: " + subject)[..4] == "Fwd:";
      "Fwd: " + subject
  }

  /** Replying to a reply does not stack prefixes. */
  lemma ReplySubjectIdempotent(subject: string)
    ensures BuildReplySubject(BuildReplySubject(subject)) == BuildReplySubject(subject)
  {
  }

  /** Forwarding a forward does not stack prefixes. */
  lemma ForwardSubjectIdempotent(subject: string)
    ensures BuildForwardSubject(BuildForwardSubject(subject)) == BuildForwardSubject(subject)
  {
  }

  /** `buildFrom`: the ENS name, or failing that the account address, at the mail domain. */
  function BuildFrom(user: UserInfo): (from: PersonItem)
    ensures from.name == (if user.ensName != "" then user.ensName else user.address)
    ensures '@' !in from.name ==> LocalPart(from.address) == from.name
  {
    var name := if user.ensName != "" then user.ensName else user.address;
    var from := PersonItem(name, name + "@" + EmailDomain);
    if '@' !in name then LocalPartOfConcat(name, EmailDomain); from else from
  }

  /**
   * A sender whose name is lower-case and has no '@' finds their own
   * wrapped key at the `from` position when reading what they sent.
   */
  lemma SenderMatchesOwnFrom(user: UserInfo)
    requires '@' !in BuildFrom(user).name && IsLower(BuildFrom(user).name)
    ensures MatchesUser(BuildFrom(user).address, user.address, user.ensName)
  {
    ToLowerOfLower(BuildFrom(user).name);
  }

  /** `buildDraftMetaHeader`, given the sender's private key: one self-wrap and the sender's own public key. */
  function BuildDraftMetaHeader(p: Primitives, randomBits: string, privateKey: string, user: UserInfo): (h: MetaHeader)
    ensures h.encryptedKeys.Some? && |h.encryptedKeys.value| == 1
    ensures h.publicKeys == Some([user.publicKey])
  {
    MetaHeader(Some([EncryptMailKey(p, randomBits, privateKey, user.publicKey)]), Some([user.publicKey]))
  }

  /**
   * A draft's single wrap, unwrapped at index 0 with the owner's private key
   * and the public key stored beside it, gives the draft's content key back.
   */
  lemma DraftSelfWrapRoundTrip(p: Primitives, randomBits: string, privateKey: string, user: UserInfo)
    requires Axioms(p) && user.publicKey == p.publicOf(privateKey)
    ensures var h := BuildDraftMetaHeader(p, randomBits, privateKey, user);
      DecryptMailKey(p, h.encryptedKeys.value[0], privateKey, h.publicKeys.value[0]) == Ok(randomBits)
  {
    MailKeyRoundTrip(p, randomBits, privateKey, privateKey);
  }

  /** The body as stored: encrypted with the content key, or absent ("") when empty. */
  function EncryptedBody(p: Primitives, body: string, randomBits: string): string {
    if body != "" then EncryptMailContent(p, body, randomBits) else ""
  }

  datatype ComposeAttachment = ComposeAttachment(
    attachmentId: string,
    filename: string,
    size: int,
    contentType: string,
    uploading: bool,
    encryptedSha256: string,
    plainSha256: string)

  /** An attachment of a reopened draft, already uploaded. */
  function FromAttachmentItem(a: AttachmentItem): ComposeAttachment {
    ComposeAttachment(a.attachmentId, a.filename, a.size, a.contentType, false, a.encryptedSha256, a.plainSha256)
  }

  /** The compose store's fields. */
  datatype ComposeView = ComposeView(
    isOpen: bool,
    mode: ComposeMode,
    messageId: string,
    inReplyTo: string,
    references: seq<string>,
    mailTo: seq<PersonItem>,
    mailCc: seq<PersonItem>,
    mailBcc: seq<PersonItem>,
    subject: string,
    bodyText: string,
    randomBits: string,
    attachments: seq<ComposeAttachment>,
    sending: bool,
    saving: bool,
    sendError: Option<string>,
    isDirty: bool,
    lastSavedAt: Option<string>)

  /** A freshly opened editor: nothing attached, no flags set, nothing saved. */
  predicate IsFreshlyOpened(v: ComposeView) {
    && v.isOpen && v.messageId == "" && v.attachments == []
    && !v.sending && !v.saving && v.sendError.None? && !v.isDirty && v.lastSavedAt.None?
  }

  /**
   * `openCompose`, given the Base64 text of fresh random bytes. Reply mode
   * needs the original mail; without it the editor opens blank.
   */
  function OpenComposeSpec(user: Option<UserInfo>, mode: ComposeMode, original: Option<MailDetail>, randomBase64: string): (v: ComposeView)
    ensures IsFreshlyOpened(v) && v.mailCc == [] && v.mailBcc == []
    ensures v.randomBits == GenerateRandomBits(if user.Some? then user.value.address else "", randomBase64)
    ensures mode == Reply && original.Some? ==>
      var m := original.value.item;
      && v.mode == Reply
      && v.mailTo == [if m.replyTo.Some? then m.replyTo.value else m.mailFrom]
      && v.inReplyTo == m.messageId
      && v.references == OrEmpty(m.mailReference) + [m.messageId]
      && v.subject == BuildReplySubject(m.subject)
      && v.bodyText == ""
    ensures mode == Forward && original.Some? ==>
      && v.mode == Forward && v.mailTo == [] && v.inReplyTo == "" && v.references == []
      && v.subject == BuildForwardSubject(original.value.item.subject)
      && v.bodyText == original.value.partText
    ensures mode == New || original.None? ==>
      v.mode == New && v.mailTo == [] && v.inReplyTo == "" && v.references == [] && v.subject == "" && v.bodyText == ""
  {
    var rb := GenerateRandomBits(if user.Some? then user.value.address else "", randomBase64);
    var blank := ComposeView(true, New, "", "", [], [], [], [], "", "", rb, [], false, false, None, false, None);
    if mode == Reply && original.Some? then
      var m := original.value.item;
      blank.(mode := Reply, inReplyTo := m.messageId, references := OrEmpty(m.mailReference) + [m.messageId],
             mailTo := [if m.replyTo.Some? then m.replyTo.value else m.mailFrom], subject := BuildReplySubject(m.subject))
    else if mode == Forward && original.Some? then
      blank.(mode := Forward, subject := BuildForwardSubject(original.value.item.subject), bodyText := original.value.partText)
    else blank
  }

  /**
   * The content key a draft's header yields: none ("") for a draft without
   * keys, else the unwrap at index 0 of both arrays.
   */
  function RecoverDraftKey(p: Primitives, w: Wallet, a: AuthView, hasWindow: bool, mail: MailDetail): (r: Result<string, Failure>)
    ensures !HasKeys(mail.item) ==> r == Ok("")
  {
    if !HasKeys(mail.item) then Ok("")
    else
      var privateKey :- ResolvePrivateKey(p, w, a, hasWindow);
      DecryptMailKey(p, WrappedKeys(mail.item).value[0], privateKey, PublicKeys(mail.item).value[0])
  }

  /**
   * The editor `openDraft` shows for a draft whose key came out as
   * `recovered`: a fresh key only when none was recovered, and the body
   * decrypted only when the draft carries keys.
   */
  function DraftViewSpec(p: Primitives, user: UserInfo, mail: MailDetail, recovered: string, randomBase64: string): (v: ComposeView)
    ensures v.isOpen && v.mode == New && v.messageId == mail.item.messageId
    ensures !v.sending && !v.saving && v.sendError.None? && !v.isDirty && v.lastSavedAt.None?
    ensures v.randomBits == if recovered != "" then recovered else GenerateRandomBits(user.address, randomBase64)
    ensures v.mailTo == OrEmpty(mail.item.mailTo) && v.mailCc == OrEmpty(mail.item.mailCc) && v.mailBcc == OrEmpty(mail.item.mailBcc)
    ensures |v.attachments| == |OrEmpty(mail.attachments)|
  {
    var body := if HasKeys(mail.item) && mail.partText != "" then DecryptMailContent(p, mail.partText, recovered) else "";
    var rb := if recovered != "" then recovered else GenerateRandomBits(user.address, randomBase64);
    var attachments := Map(FromAttachmentItem, OrEmpty(mail.attachments));
    assert |attachments| == |OrEmpty(mail.attachments)|;
    ComposeView(true, New, mail.item.messageId, mail.item.inReplyTo, OrEmpty(mail.item.mailReference),
      OrEmpty(mail.item.mailTo), OrEmpty(mail.item.mailCc), OrEmpty(mail.item.mailBcc), mail.item.subject,
      body, rb, attachments, false, false, None, false, None)
  }

  /** What a draft save (and the first step of sending) uploads. */
  datatype DraftRequest = DraftRequest(
    mailId: Option<string>,
    mailFrom: PersonItem,
    mailTo: seq<PersonItem>,
    mailCc: seq<PersonItem>,
    mailBcc: seq<PersonItem>,
    subject: string,
    partText: string,
    partHtml: string,
    metaType: MetaMailType,
    metaHeader: MetaHeader,
    inReplyTo: string)

  /** The draft upload for the editor state `v`, with the sender's private key. */
  function DraftRequestOf(p: Primitives, v: ComposeView, user: UserInfo, privateKey: string): (d: DraftRequest)
    ensures d.metaType == MetaMailType.Encrypted && d.partHtml == ""
    ensures d.mailId.Some? <==> v.messageId != ""
    ensures d.metaHeader == BuildDraftMetaHeader(p, v.randomBits, privateKey, user)
    ensures d.mailFrom == BuildFrom(user) && d.mailTo == v.mailTo && d.mailCc == v.mailCc && d.mailBcc == v.mailBcc
    ensures d.partText == EncryptedBody(p, v.bodyText, v.randomBits)
  {
    DraftRequest(if v.messageId != "" then Some(v.messageId) else None, BuildFrom(user),
      v.mailTo, v.mailCc, v.mailBcc, v.subject, EncryptedBody(p, v.bodyText, v.randomBits), "",
      MetaMailType.Encrypted, BuildDraftMetaHeader(p, v.randomBits, privateKey, user), v.inReplyTo)
  }

  /**
   * A saved draft, stored and returned as uploaded, reopens with the same
   * content key and the same body, for the user whose key pair it was saved with.
   */
  lemma SavedDraftReopens(p: Primitives, w: Wallet, a: AuthView, hasWindow: bool, v: ComposeView, user: UserInfo,
                          mail: MailDetail, randomBase64: string)
    requires Axioms(p)
    requires ResolvePrivateKey(p, w, a, hasWindow).Ok?
    requires user.publicKey == p.publicOf(ResolvePrivateKey(p, w, a, hasWindow).value)
    requires v.randomBits != ""
    requires var d := DraftRequestOf(p, v, user, ResolvePrivateKey(p, w, a, hasWindow).value);
      mail.item.metaHeader == Some(d.metaHeader) && mail.partText == d.partText
    ensures RecoverDraftKey(p, w, a, hasWindow, mail) == Ok(v.randomBits)
    ensures DraftViewSpec(p, user, mail, v.randomBits, randomBase64).randomBits == v.randomBits
    ensures DraftViewSpec(p, user, mail, v.randomBits, randomBase64).bodyText == v.bodyText
  {
    var privateKey := ResolvePrivateKey(p, w, a, hasWindow).value;
    DraftSelfWrapRoundTrip(p, v.randomBits, privateKey, user);
    MailContentRoundTrip(p, v.bodyText, v.randomBits);
  }

  /** The answer of the key directory for one account name. */
  datatype KeyLookup = KeyFound(publicKey: string) | KeyMissing | LookupFailed

  /** The server endpoints the compose store calls. */
  datatype MailApi = MailApi(
    createOrUpdateDraft: DraftRequest -> Result<string, Failure>,
    getEncryptionKey: string -> KeyLookup,
    sendMail: SendRequest -> Result<(), Failure>)

  /** What the final send uploads. */
  datatype SendRequest = SendRequest(
    messageId: string,
    date: string,
    signature: string,
    encryptedKeys: seq<string>,
    publicKeys: seq<string>,
    mailDecryptionKey: string)

  /**
   * The public key recorded for a recipient: the directory's key for the
   * text before the '@' (not lower-cased), or "" when it has none or the
   * lookup fails.
   */
  function RecipientKey(api: MailApi, recipient: PersonItem): string {
    match api.getEncryptionKey(LocalPart(recipient.address))
    case KeyFound(k) => k
    case _ => ""
  }

  /** The mail is encryptable when there are recipients and each has a key. */
  predicate Encryptable(api: MailApi, recipients: seq<PersonItem>) {
    |recipients| > 0 && forall i :: 0 <= i < |recipients| ==> RecipientKey(api, recipients[i]) != ""
  }

  /** The loop over To and Cc that fetches each recipient's key. */
  method CollectRecipientKeys(api: MailApi, recipients: seq<PersonItem>) returns (keys: seq<string>, encryptable: bool)
    ensures |keys| == |recipients|
    ensures forall i :: 0 <= i < |recipients| ==> keys[i] == RecipientKey(api, recipients[i])
    ensures encryptable == Encryptable(api, recipients)
  {
    keys := [];
    encryptable := |recipients| > 0;
    for i := 0 to |recipients|
      invariant |keys| == i
      invariant forall j :: 0 <= j < i ==> keys[j] == RecipientKey(api, recipients[j])
      invariant encryptable == (|recipients| > 0 && forall j :: 0 <= j < i ==> keys[j] != "")
    {
      match api.getEncryptionKey(LocalPart(recipients[i].address))
      case KeyFound(k) =>
        if k != "" {
          keys := keys + [k];
        } else {
          encryptable := false;
          keys := keys + [""];
        }
      case _ =>
        encryptable := false;
        keys := keys + [""];
    }
  }

  /** The loop that wraps the content key for every public key, in order. */
  method WrapForAll(p: Primitives, randomBits: string, senderPrivateKey: string, publicKeys: seq<string>)
    returns (wraps: seq<string>)
    ensures |wraps| == |publicKeys|
    ensures forall i :: 0 <= i < |publicKeys| ==> wraps[i] == EncryptMailKey(p, randomBits, senderPrivateKey, publicKeys[i])
  {
    wraps := [];
    for i := 0 to |publicKeys|
      invariant |wraps| == i
      invariant forall j :: 0 <= j < i ==> wraps[j] == EncryptMailKey(p, randomBits, senderPrivateKey, publicKeys[j])
    {
      wraps := wraps + [EncryptMailKey(p, randomBits, senderPrivateKey, publicKeys[i])];
    }
  }

  /** The key material of a sent mail. */
  datatype Envelope = Envelope(encryptedKeys: seq<string>, publicKeys: seq<string>, mailDecryptionKey: string)

  /**
   * The envelope of a mail to `recipients` (To then Cc) whose directory
   * keys are `recipientKeys`: the sender's public key first, then the
   * recipients' in order, each with its own wrap; or, when not encryptable,
   * no keys and the content key in clear.
   */
  function AssembleEnvelope(p: Primitives, randomBits: string, senderPrivateKey: string, senderPublicKey: string,
                            recipientKeys: seq<string>, encryptable: bool): (e: Envelope)
    ensures encryptable ==>
      && e.publicKeys == [senderPublicKey] + recipientKeys
      && |e.encryptedKeys| == |e.publicKeys|
      && (forall i :: 0 <= i < |e.publicKeys| ==> e.encryptedKeys[i] == EncryptMailKey(p, randomBits, senderPrivateKey, e.publicKeys[i]))
      && e.mailDecryptionKey == ""
    ensures !encryptable ==> e.encryptedKeys == [] && e.publicKeys == [] && e.mailDecryptionKey == randomBits
  {
    if encryptable then
      var all := [senderPublicKey] + recipientKeys;
      Envelope(Map((k: string) => EncryptMailKey(p, randomBits, senderPrivateKey, k), all), all, "")
    else Envelope([], [], randomBits)
  }

  /**
   * The text hashed for the signature: the stored ciphertext when the mail
   * is encryptable, the recovered plaintext otherwise.
   */
  function TextForHash(p: Primitives, encryptable: bool, encryptedText: string, randomBits: string): string {
    if encryptable then encryptedText
    else if encryptedText != "" then DecryptMailContent(p, encryptedText, randomBits)
    else ""
  }

  /** A mail sent in the clear is signed over its plaintext body. */
  lemma ClearMailHashesPlaintext(p: Primitives, body: string, randomBits: string)
    requires Axioms(p)
    ensures TextForHash(p, false, EncryptedBody(p, body, randomBits), randomBits) == body
  {
    if body != "" {
      MailContentRoundTrip(p, body, randomBits);
    }
  }

  /** `a > b` on strings: code-unit lexicographic order. */
  predicate StrLess(a: string, b: string) {
    if a == [] then b != []
    else if b == [] then false
    else if a[0] != b[0] then a[0] < b[0]
    else StrLess(a[1..], b[1..])
  }

  lemma {:induction false} StrLessAsymmetric(a: string, b: string)
    ensures StrLess(a, b) ==> !StrLess(b, a)
  {
    if a != [] && b != [] && a[0] == b[0] {
      StrLessAsymmetric(a[1..], b[1..]);
    }
  }

  /** Attachments in ascending `attachment_id` order. */
  predicate SortedById(s: seq<ComposeAttachment>) {
    forall i :: 0 <= i < |s| - 1 ==> !StrLess(s[i + 1].attachmentId, s[i].attachmentId)
  }

  /** Inserts `x` before the first entry whose id is not below its own. */
  function InsertById(x: ComposeAttachment, s: seq<ComposeAttachment>): (r: seq<ComposeAttachment>)
    ensures |r| == |s| + 1 && multiset(r) == multiset(s) + multiset{x}
    ensures r[0] == x || (s != [] && r[0] == s[0])
  {
    if s == [] || !StrLess(s[0].attachmentId, x.attachmentId) then [x] + s
    else
      assert s == [s[0]] + s[1..];
      [s[0]] + InsertById(x, s[1..])
  }

  lemma {:induction false} InsertByIdSorted(x: ComposeAttachment, s: seq<ComposeAttachment>)
    requires SortedById(s)
    ensures SortedById(InsertById(x, s))
  {
    if s != [] && StrLess(s[0].attachmentId, x.attachmentId) {
      InsertByIdSorted(x, s[1..]);
      StrLessAsymmetric(s[0].attachmentId, x.attachmentId);
      var r := InsertById(x, s);
      assert r == [s[0]] + InsertById(x, s[1..]);
    }
  }

  /** `sort((a, b) => (a.attachment_id > b.attachment_id ? 1 : -1))`. */
  function SortById(s: seq<ComposeAttachment>): (r: seq<ComposeAttachment>)
    ensures |r| == |s| && multiset(r) == multiset(s)
  {
    if s == [] then []
    else
      assert s == [s[0]] + s[1..];
      InsertById(s[0], SortById(s[1..]))
  }

  lemma {:induction false} SortByIdSorted(s: seq<ComposeAttachment>)
    ensures SortedById(SortById(s))
  {
    if s != [] {
      SortByIdSorted(s[1..]);
      InsertByIdSorted(s[0], SortById(s[1..]));
    }
  }

  /** `filter((a) => a.attachment_id)`: the uploaded attachments, in order. */
  function Uploaded(s: seq<ComposeAttachment>): (r: seq<ComposeAttachment>)
    ensures forall i :: 0 <= i < |r| ==> r[i].attachmentId != ""
    ensures forall a :: a in r <==> a in s && a.attachmentId != ""
  {
    if s == [] then []
    else (if s[0].attachmentId != "" then [s[0]] else []) + Uploaded(s[1..])
  }

  function HashFor(a: ComposeAttachment, encryptable: bool): string {
    if encryptable then a.encryptedSha256 else a.plainSha256
  }

  /** The hash of each attachment for the mode, dropping absent ones. */
  function HashesOf(s: seq<ComposeAttachment>, encryptable: bool): (r: seq<string>)
    ensures |r| <= |s|
    ensures forall i :: 0 <= i < |r| ==> r[i] != ""
    ensures forall h :: h in r ==> exists a :: a in s && h == HashFor(a, encryptable)
  {
    if s == [] then []
    else
      var h := HashFor(s[0], encryptable);
      (if h != "" then [h] else []) + HashesOf(s[1..], encryptable)
  }

  /**
   * The attachment hashes a mail is signed over: of uploaded attachments
   * only, in ascending id order, encrypted or plain hash by mode.
   */
  function AttachmentHashes(atts: seq<ComposeAttachment>, encryptable: bool): (r: seq<string>)
    ensures forall i :: 0 <= i < |r| ==> r[i] != ""
    ensures forall h :: h in r ==> exists a :: a in atts && a.attachmentId != "" && h == HashFor(a, encryptable)
  {
    var sorted := SortById(Uploaded(atts));
    var r := HashesOf(sorted, encryptable);
    forall h | h in r
      ensures exists a :: a in atts && a.attachmentId != "" && h == HashFor(a, encryptable)
    {
      var a :| a in sorted && h == HashFor(a, encryptable);
      assert a in multiset(sorted);
      assert a in Uploaded(atts);
    }
    r
  }

  /**
   * The signed hashes come in the order the server sorts attachments in:
   * they are the hashes of the uploaded attachments rearranged in ascending
   * id order.
   */
  lemma AttachmentHashesInIdOrder(atts: seq<ComposeAttachment>, encryptable: bool)
    ensures exists s :: SortedById(s) && multiset(s) == multiset(Uploaded(atts))
                     && AttachmentHashes(atts, encryptable) == HashesOf(s, encryptable)
  {
    var s := SortById(Uploaded(atts));
    SortByIdSorted(Uploaded(atts));
    assert AttachmentHashes(atts, encryptable) == HashesOf(s, encryptable);
  }

  /** Every uploaded attachment with a hash for the mode contributes it. */
  lemma {:induction false} UploadedHashesIncluded(atts: seq<ComposeAttachment>, encryptable: bool, a: ComposeAttachment)
    requires a in atts && a.attachmentId != "" && HashFor(a, encryptable) != ""
    ensures HashFor(a, encryptable) in AttachmentHashes(atts, encryptable)
  {
    var sorted := SortById(Uploaded(atts));
    assert a in multiset(Uploaded(atts));
    assert a in sorted;
    HashInHashesOf(sorted, encryptable, a);
  }

  lemma {:induction false} HashInHashesOf(s: seq<ComposeAttachment>, encryptable: bool, a: ComposeAttachment)
    requires a in s && HashFor(a, encryptable) != ""
    ensures HashFor(a, encryptable) in HashesOf(s, encryptable)
  {
    if s[0] != a {
      HashInHashesOf(s[1..], encryptable, a);
    }
  }

  /**
   * The envelope a send produces for the editor state `v`: when every To
   * and Cc recipient has a key, slot 0 is the sender's and slot 1 + i the
   * i-th recipient's of To then Cc (no Bcc slot), each with its own wrap.
   */
  function EnvelopeFor(p: Primitives, api: MailApi, v: ComposeView, user: UserInfo, privateKey: string): (e: Envelope)
    ensures Encryptable(api, v.mailTo + v.mailCc) ==>
      && |e.publicKeys| == 1 + |v.mailTo| + |v.mailCc| == |e.encryptedKeys|
      && e.publicKeys[0] == user.publicKey
      && (forall i :: 0 <= i < |v.mailTo| + |v.mailCc| ==> e.publicKeys[1 + i] == RecipientKey(api, (v.mailTo + v.mailCc)[i]))
      && (forall i :: 0 <= i < |e.publicKeys| ==> e.encryptedKeys[i] == EncryptMailKey(p, v.randomBits, privateKey, e.publicKeys[i]))
      && e.mailDecryptionKey == ""
    ensures !Encryptable(api, v.mailTo + v.mailCc) ==> e == Envelope([], [], v.randomBits)
  {
    var recipients := v.mailTo + v.mailCc;
    AssembleEnvelope(p, v.randomBits, privateKey, user.publicKey,
      Map((r: PersonItem) => RecipientKey(api, r), recipients), Encryptable(api, recipients))
  }

  /** The parameters a send signs, for the editor state `v` and the resolved private key. */
  function SignParamsFor(p: Primitives, api: MailApi, v: ComposeView, user: UserInfo, privateKey: string, mailDate: string): SignMailParams {
    var recipients := v.mailTo + v.mailCc;
    var encryptable := Encryptable(api, recipients);
    var e := EnvelopeFor(p, api, v, user, privateKey);
    SignMailParams(BuildFrom(user), v.mailTo, v.mailCc, mailDate, v.subject,
      p.sha256Hex(TextForHash(p, encryptable, EncryptedBody(p, v.bodyText, v.randomBits), v.randomBits)),
      p.sha256Hex(""),
      AttachmentHashes(v.attachments, encryptable),
      e.encryptedKeys, e.publicKeys)
  }


  /** How a send attempt ended. */
  datatype SendOutcome = NotLoggedIn | NoRecipients | Delivered | Cancelled | SendFailed(message: string)

  /** The message a failed send shows: the error's own, or a fixed text. */
  function FailureText(f: Failure): string {
    if f.Failed? && f.message != "" then f.message else SendFailedMessage
  }

  /** The editor after a failed step: a wallet rejection is silent, any other failure is shown. */
  function AfterSendFailure(v: ComposeView, f: Failure): (r: ComposeView)
    ensures !r.sending
    ensures f.Rejected? ==> r.sendError == v.sendError
    ensures f.Failed? ==> r.sendError.Some? && r.sendError.value != ""
  {
    if f.Rejected? then v.(sending := false) else v.(sending := false, sendError := Some(FailureText(f)))
  }

  function OutcomeOf(f: Failure): SendOutcome {
    if f.Rejected? then Cancelled else SendFailed(FailureText(f))
  }

  /** One run of `sendMail`: how it ended, the draft and send uploads it made, and the editor after it. */
  datatype SendStep = SendStep(outcome: SendOutcome, saved: Option<DraftRequest>, sent: Option<SendRequest>, view: ComposeView)

  /** The settled facts of a send step: the outcome matches the error shown and whether the send went through. */
  predicate Settled(api: MailApi, s: SendStep) {
    && !s.view.sending
    && (s.outcome == Delivered <==> s.sent.Some? && api.sendMail(s.sent.value).Ok?)
    && (s.outcome == Delivered ==> !s.view.isOpen && s.view.sendError.None?)
    && (s.outcome == Cancelled ==> s.view.sendError.None?)
    && (s.outcome.SendFailed? ==> s.view.sendError == Some(s.outcome.message))
    && (s.outcome == Delivered || s.outcome == Cancelled || s.outcome.SendFailed?)
  }

  /** A step of the send that failed with `f` after uploading `saved` and `sent`. */
  function SendFailure(api: MailApi, v: ComposeView, f: Failure, saved: Option<DraftRequest>, sent: Option<SendRequest>): (s: SendStep)
    requires v.sendError.None?
    requires sent.Some? ==> api.sendMail(sent.value) == Err(f)
    ensures Settled(api, s) && s.saved == saved && s.sent == sent
  {
    SendStep(OutcomeOf(f), saved, sent, AfterSendFailure(v, f))
  }

  /** The final upload of a send. */
  function Deliver(api: MailApi, saved: ComposeView, draft: DraftRequest, request: SendRequest): (s: SendStep)
    requires saved.sendError.None?
    ensures Settled(api, s) && s.saved == Some(draft) && s.sent == Some(request)
    ensures s.view.messageId == saved.messageId
  {
    match api.sendMail(request)
    case Err(f) => SendFailure(api, saved, f, Some(draft), Some(request))
    case Ok(_) => SendStep(Delivered, Some(draft), Some(request), saved.(isOpen := false, sending := false))
  }

  /** The request a send uploads once signed. */
  function SendRequestFor(p: Primitives, api: MailApi, v: ComposeView, user: UserInfo, privateKey: string,
                          messageId: string, mailDate: string, signature: string): SendRequest {
    var e := EnvelopeFor(p, api, v, user, privateKey);
    SendRequest(messageId, mailDate, signature, e.encryptedKeys, e.publicKeys, e.mailDecryptionKey)
  }

  /** The steps of a send after the draft was saved as `messageId`: sign, then upload. */
  function SignAndDeliver(p: Primitives, w: Wallet, api: MailApi, v: ComposeView, saved: ComposeView, user: UserInfo,
                          privateKey: string, draft: DraftRequest, messageId: string, mailDate: string): (s: SendStep)
    requires saved.sendError.None?
    ensures Settled(api, s) && s.saved == Some(draft)
    ensures s.sent.Some? ==> (
      && s.view.messageId == saved.messageId
      && SignMailMessage(p, w, SignParamsFor(p, api, v, user, privateKey, mailDate)).Ok?
      && s.sent.value == SendRequestFor(p, api, v, user, privateKey, messageId, mailDate,
           SignMailMessage(p, w, SignParamsFor(p, api, v, user, privateKey, mailDate)).value))
  {
    match SignMailMessage(p, w, SignParamsFor(p, api, v, user, privateKey, mailDate))
    case Err(f) => SendFailure(api, saved, f, Some(draft), None)
    case Ok(signature) => Deliver(api, saved, draft, SendRequestFor(p, api, v, user, privateKey, messageId, mailDate, signature))
  }

  /**
   * `sendMail` from editor state `v` and auth state `a`, at time `mailDate`.
   * Without a user it throws before touching anything; with an empty To
   * list it only reports that; otherwise it saves the draft, resolves the
   * sender's key, signs and sends, and any failure ends it with the error
   * shown (a wallet rejection silently).
   */
  function SendSpec(p: Primitives, w: Wallet, api: MailApi, v: ComposeView, a: AuthView, hasWindow: bool, mailDate: string): (s: SendStep)
    ensures a.user.None? ==> s == SendStep(NotLoggedIn, None, None, v)
    ensures a.user.Some? && v.mailTo == [] ==> s == SendStep(NoRecipients, None, None, v.(sendError := Some(NoRecipientsMessage)))
    ensures a.user.Some? && v.mailTo != [] ==> Settled(api, s)
    ensures s.sent.Some? ==> s.saved.Some?
  {
    if a.user.None? then SendStep(NotLoggedIn, None, None, v)
    else if v.mailTo == [] then SendStep(NoRecipients, None, None, v.(sendError := Some(NoRecipientsMessage)))
    else SendStartedSpec(p, w, api, v, a, hasWindow, mailDate)
  }

  /** `sendMail` past its two checks: save the draft, then sign and deliver. */
  function SendStartedSpec(p: Primitives, w: Wallet, api: MailApi, v: ComposeView, a: AuthView, hasWindow: bool, mailDate: string): (s: SendStep)
    requires a.user.Some?
    ensures Settled(api, s)
    ensures s.sent.Some? ==> s.saved.Some?
  {
    var started := v.(sending := true, sendError := None);
    match ResolvePrivateKey(p, w, a, hasWindow)
    case Err(f) => SendFailure(api, started, f, None, None)
    case Ok(privateKey) =>
      var draft := DraftRequestOf(p, v, a.user.value, privateKey);
      match api.createOrUpdateDraft(draft)
      case Err(f) => SendFailure(api, started, f, Some(draft), None)
      case Ok(messageId) =>
        SignAndDeliver(p, w, api, v, started.(messageId := messageId), a.user.value, privateKey, draft, messageId, mailDate)
  }

  /**
   * What a send that reached the server uploaded: the draft and the
   * envelope built with the resolved private key, the signature over
   * exactly the parameters of that envelope, and the saved draft's id.
   */
  lemma SentRequestContents(p: Primitives, w: Wallet, api: MailApi, v: ComposeView, a: AuthView, hasWindow: bool, mailDate: string)
    requires SendSpec(p, w, api, v, a, hasWindow, mailDate).sent.Some?
    ensures a.user.Some? && ResolvePrivateKey(p, w, a, hasWindow).Ok?
    ensures var s := SendSpec(p, w, api, v, a, hasWindow, mailDate);
      var privateKey := ResolvePrivateKey(p, w, a, hasWindow).value;
      var e := EnvelopeFor(p, api, v, a.user.value, privateKey);
      && s.saved == Some(DraftRequestOf(p, v, a.user.value, privateKey))
      && api.createOrUpdateDraft(s.saved.value) == Ok(s.sent.value.messageId)
      && s.sent.value.messageId == s.view.messageId
      && s.sent.value.encryptedKeys == e.encryptedKeys
      && s.sent.value.publicKeys == e.publicKeys
      && s.sent.value.mailDecryptionKey == e.mailDecryptionKey
      && s.sent.value.date == mailDate
      && SignMailMessage(p, w, SignParamsFor(p, api, v, a.user.value, privateKey, mailDate)) == Ok(s.sent.value.signature)
  {
  }

  /** One run of `saveDraft`: its result, the upload it made, and the editor after it. */
  datatype SaveStep = SaveStep(result: Result<(), Failure>, request: Option<DraftRequest>, view: ComposeView)

  /**
   * The upload step of `saveDraft`, from the editor `started` (saving, no
   * error shown): a failure keeps the editor as it was; a success records
   * the server's id when it is new, clears the dirty flag and stamps the time.
   */
  function UploadDraftSpec(api: MailApi, started: ComposeView, draft: DraftRequest, now: string): (s: SaveStep)
    ensures s.request == Some(draft) && !s.view.saving
    ensures s.result.Ok? <==> api.createOrUpdateDraft(draft).Ok?
    ensures s.result.Err? ==> s.view == started.(saving := false)
    ensures s.result.Ok? ==> !s.view.isDirty && s.view.lastSavedAt == Some(now)
  {
    match api.createOrUpdateDraft(draft)
    case Err(f) => SaveStep(Err(f), Some(draft), started.(saving := false))
    case Ok(id) =>
      var named := if id != "" && id != started.messageId then started.(messageId := id) else started;
      SaveStep(Ok(()), Some(draft), named.(isDirty := false, lastSavedAt := Some(now), saving := false))
  }

  /**
   * `saveDraft` at time `now`: the draft is uploaded self-wrapped; only a
   * successful save clears the dirty flag, and `saving` ends false either way.
   */
  function SaveSpec(p: Primitives, w: Wallet, api: MailApi, v: ComposeView, a: AuthView, hasWindow: bool, now: string): (s: SaveStep)
    ensures a.user.None? ==> s == SaveStep(Err(Failed(NotLoggedInMessage)), None, v)
    ensures a.user.Some? ==> !s.view.saving && s.view.sendError.None?
    ensures s.result.Ok? ==> !s.view.isDirty && s.view.lastSavedAt == Some(now)
    ensures s.result.Err? ==> s.view == v || s.view == v.(saving := false, sendError := None)
    ensures s.result.Ok? ==> s.request.Some? && api.createOrUpdateDraft(s.request.value).Ok?
    ensures s.request.Some? ==>
      && a.user.Some? && ResolvePrivateKey(p, w, a, hasWindow).Ok?
      && s.request.value == DraftRequestOf(p, v, a.user.value, ResolvePrivateKey(p, w, a, hasWindow).value)
  {
    if a.user.None? then SaveStep(Err(Failed(NotLoggedInMessage)), None, v)
    else
      var started := v.(saving := true, sendError := None);
      match ResolvePrivateKey(p, w, a, hasWindow)
      case Err(f) => SaveStep(Err(f), None, started.(saving := false))
      case Ok(privateKey) => UploadDraftSpec(api, started, DraftRequestOf(p, v, a.user.value, privateKey), now)
  }

  /**
   * `openDraft`: without a user it throws; a failure to recover the draft's
   * key leaves the editor as it was; otherwise the draft is shown.
   */
  function OpenDraftSpec(p: Primitives, w: Wallet, v: ComposeView, a: AuthView, hasWindow: bool, mail: MailDetail, randomBase64: string)
    : (r: (Result<(), Failure>, ComposeView))
    ensures a.user.None? ==> r == (Err(Failed(NotLoggedInMessage)), v)
    ensures r.0.Err? ==> r.1 == v
    ensures r.0.Ok? ==>
      && a.user.Some? && RecoverDraftKey(p, w, a, hasWindow, mail).Ok?
      && r.1 == DraftViewSpec(p, a.user.value, mail, RecoverDraftKey(p, w, a, hasWindow, mail).value, randomBase64)
  {
    if a.user.None? then (Err(Failed(NotLoggedInMessage)), v)
    else match RecoverDraftKey(p, w, a, hasWindow, mail)
      case Err(f) => (Err(f), v)
      case Ok(recovered) => (Ok(()), DraftViewSpec(p, a.user.value, mail, recovered, randomBase64))
  }

  /** Whether `openDraft` asks for the private key (and may so fill the cache). */
  predicate OpenDraftResolves(a: AuthView, mail: MailDetail) {
    a.user.Some? && HasKeys(mail.item)
  }
}
