/**
 * The compose store as the object the editor mutates: one field per piece
 * of editor state, and the actions that open, edit, save and send the mail
 * being written. Each action is proved to leave the store in the state the
 * matching specification in `Compose` describes.
 */
module ComposeStore {
  import opened Wrappers
  import opened Types
  import opened Seqs
  import opened Eip712
  import opened Crypto
  import opened Auth
  import opened CryptoMail
  import opened SignMail
  import opened Compose

  class ComposeStore {
    var isOpen: bool
    var mode: ComposeMode
    var messageId: string
    var inReplyTo: string
    var references: seq<string>
    var mailTo: seq<PersonItem>
    var mailCc: seq<PersonItem>
    var mailBcc: seq<PersonItem>
    var subject: string
    var bodyText: string
    var randomBits: string
    var attachments: seq<ComposeAttachment>
    var sending: bool
    var saving: bool
    var sendError: Option<string>
    var isDirty: bool
    var lastSavedAt: Option<string>

    function View(): ComposeView
      reads this
    {
      ComposeView(isOpen, mode, messageId, inReplyTo, references, mailTo, mailCc, mailBcc, subject, bodyText,
        randomBits, attachments, sending, saving, sendError, isDirty, lastSavedAt)
    }

    /** Writes a whole editor state into the fields. */
    method SetView(v: ComposeView)
      modifies this
      ensures View() == v
    {
      SetThread(v);
      SetParties(v);
      SetBody(v);
      SetFlags(v);
    }

    /** Writes the editor's mode and the thread it belongs to. */
    method SetThread(v: ComposeView)
      modifies this
      ensures View() == old(View()).(isOpen := v.isOpen, mode := v.mode, messageId := v.messageId,
                                      inReplyTo := v.inReplyTo, references := v.references)
    {
      isOpen, mode, messageId, inReplyTo, references := v.isOpen, v.mode, v.messageId, v.inReplyTo, v.references;
    }

    /** Writes the recipients and the subject. */
    method SetParties(v: ComposeView)
      modifies this
      ensures View() == old(View()).(mailTo := v.mailTo, mailCc := v.mailCc, mailBcc := v.mailBcc, subject := v.subject)
    {
      mailTo, mailCc, mailBcc, subject := v.mailTo, v.mailCc, v.mailBcc, v.subject;
    }

    /** Writes the body, its content key and the attachments. */
    method SetBody(v: ComposeView)
      modifies this
      ensures View() == old(View()).(bodyText := v.bodyText, randomBits := v.randomBits, attachments := v.attachments)
    {
      bodyText, randomBits, attachments := v.bodyText, v.randomBits, v.attachments;
    }

    /** Writes the status flags. */
    method SetFlags(v: ComposeView)
      modifies this
      ensures View() == old(View()).(sending := v.sending, saving := v.saving, sendError := v.sendError,
                                      isDirty := v.isDirty, lastSavedAt := v.lastSavedAt)
    {
      sending, saving, sendError, isDirty, lastSavedAt := v.sending, v.saving, v.sendError, v.isDirty, v.lastSavedAt;
    }

    /** The closed, empty editor the store starts as. */
    constructor ()
      ensures View() == ComposeView(false, New, "", "", [], [], [], [], "", "", "", [], false, false, None, false, None)
    {
      isOpen, mode, messageId, inReplyTo, references := false, New, "", "", [];
      mailTo, mailCc, mailBcc, subject, bodyText := [], [], [], "", "";
      randomBits, attachments, sending, saving := "", [], false, false;
      sendError, isDirty, lastSavedAt := None, false, None;
    }

    /** `openCompose`, with `randomBase64` standing for the fresh random bytes. */
    method OpenCompose(auth: AuthStore, mode: ComposeMode, original: Option<MailDetail>, randomBase64: string)
      modifies this
      ensures View() == OpenComposeSpec(auth.user, mode, original, randomBase64)
    {
      var addr := if auth.user.Some? then auth.user.value.address else "";
      var rb := GenerateRandomBits(addr, randomBase64);
      if mode == Reply && original.Some? {
        var m := original.value.item;
        var replyTo := if m.replyTo.Some? then m.replyTo.value else m.mailFrom;
        SetView(ComposeView(true, Reply, "", m.messageId, OrEmpty(m.mailReference) + [m.messageId], [replyTo], [], [],
          BuildReplySubject(m.subject), "", rb, [], false, false, None, false, None));
      } else if mode == Forward && original.Some? {
        SetView(ComposeView(true, Forward, "", "", [], [], [], [], BuildForwardSubject(original.value.item.subject),
          original.value.partText, rb, [], false, false, None, false, None));
      } else {
        SetView(ComposeView(true, New, "", "", [], [], [], [], "", "", rb, [], false, false, None, false, None));
      }
    }

    /**
     * `openDraft`: recovers the draft's content key through the sender's
     * own wrap (which may ask the wallet for the private key), then shows
     * the draft; on any failure the editor is left as it was.
     */
    method OpenDraft(p: Primitives, w: Wallet, auth: AuthStore, mail: MailDetail, randomBase64: string)
      returns (r: Result<(), Failure>)
      modifies this, auth
      ensures (r, View()) == OpenDraftSpec(p, w, old(View()), old(auth.View()), auth.hasWindow, mail, randomBase64)
      ensures auth.View() == if OpenDraftResolves(old(auth.View()), mail)
        then ResolveEffect(p, w, old(auth.View()), auth.hasWindow) else old(auth.View())
    {
      if auth.user.None? {
        return Err(Failed(NotLoggedInMessage));
      }
      var user := auth.user.value;
      var body := "";
      var rb := "";
      if HasKeys(mail.item) {
        var resolved := GetOrDecryptPrivateKey(p, w, auth);
        if resolved.Err? {
          return Err(resolved.error);
        }
        var unwrapped := DecryptMailKey(p, WrappedKeys(mail.item).value[0], resolved.value, PublicKeys(mail.item).value[0]);
        if unwrapped.Err? {
          return Err(unwrapped.error);
        }
        rb := unwrapped.value;
        if mail.partText != "" {
          body := DecryptMailContent(p, mail.partText, rb);
        }
      }
      if rb == "" {
        rb := GenerateRandomBits(user.address, randomBase64);
      }
      SetView(ComposeView(true, New, mail.item.messageId, mail.item.inReplyTo, OrEmpty(mail.item.mailReference),
        OrEmpty(mail.item.mailTo), OrEmpty(mail.item.mailCc), OrEmpty(mail.item.mailBcc), mail.item.subject,
        body, rb, Map(FromAttachmentItem, OrEmpty(mail.attachments)), false, false, None, false, None));
      r := Ok(());
    }

    /** `closeCompose`, apart from its best-effort save: the editor closes and keeps its contents. */
    method CloseCompose()
      modifies this
      ensures View() == old(View()).(isOpen := false)
    {
      isOpen := false;
    }

    method SetMailTo(to: seq<PersonItem>)
      modifies this
      ensures View() == old(View()).(mailTo := to, isDirty := true)
    {
      mailTo, isDirty := to, true;
    }

    method SetMailCc(cc: seq<PersonItem>)
      modifies this
      ensures View() == old(View()).(mailCc := cc, isDirty := true)
    {
      mailCc, isDirty := cc, true;
    }

    method SetMailBcc(bcc: seq<PersonItem>)
      modifies this
      ensures View() == old(View()).(mailBcc := bcc, isDirty := true)
    {
      mailBcc, isDirty := bcc, true;
    }

    method SetSubject(s: string)
      modifies this
      ensures View() == old(View()).(subject := s, isDirty := true)
    {
      subject, isDirty := s, true;
    }

    method SetBodyText(text: string)
      modifies this
      ensures View() == old(View()).(bodyText := text, isDirty := true)
    {
      bodyText, isDirty := text, true;
    }

    /**
     * `removeAttachment`: drops the entry at `index` (nothing for an index
     * out of range) and, when it was uploaded to a saved draft, returns the
     * server deletion to issue as (draft id, attachment id).
     */
    method RemoveAttachment(index: int) returns (deletion: Option<(string, string)>)
      modifies this
      ensures View() == old(View()).(attachments := RemoveAt(old(attachments), index))
      ensures deletion.Some? <==>
        0 <= index < |old(attachments)| && old(attachments)[index].attachmentId != "" && old(messageId) != ""
      ensures deletion.Some? ==> deletion.value == (old(messageId), old(attachments)[index].attachmentId)
    {
      deletion := None;
      if 0 <= index < |attachments| && attachments[index].attachmentId != "" && messageId != "" {
        deletion := Some((messageId, attachments[index].attachmentId));
      }
      attachments := RemoveAt(attachments, index);
    }

    /** The editor after a failed send step. */
    method SettleFailure(f: Failure)
      modifies this
      ensures View() == AfterSendFailure(old(View()), f)
    {
      if f.Failed? {
        sendError := Some(FailureText(f));
      }
      sending := false;
    }

    /**
     * `saveDraft` at time `now`: uploads the self-wrapped draft and returns
     * the upload it made.
     */
    method SaveDraft(p: Primitives, w: Wallet, auth: AuthStore, api: MailApi, now: string)
      returns (r: Result<(), Failure>, request: Option<DraftRequest>)
      modifies this, auth
      ensures SaveStep(r, request, View()) == SaveSpec(p, w, api, old(View()), old(auth.View()), auth.hasWindow, now)
      ensures auth.View() == if old(auth.user).Some? then ResolveEffect(p, w, old(auth.View()), auth.hasWindow) else old(auth.View())
    {
      if auth.user.None? {
        return Err(Failed(NotLoggedInMessage)), None;
      }
      var state := View();
      var user := auth.user.value;
      saving, sendError := true, None;
      var resolved := GetOrDecryptPrivateKey(p, w, auth);
      if resolved.Err? {
        saving := false;
        return Err(resolved.error), None;
      }
      var draft := DraftRequest(if state.messageId != "" then Some(state.messageId) else None, BuildFrom(user),
        state.mailTo, state.mailCc, state.mailBcc, state.subject, EncryptedBody(p, state.bodyText, state.randomBits), "",
        MetaMailType.Encrypted, BuildDraftMetaHeader(p, state.randomBits, resolved.value, user), state.inReplyTo);
      assert draft == DraftRequestOf(p, state, user, resolved.value);
      r, request := UploadDraft(api, draft, now);
    }

    /** The upload step of `saveDraft`, from the editor with `saving` set. */
    method UploadDraft(api: MailApi, draft: DraftRequest, now: string) returns (r: Result<(), Failure>, request: Option<DraftRequest>)
      modifies this
      ensures SaveStep(r, request, View()) == UploadDraftSpec(api, old(View()), draft, now)
    {
      request := Some(draft);
      var res := api.createOrUpdateDraft(draft);
      if res.Err? {
        saving := false;
        return Err(res.error), request;
      }
      if res.value != "" && res.value != messageId {
        messageId := res.value;
      }
      isDirty, lastSavedAt := false, Some(now);
      saving := false;
      r := Ok(());
    }

    /**
     * `sendMail` at time `mailDate`: saves the draft, collects the
     * recipients' keys, wraps the content key for every party (or sends it
     * in clear), signs the message and uploads it. Returns how it ended and
     * the two uploads it made.
     */
    method SendMail(p: Primitives, w: Wallet, auth: AuthStore, api: MailApi, mailDate: string)
      returns (outcome: SendOutcome, saved: Option<DraftRequest>, sent: Option<SendRequest>)
      modifies this, auth
      ensures SendStep(outcome, saved, sent, View()) == SendSpec(p, w, api, old(View()), old(auth.View()), auth.hasWindow, mailDate)
      ensures auth.View() == if old(auth.user).Some? && old(mailTo) != []
        then ResolveEffect(p, w, old(auth.View()), auth.hasWindow) else old(auth.View())
    {
      saved, sent := None, None;
      if auth.user.None? {
        return NotLoggedIn, saved, sent;
      }
      if mailTo == [] {
        sendError := Some(NoRecipientsMessage);
        return NoRecipients, saved, sent;
      }
      var state := View();
      sending, sendError := true, None;
      outcome, saved, sent := SaveThenSend(p, w, auth, api, state, mailDate);
    }

    /** `sendMail` past its checks, from the editor with `sending` set: save the draft, then sign and send. */
    method SaveThenSend(p: Primitives, w: Wallet, auth: AuthStore, api: MailApi, state: ComposeView, mailDate: string)
      returns (outcome: SendOutcome, saved: Option<DraftRequest>, sent: Option<SendRequest>)
      requires auth.user.Some? && View() == state.(sending := true, sendError := None)
      modifies this, auth
      ensures SendStep(outcome, saved, sent, View()) == SendStartedSpec(p, w, api, state, old(auth.View()), auth.hasWindow, mailDate)
      ensures auth.View() == ResolveEffect(p, w, old(auth.View()), auth.hasWindow)
    {
      var a0 := auth.View();
      var user := auth.user.value;
      var resolved := GetOrDecryptPrivateKey(p, w, auth);
      if resolved.Err? {
        SettleFailure(resolved.error);
        return OutcomeOf(resolved.error), None, None;
      }
      var draft := DraftRequest(if state.messageId != "" then Some(state.messageId) else None, BuildFrom(user),
        state.mailTo, state.mailCc, state.mailBcc, state.subject, EncryptedBody(p, state.bodyText, state.randomBits), "",
        MetaMailType.Encrypted, BuildDraftMetaHeader(p, state.randomBits, resolved.value, user), state.inReplyTo);
      assert draft == DraftRequestOf(p, state, user, resolved.value);
      saved := Some(draft);
      var draftRes := api.createOrUpdateDraft(draft);
      if draftRes.Err? {
        SettleFailure(draftRes.error);
        return OutcomeOf(draftRes.error), saved, None;
      }
      messageId := draftRes.value;
      ResolveAgain(p, w, a0, auth.hasWindow);
      outcome, sent := SignAndSend(p, w, auth, api, state, user, resolved.value, draft, draftRes.value, mailDate);
    }

    /**
     * The rest of `sendMail` once the draft is saved as `id`: build the
     * envelope, hash, sign, and upload.
     */
    method SignAndSend(p: Primitives, w: Wallet, auth: AuthStore, api: MailApi, state: ComposeView, user: UserInfo,
                       privateKey: string, draft: DraftRequest, id: string, mailDate: string)
      returns (outcome: SendOutcome, sent: Option<SendRequest>)
      requires sendError.None?
      requires ResolvePrivateKey(p, w, auth.View(), auth.hasWindow) == Ok(privateKey)
      requires ResolveEffect(p, w, auth.View(), auth.hasWindow) == auth.View()
      modifies this, auth
      ensures SendStep(outcome, Some(draft), sent, View()) ==
        SignAndDeliver(p, w, api, state, old(View()), user, privateKey, draft, id, mailDate)
      ensures auth.View() == old(auth.View())
    {
      var e, encryptable := BuildEnvelope(p, w, auth, api, state, user, privateKey);
      var encryptedText := EncryptedBody(p, state.bodyText, state.randomBits);
      var textForHash := if encryptable then encryptedText
        else if encryptedText != "" then DecryptMailContent(p, encryptedText, state.randomBits) else "";
      var params := SignMailParams(BuildFrom(user), state.mailTo, state.mailCc, mailDate, state.subject,
        p.sha256Hex(textForHash), p.sha256Hex(""), AttachmentHashes(state.attachments, encryptable),
        e.encryptedKeys, e.publicKeys);
      SignParamsMatch(p, api, state, user, privateKey, mailDate, e, encryptable);
      var signed := SignMailMessage(p, w, params);
      if signed.Err? {
        SettleFailure(signed.error);
        return OutcomeOf(signed.error), None;
      }
      var request := SendRequest(id, mailDate, signed.value, e.encryptedKeys, e.publicKeys, e.mailDecryptionKey);
      outcome, sent := DeliverMail(api, draft, request);
    }

    /** The final upload of `sendMail`: on success the editor closes. */
    method DeliverMail(api: MailApi, draft: DraftRequest, request: SendRequest) returns (outcome: SendOutcome, sent: Option<SendRequest>)
      requires sendError.None?
      modifies this
      ensures SendStep(outcome, Some(draft), sent, View()) == Deliver(api, old(View()), draft, request)
    {
      sent := Some(request);
      var res := api.sendMail(request);
      if res.Err? {
        SettleFailure(res.error);
        return OutcomeOf(res.error), sent;
      }
      isOpen, sending := false, false;
      outcome := Delivered;
    }
  }

  /** The parameters the send builds step by step are those `SignParamsFor` describes. */
  lemma SignParamsMatch(p: Primitives, api: MailApi, state: ComposeView, user: UserInfo, privateKey: string, mailDate: string,
                        e: Envelope, encryptable: bool)
    requires e == EnvelopeFor(p, api, state, user, privateKey)
    requires encryptable == Encryptable(api, state.mailTo + state.mailCc)
    ensures var encryptedText := EncryptedBody(p, state.bodyText, state.randomBits);
      var textForHash := if encryptable then encryptedText
        else if encryptedText != "" then DecryptMailContent(p, encryptedText, state.randomBits) else "";
      SignMailParams(BuildFrom(user), state.mailTo, state.mailCc, mailDate, state.subject,
        p.sha256Hex(textForHash), p.sha256Hex(""), AttachmentHashes(state.attachments, encryptable),
        e.encryptedKeys, e.publicKeys) == SignParamsFor(p, api, state, user, privateKey, mailDate)
  {
  }

  /**
   * The key material step of `sendMail`: one directory lookup per To and
   * Cc recipient, then, only when every one has a key, one wrap per party
   * with the sender's private key (resolved again, which is now free).
   */
  method BuildEnvelope(p: Primitives, w: Wallet, auth: AuthStore, api: MailApi, state: ComposeView, user: UserInfo,
                       privateKey: string)
    returns (e: Envelope, encryptable: bool)
    requires ResolvePrivateKey(p, w, auth.View(), auth.hasWindow) == Ok(privateKey)
    requires ResolveEffect(p, w, auth.View(), auth.hasWindow) == auth.View()
    modifies auth
    ensures e == EnvelopeFor(p, api, state, user, privateKey)
    ensures encryptable == Encryptable(api, state.mailTo + state.mailCc)
    ensures auth.View() == old(auth.View())
  {
    var recipientKeys;
    recipientKeys, encryptable := CollectRecipientKeys(api, state.mailTo + state.mailCc);
    var encryptedKeys: seq<string> := [];
    var publicKeys: seq<string> := [];
    var mailDecryptionKey := "";
    if encryptable {
      var senderPrivateKey := GetOrDecryptPrivateKey(p, w, auth);
      publicKeys := [user.publicKey] + recipientKeys;
      encryptedKeys := WrapForAll(p, state.randomBits, senderPrivateKey.value, publicKeys);
    } else {
      mailDecryptionKey := state.randomBits;
    }
    EnvelopeMatches(p, api, state, user, privateKey, recipientKeys, encryptable, encryptedKeys, publicKeys, mailDecryptionKey);
    e := Envelope(encryptedKeys, publicKeys, mailDecryptionKey);
  }

  /** The envelope the send loops build is the one `EnvelopeFor` describes. */
  lemma EnvelopeMatches(p: Primitives, api: MailApi, v: ComposeView, user: UserInfo, privateKey: string,
                        recipientKeys: seq<string>, encryptable: bool,
                        encryptedKeys: seq<string>, publicKeys: seq<string>, mailDecryptionKey: string)
    requires |recipientKeys| == |v.mailTo + v.mailCc|
    requires forall i :: 0 <= i < |recipientKeys| ==> recipientKeys[i] == RecipientKey(api, (v.mailTo + v.mailCc)[i])
    requires encryptable == Encryptable(api, v.mailTo + v.mailCc)
    requires encryptable ==> (
      && publicKeys == [user.publicKey] + recipientKeys && mailDecryptionKey == ""
      && |encryptedKeys| == |publicKeys|
      && forall i :: 0 <= i < |publicKeys| ==> encryptedKeys[i] == EncryptMailKey(p, v.randomBits, privateKey, publicKeys[i]))
    requires !encryptable ==> encryptedKeys == [] && publicKeys == [] && mailDecryptionKey == v.randomBits
    ensures EnvelopeFor(p, api, v, user, privateKey) == Envelope(encryptedKeys, publicKeys, mailDecryptionKey)
  {
    var e := EnvelopeFor(p, api, v, user, privateKey);
    if encryptable {
      assert e.publicKeys == publicKeys;
      assert e.encryptedKeys == encryptedKeys;
    }
  }
}
