/**
 * The envelope protocol end to end: what a reader's client makes of a mail
 * that a sender's client sent. The sender lays the wraps out as
 * [sender, ...To, ...Cc]; the reader looks for their own wrap at their
 * position in [from, ...To, ...Cc, ...Bcc]. The lemmas here show where the
 * two layouts agree, that a reader at an agreeing slot recovers the content
 * key and the body, and where they part: a Bcc reader, and a mail sent
 * with its key in clear.
 *
 * How the server turns the draft and the send request into the stored mail
 * is not part of the client; `ReceivedMail` assumes it stores the draft's
 * parties and body and the send request's key arrays unchanged.
 */
module Protocol {
  import opened Wrappers
  import opened Types
  import opened Text
  import opened Seqs
  import opened Eip712
  import opened Crypto
  import opened Auth
  import opened CryptoMail
  import opened Compose

  /** The mail as a reader fetches it, built from the saved draft and the send request over `base`'s other fields. */
  function ReceivedMail(base: MailItem, draft: DraftRequest, request: SendRequest): (m: MailDetail)
    ensures m.item.mailFrom == draft.mailFrom && m.partText == draft.partText
    ensures WrappedKeys(m.item) == Some(request.encryptedKeys) && PublicKeys(m.item) == Some(request.publicKeys)
  {
    var item := base.(mailFrom := draft.mailFrom, mailTo := Some(draft.mailTo), mailCc := Some(draft.mailCc),
      mailBcc := Some(draft.mailBcc), subject := draft.subject, metaType := MetaMailType.Encrypted,
      metaHeader := Some(MetaHeader(Some(request.encryptedKeys), Some(request.publicKeys))));
    MailDetail(item, draft.partText, draft.partHtml, None)
  }

  /**
   * Where the layouts agree: in a mail sent encrypted, slot 0 holds the
   * sender's key and stands at the `from` address, and slot k >= 1 holds the
   * key looked up for the (k-1)-th To/Cc recipient and stands at that
   * recipient's address. The reader's list is longer by exactly the Bcc
   * recipients, who have no slot.
   */
  lemma {:induction false} SlotsAlign(p: Primitives, w: Wallet, api: MailApi, v: ComposeView, a: AuthView, hasWindow: bool,
                                      mailDate: string, base: MailItem)
    requires SendSpec(p, w, api, v, a, hasWindow, mailDate).sent.Some?
    requires Encryptable(api, v.mailTo + v.mailCc)
    ensures var s := SendSpec(p, w, api, v, a, hasWindow, mailDate);
      var keys := s.sent.value.publicKeys;
      var addresses := AddressList(ReceivedMail(base, s.saved.value, s.sent.value).item);
      && |addresses| == |keys| + |v.mailBcc|
      && |s.sent.value.encryptedKeys| == |keys|
      && addresses[0] == BuildFrom(a.user.value).address && keys[0] == a.user.value.publicKey
      && forall k :: 1 <= k < |keys| ==>
           addresses[k] == (v.mailTo + v.mailCc)[k - 1].address
           && keys[k] == RecipientKey(api, (v.mailTo + v.mailCc)[k - 1])
  {
    SentRequestContents(p, w, api, v, a, hasWindow, mailDate);
    var s := SendSpec(p, w, api, v, a, hasWindow, mailDate);
    ReceivedSlotsAlign(p, api, v, a.user.value, ResolvePrivateKey(p, w, a, hasWindow).value, s.saved.value, s.sent.value, base);
  }

  /** The alignment above, for the saved draft and the send request themselves. */
  lemma ReceivedSlotsAlign(p: Primitives, api: MailApi, v: ComposeView, user: UserInfo, privateKey: string,
                           draft: DraftRequest, request: SendRequest, base: MailItem)
    requires Encryptable(api, v.mailTo + v.mailCc)
    requires draft == DraftRequestOf(p, v, user, privateKey)
    requires request.publicKeys == EnvelopeFor(p, api, v, user, privateKey).publicKeys
    requires request.encryptedKeys == EnvelopeFor(p, api, v, user, privateKey).encryptedKeys
    ensures var keys := request.publicKeys;
      var addresses := AddressList(ReceivedMail(base, draft, request).item);
      && |addresses| == |keys| + |v.mailBcc|
      && |request.encryptedKeys| == |keys|
      && addresses[0] == BuildFrom(user).address && keys[0] == user.publicKey
      && forall k :: 1 <= k < |keys| ==>
           addresses[k] == (v.mailTo + v.mailCc)[k - 1].address
           && keys[k] == RecipientKey(api, (v.mailTo + v.mailCc)[k - 1])
  {
    var e := EnvelopeFor(p, api, v, user, privateKey);
    var item := ReceivedMail(base, draft, request).item;
    assert OrEmpty(item.mailTo) == v.mailTo && OrEmpty(item.mailCc) == v.mailCc && OrEmpty(item.mailBcc) == v.mailBcc;
    LayoutsAlign(api, v, user, e, AddressList(item));
  }

  /** The alignment above, for the address list of a mail with the editor's parties and the envelope `e`. */
  lemma LayoutsAlign(api: MailApi, v: ComposeView, user: UserInfo, e: Envelope, addresses: seq<string>)
    requires Encryptable(api, v.mailTo + v.mailCc)
    requires |e.publicKeys| == 1 + |v.mailTo| + |v.mailCc|
    requires e.publicKeys[0] == user.publicKey
    requires forall i :: 0 <= i < |v.mailTo| + |v.mailCc| ==> e.publicKeys[1 + i] == RecipientKey(api, (v.mailTo + v.mailCc)[i])
    requires |addresses| == 1 + |v.mailTo| + |v.mailCc| + |v.mailBcc|
    requires forall i :: 0 <= i < |v.mailTo| ==> addresses[1 + i] == v.mailTo[i].address
    requires forall i :: 0 <= i < |v.mailCc| ==> addresses[1 + |v.mailTo| + i] == v.mailCc[i].address
    ensures forall k :: 1 <= k < |e.publicKeys| ==>
      addresses[k] == (v.mailTo + v.mailCc)[k - 1].address && e.publicKeys[k] == RecipientKey(api, (v.mailTo + v.mailCc)[k - 1])
  {
    var recipients := v.mailTo + v.mailCc;
    forall k | 1 <= k < |e.publicKeys|
      ensures addresses[k] == recipients[k - 1].address && e.publicKeys[k] == RecipientKey(api, recipients[k - 1])
    {
      assert e.publicKeys[1 + (k - 1)] == RecipientKey(api, recipients[k - 1]);
      if k - 1 < |v.mailTo| {
        assert addresses[1 + (k - 1)] == v.mailTo[k - 1].address;
      } else {
        assert addresses[1 + |v.mailTo| + (k - 1 - |v.mailTo|)] == v.mailCc[k - 1 - |v.mailTo|].address;
      }
    }
  }

  /**
   * A reader recovers the content key and the body: when the reader's
   * position in the address list is a slot of the envelope and that slot
   * holds the public key of the reader's private key, and the sender's
   * registered public key is that of the key they wrapped with.
   */
  lemma ReaderRecoversMail(p: Primitives, w: Wallet, api: MailApi, v: ComposeView, a: AuthView, hasWindow: bool,
                           mailDate: string, base: MailItem, reader: Wallet, r: AuthView, readerHasWindow: bool)
    requires Axioms(p)
    requires SendSpec(p, w, api, v, a, hasWindow, mailDate).sent.Some?
    requires a.user.Some? && ResolvePrivateKey(p, w, a, hasWindow).Ok?
    requires a.user.value.publicKey == p.publicOf(ResolvePrivateKey(p, w, a, hasWindow).value)
    requires r.user.Some? && ResolvePrivateKey(p, reader, r, readerHasWindow).Ok?
    requires var s := SendSpec(p, w, api, v, a, hasWindow, mailDate);
      var idx := FindUserKeyIndex(ReceivedMail(base, s.saved.value, s.sent.value).item, r.user.value.address, r.user.value.ensName);
      && 0 <= idx < |s.sent.value.publicKeys|
      && s.sent.value.publicKeys[idx] == p.publicOf(ResolvePrivateKey(p, reader, r, readerHasWindow).value)
    ensures var s := SendSpec(p, w, api, v, a, hasWindow, mailDate);
      var mail := ReceivedMail(base, s.saved.value, s.sent.value);
      && MailContentKey(p, reader, mail.item, r, readerHasWindow) == Ok(v.randomBits)
      && DecryptMailSpec(p, reader, mail, r, readerHasWindow).Ok?
      && DecryptMailSpec(p, reader, mail, r, readerHasWindow).value.text == v.bodyText
  {
    SentRequestContents(p, w, api, v, a, hasWindow, mailDate);
    var s := SendSpec(p, w, api, v, a, hasWindow, mailDate);
    var mail := ReceivedMail(base, s.saved.value, s.sent.value);
    var senderKey := ResolvePrivateKey(p, w, a, hasWindow).value;
    var readerKey := ResolvePrivateKey(p, reader, r, readerHasWindow).value;
    var e := EnvelopeFor(p, api, v, a.user.value, senderKey);
    var idx := FindUserKeyIndex(mail.item, r.user.value.address, r.user.value.ensName);
    // A non-empty key array means the mail went out encrypted.
    assert Encryptable(api, v.mailTo + v.mailCc);
    assert e.encryptedKeys[idx] == EncryptMailKey(p, v.randomBits, senderKey, p.publicOf(readerKey));
    MailKeyRoundTrip(p, v.randomBits, senderKey, readerKey);
    assert HasKeys(mail.item);
    if v.bodyText != "" {
      MailContentRoundTrip(p, v.bodyText, v.randomBits);
    }
  }

  /**
   * Where the layouts part: a reader who appears only among the Bcc
   * recipients (no match at the sender's or any To/Cc position) is told
   * that no key exists for them, although the send succeeded.
   */
  lemma BccReaderFindsNoKey(p: Primitives, w: Wallet, api: MailApi, v: ComposeView, a: AuthView, hasWindow: bool,
                            mailDate: string, base: MailItem, reader: Wallet, r: AuthView, readerHasWindow: bool)
    requires SendSpec(p, w, api, v, a, hasWindow, mailDate).sent.Some?
    requires r.user.Some?
    requires var s := SendSpec(p, w, api, v, a, hasWindow, mailDate);
      var addresses := AddressList(ReceivedMail(base, s.saved.value, s.sent.value).item);
      forall k :: 0 <= k < 1 + |v.mailTo| + |v.mailCc| ==> !MatchesUser(addresses[k], r.user.value.address, r.user.value.ensName)
    ensures var s := SendSpec(p, w, api, v, a, hasWindow, mailDate);
      var mail := ReceivedMail(base, s.saved.value, s.sent.value);
      MailContentKey(p, reader, mail.item, r, readerHasWindow) == Err(Failed(
        if HasKeys(mail.item) then NoKeyForUserMessage else MissingKeysMessage))
  {
    SentRequestContents(p, w, api, v, a, hasWindow, mailDate);
    var s := SendSpec(p, w, api, v, a, hasWindow, mailDate);
    var item := ReceivedMail(base, s.saved.value, s.sent.value).item;
    var addresses := AddressList(item);
    var idx := FindUserKeyIndex(item, r.user.value.address, r.user.value.ensName);
    assert idx == -1 || idx >= 1 + |v.mailTo| + |v.mailCc|;
    assert |OrEmpty(WrappedKeys(item))| <= 1 + |v.mailTo| + |v.mailCc|;
  }

  /**
   * A mail sent with its content key in clear (some To or Cc recipient has
   * no published key) carries no wraps, so every signed-in reader's
   * `decryptMail` stops at the missing-keys check: the client has no path
   * that uses the clear key.
   */
  lemma ClearKeyMailIsUnreadable(p: Primitives, w: Wallet, api: MailApi, v: ComposeView, a: AuthView, hasWindow: bool,
                                 mailDate: string, base: MailItem, reader: Wallet, r: AuthView, readerHasWindow: bool)
    requires SendSpec(p, w, api, v, a, hasWindow, mailDate).sent.Some?
    requires !Encryptable(api, v.mailTo + v.mailCc)
    requires r.user.Some?
    ensures var s := SendSpec(p, w, api, v, a, hasWindow, mailDate);
      && s.sent.value.mailDecryptionKey == v.randomBits
      && MailContentKey(p, reader, ReceivedMail(base, s.saved.value, s.sent.value).item, r, readerHasWindow)
         == Err(Failed(MissingKeysMessage))
  {
    SentRequestContents(p, w, api, v, a, hasWindow, mailDate);
  }
}
