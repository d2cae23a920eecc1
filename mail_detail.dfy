/**
 * The mail detail view (`mail-detail.tsx`): how an opened mail is decrypted,
 * which content it shows, and when its attachments may be downloaded. The
 * view keeps its own copy of the reader's key lookup, which it runs a second
 * time after `decryptMail` succeeded in order to keep the content key for
 * attachment downloads.
 */
module MailDetailView {
  import opened Wrappers
  import opened Types
  import opened Text
  import opened Eip712
  import opened Crypto
  import opened Bytes
  import opened Auth
  import opened CryptoMail
  import opened SignMail
  import opened Compose
  import opened Protocol

  const DecryptFailedMessage: string := "Failed to decrypt mail"

  /** `formatAddress`: "name <address>" when the name is non-empty, else the bare address. */
  function FormatAddress(person: PersonItem): (r: string)
    ensures person.name != "" ==> r == ConcatAddress(person)
    ensures person.name == "" ==> r == person.address
  {
    if person.name != "" then person.name + " <" + person.address + ">" else person.address
  }

  /**
   * The header line and the signed rendering differ exactly for a nameless
   * person, whom the signed data shows as " <address>".
   */
  lemma FormatAddressIsSignedForm(person: PersonItem)
    ensures FormatAddress(person) == ConcatAddress(person) <==> person.name != ""
  {
    if person.name == "" {
      assert |ConcatAddress(person)| == |person.address| + 3;
    }
  }

  /** The view's own match test: the lower-cased text before the first '@' is the user's address or ENS name. */
  predicate DetailMatches(address: string, user: UserInfo) {
    var prefix := ToLower(LocalPart(address));
    prefix == user.address || prefix == user.ensName
  }

  /** `findIndex` as the language defines it: positions are tried from `k` upwards; -1 when none matches. */
  function ScanFrom(addresses: seq<string>, user: UserInfo, k: nat): (idx: int)
    requires k <= |addresses|
    ensures idx == -1 || k <= idx < |addresses|
    ensures idx >= 0 ==> DetailMatches(addresses[idx], user)
    ensures idx >= 0 ==> forall j :: k <= j < idx ==> !DetailMatches(addresses[j], user)
    ensures idx == -1 <==> forall j :: k <= j < |addresses| ==> !DetailMatches(addresses[j], user)
    decreases |addresses| - k
  {
    if k == |addresses| then -1
    else if DetailMatches(addresses[k], user) then k
    else ScanFrom(addresses, user, k + 1)
  }

  /** The view's address list, [from, ...to, ...cc, ...bcc], and its key index. */
  function DetailAddressList(mail: MailItem): seq<string> {
    [mail.mailFrom.address] + Seqs.Map(Address, OrEmpty(mail.mailTo)) + Seqs.Map(Address, OrEmpty(mail.mailCc))
      + Seqs.Map(Address, OrEmpty(mail.mailBcc))
  }

  function DetailKeyIndex(mail: MailItem, user: UserInfo): int {
    ScanFrom(DetailAddressList(mail), user, 0)
  }

  /** The view's copy of the lookup finds the same slot as `findUserKeyIndex`. */
  lemma DetailIndexAgrees(mail: MailItem, user: UserInfo)
    ensures DetailKeyIndex(mail, user) == FindUserKeyIndex(mail, user.address, user.ensName)
  {
    assert DetailAddressList(mail) == AddressList(mail);
  }

  /** The component's state. `None` stands for `null`. */
  datatype DetailState = DetailState(
    decryptedHtml: Option<string>,
    decryptedText: Option<string>,
    decryptedRandomBits: Option<string>,
    decrypting: bool,
    decryptError: Option<string>,
    downloadingId: Option<string>)

  function InitialState(): DetailState {
    DetailState(None, None, None, false, None, None)
  }

  predicate IsEncrypted(mail: MailDetail) {
    mail.item.metaType == MetaMailType.Encrypted
  }

  /** A JavaScript string is truthy when present and non-empty. */
  predicate Truthy(s: Option<string>) {
    s.Some? && s.value != ""
  }

  /** The error a thrown failure leaves: none for a wallet rejection, else its message or a fallback. */
  function ErrorText(f: Failure): (e: Option<string>)
    ensures f.Rejected? <==> e.None?
    ensures e.Some? ==> e.value != ""
  {
    match f
    case Rejected => None
    case Failed(m) => Some(if m != "" then m else DecryptFailedMessage)
  }

  /** The `catch` and `finally` of `handleDecrypt`. */
  function Caught(s: DetailState, f: Failure): DetailState {
    s.(decryptError := ErrorText(f), decrypting := false)
  }

  /**
   * The handler's second pass: with a user and both key arrays, resolve the
   * private key again, look the reader up with the view's own index and,
   * when the slot exists, unwrap it against the first public key. `Ok(None)`
   * when the pass keeps no key.
   */
  function RederivedKey(p: Primitives, w: Wallet, mail: MailItem, a: AuthView, hasWindow: bool): Result<Option<string>, Failure>
    requires HasKeys(mail)
  {
    if a.user.None? || WrappedKeys(mail).None? || PublicKeys(mail).None? then Ok(None)
    else
      var privateKey :- ResolvePrivateKey(p, w, a, hasWindow);
      var keys := WrappedKeys(mail).value;
      var idx := DetailKeyIndex(mail, a.user.value);
      if 0 <= idx < |keys| then
        var randomBits :- DecryptMailKey(p, keys[idx], privateKey, PublicKeys(mail).value[0]);
        Ok(Some(randomBits))
      else Ok(None)
  }

  /**
   * `handleDecrypt`: nothing without a mail and a wallet; otherwise
   * `decryptMail`, then the decrypted parts are shown, then the second pass
   * keeps the content key; a failure at either stage is caught.
   */
  function HandleDecryptSpec(p: Primitives, wallet: Option<Wallet>, mail: Option<MailDetail>, a: AuthView,
                             hasWindow: bool, s: DetailState): (r: DetailState)
    ensures mail.None? || wallet.None? ==> r == s
    ensures mail.Some? && wallet.Some? ==> !r.decrypting && r.downloadingId == s.downloadingId
  {
    if mail.None? || wallet.None? then s
    else
      var started := s.(decrypting := true, decryptError := None);
      match DecryptMailSpec(p, wallet.value, mail.value, a, hasWindow)
      case Err(f) => Caught(started, f)
      case Ok(parts) =>
        var shown := started.(decryptedHtml := Some(parts.html), decryptedText := Some(parts.text));
        match RederivedKey(p, wallet.value, mail.value.item, ResolveEffect(p, wallet.value, a, hasWindow), hasWindow)
        case Err(f) => Caught(shown, f)
        case Ok(None) => shown.(decrypting := false)
        case Ok(Some(randomBits)) => shown.(decryptedRandomBits := Some(randomBits), decrypting := false)
  }

  /**
   * After a successful `decryptMail` the second pass always keeps a key,
   * and it is the content key `decryptMail` used: the shown parts are what
   * that key decrypts, and no error is left.
   */
  lemma DecryptKeepsContentKey(p: Primitives, w: Wallet, mail: MailDetail, a: AuthView, hasWindow: bool, s: DetailState)
    requires DecryptMailSpec(p, w, mail, a, hasWindow).Ok?
    ensures var r := HandleDecryptSpec(p, Some(w), Some(mail), a, hasWindow, s);
      && r.decryptedRandomBits == Some(MailContentKey(p, w, mail.item, a, hasWindow).value)
      && r.decryptedHtml.Some? && r.decryptedText.Some?
      && DecryptParts(p, mail, r.decryptedRandomBits.value) == DecryptedParts(r.decryptedHtml.value, r.decryptedText.value)
      && r.decryptError.None? && !r.decrypting
  {
    var a1 := ResolveEffect(p, w, a, hasWindow);
    assert a.user.Some? && HasKeys(mail.item);
    ResolveAgain(p, w, a, hasWindow);
    assert a1.user == a.user;
    DetailIndexAgrees(mail.item, a.user.value);
    assert RederivedKey(p, w, mail.item, a1, hasWindow) == Ok(Some(MailContentKey(p, w, mail.item, a, hasWindow).value));
  }

  /**
   * A failed `decryptMail` changes no content: parts and key stay as they
   * were, and the error is the failure's text (none for a wallet rejection).
   */
  lemma FailureKeepsContent(p: Primitives, w: Wallet, mail: MailDetail, a: AuthView, hasWindow: bool, s: DetailState)
    requires DecryptMailSpec(p, w, mail, a, hasWindow).Err?
    ensures var r := HandleDecryptSpec(p, Some(w), Some(mail), a, hasWindow, s);
      && r.decryptedHtml == s.decryptedHtml && r.decryptedText == s.decryptedText
      && r.decryptedRandomBits == s.decryptedRandomBits
      && r.decryptError == ErrorText(MailContentKey(p, w, mail.item, a, hasWindow).error)
      && (MailContentKey(p, w, mail.item, a, hasWindow).error.Rejected? ==> r.decryptError.None?)
  {
  }

  /**
   * The kept key changes only when both key arrays are non-empty, the
   * reader's slot exists, and the wrap in it was unwrapped against the
   * first public key.
   */
  lemma KeyKeptOnlyFromOwnSlot(p: Primitives, w: Wallet, mail: MailDetail, a: AuthView, hasWindow: bool, s: DetailState)
    requires HandleDecryptSpec(p, Some(w), Some(mail), a, hasWindow, s).decryptedRandomBits != s.decryptedRandomBits
    ensures a.user.Some? && HasKeys(mail.item)
    ensures var idx := FindUserKeyIndex(mail.item, a.user.value.address, a.user.value.ensName);
      && 0 <= idx < |WrappedKeys(mail.item).value|
      && ResolvePrivateKey(p, w, a, hasWindow).Ok?
      && HandleDecryptSpec(p, Some(w), Some(mail), a, hasWindow, s).decryptedRandomBits
         == Some(DecryptMailKey(p, WrappedKeys(mail.item).value[idx], ResolvePrivateKey(p, w, a, hasWindow).value,
                                PublicKeys(mail.item).value[0]).value)
  {
    if DecryptMailSpec(p, w, mail, a, hasWindow).Ok? {
      DecryptKeepsContentKey(p, w, mail, a, hasWindow, s);
    }
  }

  /** `hasCachedKey`: the cache returns something, even an empty string. */
  predicate HasCachedKey(a: AuthView, hasWindow: bool) {
    CachedKey(a, hasWindow).Some?
  }

  /** The auto-decrypt effect's condition. */
  predicate AutoDecrypts(mail: Option<MailDetail>, s: DetailState, hasCachedKey: bool, walletPresent: bool) {
    && mail.Some? && IsEncrypted(mail.value)
    && s.decryptedHtml.None? && s.decryptedText.None? && !s.decrypting
    && hasCachedKey && walletPresent
  }

  /**
   * Decryption started on its own with a non-empty cached key never asks
   * the wallet: any two wallets give the same state and leave the store as
   * it was.
   */
  lemma AutoDecryptNeedsNoSignature(p: Primitives, w: Wallet, w': Wallet, mail: MailDetail, a: AuthView,
                                    hasWindow: bool, s: DetailState)
    requires AutoDecrypts(Some(mail), s, HasCachedKey(a, hasWindow), true)
    requires CachedKey(a, hasWindow).value != ""
    ensures HandleDecryptSpec(p, Some(w), Some(mail), a, hasWindow, s)
         == HandleDecryptSpec(p, Some(w'), Some(mail), a, hasWindow, s)
    ensures ResolveEffect(p, w, a, hasWindow) == a
  {
    CacheHitNeedsNoSignature(p, w, w', a, hasWindow);
    assert MailContentKey(p, w, mail.item, a, hasWindow) == MailContentKey(p, w', mail.item, a, hasWindow);
    if HasKeys(mail.item) {
      assert RederivedKey(p, w, mail.item, a, hasWindow) == RederivedKey(p, w', mail.item, a, hasWindow);
    }
  }

  /** What the body shows: the decrypted parts for an encrypted mail, the stored parts otherwise. */
  function DisplayHtml(mail: MailDetail, s: DetailState): Option<string> {
    if IsEncrypted(mail) then s.decryptedHtml else Some(mail.partHtml)
  }

  function DisplayText(mail: MailDetail, s: DetailState): Option<string> {
    if IsEncrypted(mail) then s.decryptedText else Some(mail.partText)
  }

  predicate NeedsDecryption(mail: MailDetail, s: DetailState) {
    IsEncrypted(mail) && s.decryptedHtml.None? && s.decryptedText.None? && !s.decrypting
  }

  /** The download button is disabled while that attachment downloads, and for an encrypted mail until its key is kept. */
  predicate DownloadDisabled(mail: MailDetail, s: DetailState, attachmentId: string) {
    s.downloadingId == Some(attachmentId) || (IsEncrypted(mail) && !Truthy(s.decryptedRandomBits))
  }

  /** The bytes a download yields: decrypted with the kept key for an encrypted mail, else the fetched bytes. */
  function DownloadedFile(p: Primitives, mail: MailDetail, s: DetailState, fetched: seq<byte>): Result<seq<byte>, Failure> {
    if IsEncrypted(mail) && Truthy(s.decryptedRandomBits) then DecryptedAttachment(p, fetched, s.decryptedRandomBits.value)
    else Ok(fetched)
  }

  /**
   * The state the view starts from, or returns to when another mail is
   * opened, shows nothing of an encrypted mail, asks for decryption, and
   * lets no attachment of it be downloaded.
   */
  lemma ResetShowsNoCiphertext(mail: MailDetail, s: DetailState, attachmentId: string)
    requires IsEncrypted(mail)
    requires s.decryptedHtml.None? && s.decryptedText.None? && s.decryptedRandomBits.None?
    ensures DisplayHtml(mail, s).None? && DisplayText(mail, s).None?
    ensures NeedsDecryption(mail, s) <==> !s.decrypting
    ensures DownloadDisabled(mail, s, attachmentId)
  {
  }

  /** A plain mail shows its stored parts and downloads its files as fetched, whatever the state. */
  lemma PlainMailUnaffected(p: Primitives, mail: MailDetail, s: DetailState, fetched: seq<byte>)
    requires !IsEncrypted(mail)
    ensures DisplayHtml(mail, s) == Some(mail.partHtml) && DisplayText(mail, s) == Some(mail.partText)
    ensures !NeedsDecryption(mail, s)
    ensures DownloadedFile(p, mail, s, fetched) == Ok(fetched)
  {
  }

  /**
   * End to end: a reader at an agreeing slot (as in `ReaderRecoversMail`)
   * who opens the mail sees the sender's text, may download every
   * attachment not already downloading, and gets each uploaded file back.
   */
  lemma ReaderSeesBodyAndFiles(p: Primitives, w: Wallet, api: MailApi, v: ComposeView, a: AuthView, hasWindow: bool,
                               mailDate: string, base: MailItem, reader: Wallet, r: AuthView, readerHasWindow: bool,
                               s: DetailState, file: seq<byte>, attachmentId: string)
    requires Axioms(p)
    requires SendSpec(p, w, api, v, a, hasWindow, mailDate).sent.Some?
    requires a.user.Some? && ResolvePrivateKey(p, w, a, hasWindow).Ok?
    requires a.user.value.publicKey == p.publicOf(ResolvePrivateKey(p, w, a, hasWindow).value)
    requires r.user.Some? && ResolvePrivateKey(p, reader, r, readerHasWindow).Ok?
    requires var snd := SendSpec(p, w, api, v, a, hasWindow, mailDate);
      var idx := FindUserKeyIndex(ReceivedMail(base, snd.saved.value, snd.sent.value).item, r.user.value.address, r.user.value.ensName);
      && 0 <= idx < |snd.sent.value.publicKeys|
      && snd.sent.value.publicKeys[idx] == p.publicOf(ResolvePrivateKey(p, reader, r, readerHasWindow).value)
    requires v.randomBits != ""
    requires s.downloadingId != Some(attachmentId)
    ensures var snd := SendSpec(p, w, api, v, a, hasWindow, mailDate);
      var mail := ReceivedMail(base, snd.saved.value, snd.sent.value);
      var after := HandleDecryptSpec(p, Some(reader), Some(mail), r, readerHasWindow, s);
      && DisplayText(mail, after) == Some(v.bodyText)
      && !DownloadDisabled(mail, after, attachmentId)
      && DownloadedFile(p, mail, after, EncryptedAttachment(p, file, v.randomBits)) == Ok(file)
  {
    ReaderRecoversMail(p, w, api, v, a, hasWindow, mailDate, base, reader, r, readerHasWindow);
    var snd := SendSpec(p, w, api, v, a, hasWindow, mailDate);
    var mail := ReceivedMail(base, snd.saved.value, snd.sent.value);
    DecryptKeepsContentKey(p, reader, mail, r, readerHasWindow, s);
    AttachmentRoundTrip(p, file, v.randomBits);
  }

  class DetailView {
    var decryptedHtml: Option<string>
    var decryptedText: Option<string>
    var decryptedRandomBits: Option<string>
    var decrypting: bool
    var decryptError: Option<string>
    var downloadingId: Option<string>

    function View(): DetailState
      reads this
    {
      DetailState(decryptedHtml, decryptedText, decryptedRandomBits, decrypting, decryptError, downloadingId)
    }

    constructor ()
      ensures View() == InitialState()
    {
      decryptedHtml, decryptedText, decryptedRandomBits := None, None, None;
      decrypting, decryptError, downloadingId := false, None, None;
    }

    /** The reset effect run when another mail is opened. */
    method ResetForMail()
      modifies this
      ensures View() == old(View()).(decryptedHtml := None, decryptedText := None, decryptedRandomBits := None,
                                     decryptError := None)
    {
      decryptedHtml, decryptedText, decryptedRandomBits, decryptError := None, None, None, None;
    }

    method Catch(f: Failure)
      modifies this
      ensures View() == Caught(old(View()), f)
    {
      decryptError := ErrorText(f);
      decrypting := false;
    }

    /** `handleDecrypt`, against the auth store. */
    method HandleDecrypt(p: Primitives, wallet: Option<Wallet>, mail: Option<MailDetail>, auth: AuthStore)
      modifies this, auth
      ensures View() == HandleDecryptSpec(p, wallet, mail, old(auth.View()), auth.hasWindow, old(View()))
      ensures auth.View() == if mail.Some? && wallet.Some? && ReachesKeyResolution(mail.value, old(auth.View()))
        then ResolveEffect(p, wallet.value, old(auth.View()), auth.hasWindow) else old(auth.View())
    {
      if mail.None? || wallet.None? {
        return;
      }
      var m, w := mail.value, wallet.value;
      decrypting, decryptError := true, None;
      var a0 := auth.View();
      var result := DecryptMail(p, w, m, auth);
      if result.Err? {
        Catch(result.error);
        return;
      }
      decryptedHtml, decryptedText := Some(result.value.html), Some(result.value.text);
      ResolveAgain(p, w, a0, auth.hasWindow);
      var kept := SecondPass(p, w, m.item, auth);
      match kept
      case Err(f) =>
        Catch(f);
      case Ok(None) =>
        decrypting := false;
      case Ok(Some(randomBits)) =>
        decryptedRandomBits := Some(randomBits);
        decrypting := false;
    }

    /** `handleDownloadAttachment`, given the bytes fetched from the attachment's URL. */
    method HandleDownloadAttachment(p: Primitives, mail: MailDetail, attachmentId: string, fetched: seq<byte>)
      returns (r: Result<seq<byte>, Failure>)
      modifies this
      ensures r == DownloadedFile(p, mail, old(View()), fetched)
      ensures View() == old(View()).(downloadingId := None)
    {
      downloadingId := Some(attachmentId);
      if IsEncrypted(mail) && decryptedRandomBits.Some? && decryptedRandomBits.value != "" {
        r := DecryptAttachment(p, fetched, decryptedRandomBits.value);
      } else {
        r := Ok(fetched);
      }
      downloadingId := None;
    }
  }

  /** The second pass of `handleDecrypt`, against the auth store. */
  method SecondPass(p: Primitives, w: Wallet, mail: MailItem, auth: AuthStore) returns (r: Result<Option<string>, Failure>)
    requires HasKeys(mail)
    modifies auth
    ensures r == RederivedKey(p, w, mail, old(auth.View()), auth.hasWindow)
    ensures auth.View() == if auth.user.Some? then ResolveEffect(p, w, old(auth.View()), auth.hasWindow) else old(auth.View())
  {
    var user := auth.user;
    var keys, publicKeys := WrappedKeys(mail), PublicKeys(mail);
    if user.None? || keys.None? || publicKeys.None? {
      return Ok(None);
    }
    var privateKey := GetOrDecryptPrivateKey(p, w, auth);
    if privateKey.Err? {
      return Err(privateKey.error);
    }
    var idx := DetailKeyIndex(mail, user.value);
    if 0 <= idx < |keys.value| {
      var randomBits := DecryptMailKey(p, keys.value[idx], privateKey.value, publicKeys.value[0]);
      if randomBits.Err? {
        return Err(randomBits.error);
      }
      return Ok(Some(randomBits.value));
    }
    return Ok(None);
  }
}
