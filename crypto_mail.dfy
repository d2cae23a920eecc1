/**
 * The mail-level crypto helpers: the per-mail content key, its wrapping for
 * each party with an ECDH-derived AES-GCM key, the encryption of bodies and
 * attachments under it, the reader's lookup of their wrapped key, and the
 * private-key cache that unwrapping goes through.
 */
module CryptoMail {
  import opened Wrappers
  import opened Types
  import opened Text
  import opened Seqs
  import opened Bytes
  import opened Eip712
  import opened Crypto
  import opened UserKeys
  import opened Auth

  const NotLoggedInMessage: string := "Not logged in"
  const MissingKeysMessage: string := "Mail is missing encryption keys"
  const NoKeyForUserMessage: string := "Cannot find encryption key for current user"

  /** The DOMException WebCrypto raises when AES-GCM authentication fails. */
  const UnwrapFailure: Failure := Failed("OperationError")

  /** The RangeError `new Uint8Array(n)` raises for a negative length. */
  const InvalidLengthFailure: Failure := Failed("Invalid typed array length")

  const KeyTextHead: string := "Encryption key of this mail from "
  const KeyTextMiddle: string := " is "

  /**
   * `generateRandomBits`, given the Base64 text of 32 fresh random bytes:
   * the content key is a sentence naming the sender and embedding the bytes.
   */
  function GenerateRandomBits(address: string, randomBase64: string): (rb: string)
    ensures StartsWith(rb, KeyTextHead + address + KeyTextMiddle)
    ensures |randomBase64| <= |rb| && rb[|rb| - |randomBase64|..] == randomBase64
  {
    KeyTextHead + address + KeyTextMiddle + randomBase64
  }

  /** Different random bytes give different content keys. */
  lemma RandomBitsInjective(address: string, r1: string, r2: string)
    ensures GenerateRandomBits(address, r1) == GenerateRandomBits(address, r2) ==> r1 == r2
  {
    var prefix := KeyTextHead + address + KeyTextMiddle;
    if GenerateRandomBits(address, r1) == GenerateRandomBits(address, r2) {
      assert r1 == GenerateRandomBits(address, r1)[|prefix|..];
      assert r2 == GenerateRandomBits(address, r2)[|prefix|..];
    }
  }

  /** `encryptMailKey`: AES-GCM under the key shared by sender and recipient. */
  function EncryptMailKey(p: Primitives, randomBits: string, senderPrivateKey: string, recipientPublicKey: string): string {
    p.gcmEncrypt(randomBits, p.derive(senderPrivateKey, recipientPublicKey))
  }

  /** `decryptMailKey`: fails when AES-GCM authentication fails. */
  function DecryptMailKey(p: Primitives, encryptedKey: string, privateKey: string, senderPublicKey: string): (r: Result<string, Failure>)
    ensures r.Err? ==> r == Err(UnwrapFailure)
  {
    match p.gcmDecrypt(encryptedKey, p.derive(privateKey, senderPublicKey))
    case Some(randomBits) => Ok(randomBits)
    case None => Err(UnwrapFailure)
  }

  /** The recipient unwraps, with their private key and the sender's public key, what the sender wrapped. */
  lemma MailKeyRoundTrip(p: Primitives, randomBits: string, sender: string, recipient: string)
    requires Axioms(p)
    ensures DecryptMailKey(p, EncryptMailKey(p, randomBits, sender, p.publicOf(recipient)), recipient, p.publicOf(sender)) == Ok(randomBits)
  {
    assert p.derive(sender, p.publicOf(recipient)) == p.derive(recipient, p.publicOf(sender));
  }

  /**
   * With the fixed zero nonce a wrap depends only on the content key and the
   * pair of parties: wrapping the same key for the same pair, in either
   * direction, gives the same ciphertext.
   */
  lemma WrapIsDeterministic(p: Primitives, randomBits: string, a: string, b: string)
    requires Axioms(p)
    ensures EncryptMailKey(p, randomBits, a, p.publicOf(b)) == EncryptMailKey(p, randomBits, b, p.publicOf(a))
  {
    assert p.derive(a, p.publicOf(b)) == p.derive(b, p.publicOf(a));
  }

  function EncryptMailContent(p: Primitives, content: string, randomBits: string): string {
    p.aesEncrypt(content, randomBits)
  }

  function DecryptMailContent(p: Primitives, encryptedContent: string, randomBits: string): string {
    p.aesDecrypt(encryptedContent, randomBits)
  }

  lemma MailContentRoundTrip(p: Primitives, content: string, randomBits: string)
    requires Axioms(p)
    ensures DecryptMailContent(p, EncryptMailContent(p, content, randomBits), randomBits) == content
  {
  }

  function Address(person: PersonItem): string {
    person.address
  }

  /** The reader's address list: the sender, then To, then Cc, then Bcc; absent lists add nothing. */
  function AddressList(mail: MailItem): (r: seq<string>)
    ensures |r| == 1 + |OrEmpty(mail.mailTo)| + |OrEmpty(mail.mailCc)| + |OrEmpty(mail.mailBcc)|
    ensures r[0] == mail.mailFrom.address
    ensures forall i :: 0 <= i < |OrEmpty(mail.mailTo)| ==> r[1 + i] == OrEmpty(mail.mailTo)[i].address
    ensures forall i :: 0 <= i < |OrEmpty(mail.mailCc)| ==>
      r[1 + |OrEmpty(mail.mailTo)| + i] == OrEmpty(mail.mailCc)[i].address
    ensures forall i :: 0 <= i < |OrEmpty(mail.mailBcc)| ==>
      r[1 + |OrEmpty(mail.mailTo)| + |OrEmpty(mail.mailCc)| + i] == OrEmpty(mail.mailBcc)[i].address
  {
    [mail.mailFrom.address] + Map(Address, OrEmpty(mail.mailTo)) + Map(Address, OrEmpty(mail.mailCc))
      + Map(Address, OrEmpty(mail.mailBcc))
  }

  /** `addr.split("@")[0].toLowerCase()`. */
  function KeyPrefix(address: string): string {
    ToLower(LocalPart(address))
  }

  predicate MatchesUser(address: string, userAddress: string, ensName: string) {
    KeyPrefix(address) == userAddress || KeyPrefix(address) == ensName
  }

  /** `findIndex` with `MatchesUser`: the first matching position, or -1. */
  function FindIndex(addresses: seq<string>, userAddress: string, ensName: string): (idx: int)
    ensures -1 <= idx < |addresses|
    ensures idx >= 0 ==> MatchesUser(addresses[idx], userAddress, ensName)
    ensures idx >= 0 ==> forall j :: 0 <= j < idx ==> !MatchesUser(addresses[j], userAddress, ensName)
    ensures idx == -1 <==> forall j :: 0 <= j < |addresses| ==> !MatchesUser(addresses[j], userAddress, ensName)
  {
    if addresses == [] then -1
    else if MatchesUser(addresses[0], userAddress, ensName) then 0
    else
      var rest := FindIndex(addresses[1..], userAddress, ensName);
      if rest < 0 then -1 else rest + 1
  }

  /** `findUserKeyIndex`. */
  function FindUserKeyIndex(mail: MailItem, userAddress: string, ensName: string): int {
    FindIndex(AddressList(mail), userAddress, ensName)
  }

  /**
   * Only the lower-cased local part is compared: a user whose address and
   * ENS name both hold an upper-case ASCII letter is found nowhere.
   */
  lemma NoMatchForUpperCaseUser(mail: MailItem, userAddress: string, ensName: string)
    requires !IsLower(userAddress) && !IsLower(ensName)
    ensures FindUserKeyIndex(mail, userAddress, ensName) == -1
  {
    var addresses := AddressList(mail);
    forall j | 0 <= j < |addresses|
      ensures !MatchesUser(addresses[j], userAddress, ensName)
    {
      ToLowerIsLower(LocalPart(addresses[j]));
    }
  }

  /** The two positional key arrays of a mail, each `None` when the header lacks it. */
  function WrappedKeys(mail: MailItem): Option<seq<string>> {
    match mail.metaHeader
    case Some(h) => h.encryptedKeys
    case None => None
  }

  function PublicKeys(mail: MailItem): Option<seq<string>> {
    match mail.metaHeader
    case Some(h) => h.publicKeys
    case None => None
  }

  /** `keys?.length && pubKeys?.length`: both arrays present and non-empty. */
  predicate HasKeys(mail: MailItem) {
    OrEmpty(WrappedKeys(mail)) != [] && OrEmpty(PublicKeys(mail)) != []
  }

  /**
   * `getOrDecryptPrivateKey` over the auth store's state: a non-empty cached
   * key wins; otherwise a signed-in user's key is decrypted with a salt signature.
   */
  function ResolvePrivateKey(p: Primitives, w: Wallet, v: AuthView, hasWindow: bool): (r: Result<string, Failure>)
    ensures CachedKey(v, hasWindow).Some? && CachedKey(v, hasWindow).value != "" ==> r == Ok(CachedKey(v, hasWindow).value)
    ensures (CachedKey(v, hasWindow).None? || CachedKey(v, hasWindow).value == "") && v.user.None? ==>
      r == Err(Failed(NotLoggedInMessage))
  {
    var cached := CachedKey(v, hasWindow);
    if cached.Some? && cached.value != "" then Ok(cached.value)
    else if v.user.None? then Err(Failed(NotLoggedInMessage))
    else DecryptPrivateKey(p, w, v.user.value.encryptedPrivateKey, v.user.value.salt)
  }

  /** Whether the key comes from the cache, which asks the wallet for nothing. */
  predicate CacheHit(v: AuthView, hasWindow: bool) {
    CachedKey(v, hasWindow).Some? && CachedKey(v, hasWindow).value != ""
  }

  /** The auth state after resolving the key: a freshly decrypted key is cached. */
  function ResolveEffect(p: Primitives, w: Wallet, v: AuthView, hasWindow: bool): AuthView {
    var r := ResolvePrivateKey(p, w, v, hasWindow);
    if CacheHit(v, hasWindow) || r.Err? then v else SetCachedKeySpec(v, r.value)
  }

  /** With a cached key the wallet plays no part: any two wallets get the same key. */
  lemma CacheHitNeedsNoSignature(p: Primitives, w: Wallet, w': Wallet, v: AuthView, hasWindow: bool)
    requires CacheHit(v, hasWindow)
    ensures ResolvePrivateKey(p, w, v, hasWindow) == ResolvePrivateKey(p, w', v, hasWindow)
    ensures ResolveEffect(p, w, v, hasWindow) == v
  {
  }

  /** After a successful resolution in a browser, the cache holds the key returned. */
  lemma ResolvedKeyIsCached(p: Primitives, w: Wallet, v: AuthView)
    requires ResolvePrivateKey(p, w, v, true).Ok?
    ensures CachedKey(ResolveEffect(p, w, v, true), true) == Some(ResolvePrivateKey(p, w, v, true).value)
  {
  }

  /**
   * Resolving a second time right after a successful resolution gives the
   * same key and changes nothing more: the cache already holds it, or the
   * same deterministic signature is asked for again.
   */
  lemma ResolveAgain(p: Primitives, w: Wallet, v: AuthView, hasWindow: bool)
    requires ResolvePrivateKey(p, w, v, hasWindow).Ok?
    ensures ResolvePrivateKey(p, w, ResolveEffect(p, w, v, hasWindow), hasWindow) == ResolvePrivateKey(p, w, v, hasWindow)
    ensures ResolveEffect(p, w, ResolveEffect(p, w, v, hasWindow), hasWindow) == ResolveEffect(p, w, v, hasWindow)
  {
  }

  method GetOrDecryptPrivateKey(p: Primitives, w: Wallet, auth: AuthStore) returns (r: Result<string, Failure>)
    modifies auth
    ensures r == ResolvePrivateKey(p, w, old(auth.View()), auth.hasWindow)
    ensures auth.View() == ResolveEffect(p, w, old(auth.View()), auth.hasWindow)
  {
    var cached := auth.GetCachedPrivateKey();
    if cached.Some? && cached.value != "" {
      return Ok(cached.value);
    }
    if auth.user.None? {
      return Err(Failed(NotLoggedInMessage));
    }
    r := DecryptPrivateKey(p, w, auth.user.value.encryptedPrivateKey, auth.user.value.salt);
    if r.Err? {
      return;
    }
    auth.SetCachedPrivateKey(r.value);
  }

  datatype DecryptedParts = DecryptedParts(html: string, text: string)

  /** Each present body part decrypted with the content key; an absent part stays "". */
  function DecryptParts(p: Primitives, mail: MailDetail, randomBits: string): DecryptedParts {
    DecryptedParts(
      if mail.partHtml != "" then DecryptMailContent(p, mail.partHtml, randomBits) else "",
      if mail.partText != "" then DecryptMailContent(p, mail.partText, randomBits) else "")
  }

  /**
   * The content key `decryptMail` arrives at: the sign-in and key checks
   * come first, in that order; then the private key is resolved and the
   * reader's wrap is unwrapped against the first public key (the sender's).
   */
  function MailContentKey(p: Primitives, w: Wallet, mail: MailItem, v: AuthView, hasWindow: bool): (r: Result<string, Failure>)
    ensures v.user.None? ==> r == Err(Failed(NotLoggedInMessage))
    ensures v.user.Some? && !HasKeys(mail) ==> r == Err(Failed(MissingKeysMessage))
    ensures v.user.Some? && HasKeys(mail)
      && !(0 <= FindUserKeyIndex(mail, v.user.value.address, v.user.value.ensName) < |OrEmpty(WrappedKeys(mail))|)
      ==> r == Err(Failed(NoKeyForUserMessage))
    ensures r.Ok? ==>
      && v.user.Some? && HasKeys(mail) && ResolvePrivateKey(p, w, v, hasWindow).Ok?
      && var idx := FindUserKeyIndex(mail, v.user.value.address, v.user.value.ensName);
      && 0 <= idx < |WrappedKeys(mail).value|
      && DecryptMailKey(p, WrappedKeys(mail).value[idx], ResolvePrivateKey(p, w, v, hasWindow).value,
                        PublicKeys(mail).value[0]) == r
  {
    if v.user.None? then Err(Failed(NotLoggedInMessage))
    else if !HasKeys(mail) then Err(Failed(MissingKeysMessage))
    else
      var keys := WrappedKeys(mail).value;
      var publicKeys := PublicKeys(mail).value;
      var idx := FindUserKeyIndex(mail, v.user.value.address, v.user.value.ensName);
      if idx < 0 || idx >= |keys| then Err(Failed(NoKeyForUserMessage))
      else
        var privateKey :- ResolvePrivateKey(p, w, v, hasWindow);
        DecryptMailKey(p, keys[idx], privateKey, publicKeys[0])
  }

  /** `decryptMail`: the content key as above, then each present part decrypted with it. */
  function DecryptMailSpec(p: Primitives, w: Wallet, mail: MailDetail, v: AuthView, hasWindow: bool): (r: Result<DecryptedParts, Failure>)
    ensures r.Err? <==> MailContentKey(p, w, mail.item, v, hasWindow).Err?
    ensures r.Err? ==> r.error == MailContentKey(p, w, mail.item, v, hasWindow).error
    ensures r.Ok? ==> (mail.partHtml == "" ==> r.value.html == "") && (mail.partText == "" ==> r.value.text == "")
  {
    var randomBits :- MailContentKey(p, w, mail.item, v, hasWindow);
    Ok(DecryptParts(p, mail, randomBits))
  }

  /** Whether `decryptMail` gets as far as resolving the private key. */
  predicate ReachesKeyResolution(mail: MailDetail, v: AuthView) {
    && v.user.Some?
    && HasKeys(mail.item)
    && 0 <= FindUserKeyIndex(mail.item, v.user.value.address, v.user.value.ensName) < |OrEmpty(WrappedKeys(mail.item))|
  }

  /**
   * Only the first public key is used: two mails that differ only in the
   * public keys after the first decrypt alike.
   */
  lemma DecryptUsesSenderKeyOnly(p: Primitives, w: Wallet, mail: MailDetail, mail': MailDetail, v: AuthView, hasWindow: bool)
    requires mail.item.metaHeader.Some? && mail'.item.metaHeader.Some?
    requires mail' == mail.(item := mail.item.(metaHeader := mail'.item.metaHeader))
    requires WrappedKeys(mail'.item) == WrappedKeys(mail.item)
    requires OrEmpty(PublicKeys(mail.item)) != [] && OrEmpty(PublicKeys(mail'.item)) != []
    requires PublicKeys(mail'.item).value[0] == PublicKeys(mail.item).value[0]
    ensures DecryptMailSpec(p, w, mail', v, hasWindow) == DecryptMailSpec(p, w, mail, v, hasWindow)
  {
    assert AddressList(mail'.item) == AddressList(mail.item);
    assert MailContentKey(p, w, mail'.item, v, hasWindow) == MailContentKey(p, w, mail.item, v, hasWindow);
  }

  method DecryptMail(p: Primitives, w: Wallet, mail: MailDetail, auth: AuthStore) returns (r: Result<DecryptedParts, Failure>)
    modifies auth
    ensures r == DecryptMailSpec(p, w, mail, old(auth.View()), auth.hasWindow)
    ensures auth.View() == if ReachesKeyResolution(mail, old(auth.View()))
      then ResolveEffect(p, w, old(auth.View()), auth.hasWindow) else old(auth.View())
  {
    var user := auth.user;
    if user.None? {
      return Err(Failed(NotLoggedInMessage));
    }
    var keys := WrappedKeys(mail.item);
    var publicKeys := PublicKeys(mail.item);
    if OrEmpty(keys) == [] || OrEmpty(publicKeys) == [] {
      return Err(Failed(MissingKeysMessage));
    }
    var idx := FindUserKeyIndex(mail.item, user.value.address, user.value.ensName);
    if idx < 0 || idx >= |keys.value| {
      return Err(Failed(NoKeyForUserMessage));
    }
    var encryptedKey := keys.value[idx];
    var senderPublicKey := publicKeys.value[0];
    var privateKey := GetOrDecryptPrivateKey(p, w, auth);
    if privateKey.Err? {
      return Err(privateKey.error);
    }
    var randomBits := DecryptMailKey(p, encryptedKey, privateKey.value, senderPublicKey);
    if randomBits.Err? {
      return Err(randomBits.error);
    }
    var html := "";
    var text := "";
    if mail.partHtml != "" {
      html := DecryptMailContent(p, mail.partHtml, randomBits.value);
    }
    if mail.partText != "" {
      text := DecryptMailContent(p, mail.partText, randomBits.value);
    }
    return Ok(DecryptedParts(html, text));
  }

  /** The bytes `encryptAttachmentForUpload` stores: the Base64 ciphertext, decoded. */
  function EncryptedAttachment(p: Primitives, file: seq<byte>, randomBits: string): seq<byte> {
    BinaryBytes(p.atob(p.aesEncryptBytes(file, randomBits)))
  }

  /** What `decryptAttachment` makes of downloaded bytes. */
  function DecryptedAttachment(p: Primitives, data: seq<byte>, randomBits: string): Result<seq<byte>, Failure> {
    var decrypted := p.aesDecryptBytes(p.btoa(BinaryString(data)), randomBits);
    if decrypted.sigBytes < 0 then Err(InvalidLengthFailure)
    else Ok(Unpacked(decrypted.words, decrypted.sigBytes))
  }

  /** An uploaded attachment, downloaded unchanged, decrypts to the original file. */
  lemma {:induction false} AttachmentRoundTrip(p: Primitives, file: seq<byte>, randomBits: string)
    requires Axioms(p)
    ensures DecryptedAttachment(p, EncryptedAttachment(p, file, randomBits), randomBits) == Ok(file)
  {
    var c := p.aesEncryptBytes(file, randomBits);
    BinaryStringOfBinaryBytes(p.atob(c));
  }

  /**
   * `encryptAttachmentForUpload`, given the file's bytes: the stored bytes
   * and the SHA-256 hashes of the plain and of the stored bytes.
   */
  method EncryptAttachmentForUpload(p: Primitives, file: seq<byte>, randomBits: string)
    returns (encryptedFile: seq<byte>, plainSha256: string, encryptedSha256: string)
    ensures encryptedFile == EncryptedAttachment(p, file, randomBits)
    ensures plainSha256 == p.sha256Bytes(file) && encryptedSha256 == p.sha256Bytes(encryptedFile)
  {
    plainSha256 := p.sha256Bytes(file);
    var encryptedBase64 := p.aesEncryptBytes(file, randomBits);
    var binaryStr := p.atob(encryptedBase64);
    var encryptedBytes := new byte[|binaryStr|];
    for i := 0 to |binaryStr|
      invariant forall k :: 0 <= k < i ==> encryptedBytes[k] == (binaryStr[k] as int % 256) as byte
    {
      encryptedBytes[i] := (binaryStr[i] as int % 256) as byte;
    }
    encryptedFile := encryptedBytes[..];
    encryptedSha256 := p.sha256Bytes(encryptedFile);
  }

  /** `decryptAttachment`, given the downloaded bytes. */
  method DecryptAttachment(p: Primitives, data: seq<byte>, randomBits: string) returns (r: Result<seq<byte>, Failure>)
    ensures r == DecryptedAttachment(p, data, randomBits)
  {
    var binary := "";
    for i := 0 to |data|
      invariant binary == BinaryString(data[..i])
    {
      binary := binary + [data[i] as int as char];
    }
    assert data[..|data|] == data;
    var decrypted := p.aesDecryptBytes(p.btoa(binary), randomBits);
    var words, sigBytes := decrypted.words, decrypted.sigBytes;
    if sigBytes < 0 {
      return Err(InvalidLengthFailure);
    }
    var decryptedBytes := new byte[sigBytes];
    for i := 0 to sigBytes
      invariant forall k :: 0 <= k < i ==> decryptedBytes[k] == ByteOfWord(WordAt(words, k / 4), k % 4)
    {
      decryptedBytes[i] := ByteOfWord(WordAt(words, i / 4), i % 4);
    }
    assert decryptedBytes[..] == Unpacked(words, sigBytes);
    return Ok(decryptedBytes[..]);
  }
}
