# MetaMail web client: envelope protocol and mailbox store, in Dafny

This project models the client-side core of the MetaMail web mail client. It covers three parts:

- **The mail envelope protocol.** A per-mail content key (`randomBits`) encrypts the body and the attachments. The key is wrapped once per party under an ECDH-derived AES-GCM key and laid out positionally as `[sender, ...to, ...cc]`. A reader finds their slot by position in `[from, ...to, ...cc, ...bcc]`. Outgoing mail is signed as EIP-712 typed data holding per-item SHA-256 hashes. Drafts carry one self-wrap. The identity private key is stored encrypted under the Keccak-256 hash of a wallet signature over a salt, and cached for the session.
- **The stores.** The authentication store, the compose store and the mailbox store. The mailbox store holds a detail LRU cache, the `fetchSeq` stale-response counter, the page cache, single and batch status updates, and the selection.
- **The UI helpers with logic.** Pagination, recipient normalisation and the suggestion keys, sender display, `formatAddress`, and the detail view's decryption and download gating.

How the source is represented:

- **Primitives.** ECDH, AES-GCM, CryptoJS AES, SHA-256, Keccak-256, `atob`/`btoa` and key-pair generation are fields of a `Primitives` record of total functions (`crypto.dfy`). Their laws are the predicate `Crypto.Axioms`: the round trips, ECDH agreement and the CryptoJS word packing. Every lemma that needs a law takes `Axioms(p)` as a precondition. `Crypto.Reference` is a concrete instance that satisfies them, which shows the laws are consistent.
- **The wallet.** A record holding an optional account and a `signTypedData` function that may fail. A user rejection is `Err(Rejected)`.
- **The server.** Responses are parameters: a `MailApi` record of functions, `ok` flags, or `Option`/`Result` values.
- **The stores.** Each Zustand store is a `class` whose fields are the store's state. Every method states its whole new state through `View()` and a specification function of the old state.
- **Interleaving.** An `await` that other actions can overtake (`fetchMails`, `selectMail`) is split into a start method and a finish method. This lets the model state the interleavings.

## Model

| member | source | states |
|---|---|---|
| Text.TrimStart | src/components/mailbox/recipient-input.tsx:58 | the result is a suffix of the input, everything dropped is whitespace, and it does not start with whitespace |
| Text.TrimEnd | src/components/mailbox/recipient-input.tsx:58 | the result is a prefix of the input, everything dropped is whitespace, and it does not end with whitespace |
| Text.Trim | src/components/mailbox/recipient-input.tsx:58 | `trim()` leaves no whitespace at either end |
| Text.TrimOfTrimmed | src/components/mailbox/recipient-input.tsx:58 | a string without whitespace at its ends is its own trim |
| Text.TrimIdempotent | src/components/mailbox/recipient-input.tsx:58 | trimming twice is trimming once |
| Text.ToLower | src/components/mailbox/recipient-input.tsx:58 | `toLowerCase()` lowers each character in place and keeps the length |
| Text.ToLowerIsLower | src/components/mailbox/recipient-input.tsx:58 | the result of lowering contains no upper-case letter |
| Text.ToLowerOfLower | src/components/mailbox/recipient-input.tsx:58 | lowering an all-lower-case string changes nothing |
| Text.LowerCharKeepsWhitespace | src/components/mailbox/recipient-input.tsx:58 | lowering neither creates nor removes whitespace, so trim and lower commute |
| Text.LocalPart | src/lib/crypto/mail.ts:78 | `split("@")[0]` is the longest prefix without '@', and it is followed by '@' whenever it is not the whole string |
| Text.LocalPartOfConcat | src/components/mailbox/recipient-input.tsx:71 | the local part of `name@domain` is `name` when `name` has no '@' |
| Text.DigitChar | src/lib/store/mail.ts:188-190 | a decimal digit renders as the character of that value |
| Text.NatToString | src/lib/store/mail.ts:188-190 | a number renders as a non-empty string of decimal digits |
| Text.IntToString | src/lib/store/mail.ts:188-190 | a page number renders as a non-empty string without ':' |
| Text.NatToStringInjective | src/lib/store/mail.ts:188-190 | different numbers render differently |
| Text.IntToStringInjective | src/lib/store/mail.ts:188-190 | different page numbers render differently |
| Types.FilterCode | src/lib/constants/index.ts:78-88 | each filter has a numeric value below 9, which is a single digit in a cache key |
| Types.FilterCodeInjective | src/lib/constants/index.ts:78-88 | different filters have different numeric values |
| Bytes.WordAt | src/lib/crypto/mail.ts:188 | reading a word of a WordArray gives a 32-bit value, and a missing word reads as 0 |
| Bytes.Weight | src/lib/crypto/mail.ts:188 | the shift `24 - (i % 4) * 8` selects a positive byte weight |
| Bytes.Unpacked | src/lib/crypto/mail.ts:184-189 | unpacking yields exactly `sigBytes` bytes |
| Bytes.PackedWord | src/lib/crypto/mail.ts:209-210 | four bytes pack big-endian into one 32-bit word |
| Bytes.Packed | src/lib/crypto/mail.ts:209-210 | packing a byte array records its length as `sigBytes` |
| Bytes.ByteOfPackedWord | src/lib/crypto/mail.ts:188 | byte j of a packed word is the j-th byte packed into it, most significant first |
| Bytes.UnpackPacked | src/lib/crypto/mail.ts:184-189 | the unpacking loop inverts WordArray packing: it returns the original bytes |
| Bytes.BinaryString | src/lib/crypto/mail.ts:174-177 | the `String.fromCharCode` loop yields one character per byte |
| Bytes.BinaryBytes | src/lib/crypto/mail.ts:219-223 | the `charCodeAt` loop yields one byte per character |
| Bytes.BinaryBytesOfBinaryString | src/lib/crypto/mail.ts:174-177 | bytes to binary string to bytes is the identity |
| Bytes.BinaryStringOfBinaryBytes | src/lib/crypto/mail.ts:219-223 | a binary string to bytes and back is the identity |
| Crypto.ReferenceSatisfiesAxioms | src/lib/crypto/symmetric.ts:13-63 | the primitive laws the proofs assume can all hold at once |
| Crypto.ReferenceGcm | src/lib/crypto/symmetric.ts:40-63 | AES-GCM decryption under the same key recovers the plaintext |
| Crypto.ReferenceAes | src/lib/crypto/symmetric.ts:13-23 | CryptoJS decryption under the same passphrase recovers the text, and the ciphertext is never empty |
| Crypto.ReferenceAesBytes | src/lib/crypto/symmetric.ts:28-33 | decrypting encrypted bytes yields a WordArray that unpacks to them |
| UserKeys.SignTypedData | src/lib/crypto/user-keys.ts:20-36 | with no account it fails with "No wallet account connected"; otherwise it asks the wallet to sign under the MetaMail domain |
| UserKeys.DecryptPrivateKey | src/lib/crypto/user-keys.ts:60-68 | it fails exactly when the salt signature fails, with the same error |
| UserKeys.HexDigit | src/lib/crypto/user-keys.ts:75 | a nibble renders as a lower-case hex digit |
| UserKeys.HexValue | src/lib/crypto/user-keys.ts:75 | a hex digit reads back as a value below 16 |
| UserKeys.HexValueOfDigit | src/lib/crypto/user-keys.ts:75 | reading a rendered nibble gives the nibble back |
| UserKeys.SaltHex | src/lib/crypto/user-keys.ts:73-76 | the salt renders two lower-case hex digits per byte, zero-padded |
| UserKeys.ParseHex | src/lib/crypto/user-keys.ts:73-76 | parsing hex gives one byte per two digits |
| UserKeys.ParseSaltHex | src/lib/crypto/user-keys.ts:73-76 | the hex rendering of the salt is lossless: parsing it returns the 32 bytes |
| UserKeys.GenerateEncryptionKeys | src/lib/crypto/user-keys.ts:71-112 | with no account it fails; on success the salt is 64 lower-hex characters that parse back to the random bytes, and the record carries the generated public key, `KEYS_META` and the date |
| UserKeys.UploadIsSigned | src/lib/crypto/user-keys.ts:88-102 | the uploaded signature is the wallet's `Sign_KeyData` signature over the record's own date, salt, keys hash and meta, and the keys hash is `sha256(sha256(public) + sha256(encrypted private))` |
| UserKeys.PrivateKeyRoundTrip | src/lib/crypto/user-keys.ts:60-86 | a wallet that signs the salt the same way recovers the generated private key from the upload |
| Auth.SetAuthSpec | src/lib/store/auth.ts:32-36 | `setAuth` stores the token and the serialized user, holds both in state, and changes nothing else |
| Auth.ClearAuthSpec | src/lib/store/auth.ts:38-43 | `clearAuth` removes the token, the user and the cached private key, nulls token and user, zeroes both sizes, and keeps every other stored entry |
| Auth.LoadSpec | src/lib/store/auth.ts:45-56 | `loadFromStorage` does nothing without a window or without both stored values; an unparsable user resets token and user; it never writes storage |
| Auth.SetCachedKeySpec | src/lib/store/auth.ts:75-77 | `setCachedPrivateKey` writes only the session entry for the key |
| Auth.CachedKeyAfterSet | src/lib/store/auth.ts:70-77 | after setting the cached key, reading it returns that key in a browser and nothing outside one |
| Auth.NoCachedKeyAfterClear | src/lib/store/auth.ts:38-43 | after `clearAuth` no private key is cached |
| Auth.LoadAfterSetAuth | src/lib/store/auth.ts:32-56 | reloading after `setAuth` restores the same session |
| Auth.LoadAfterClear | src/lib/store/auth.ts:38-56 | reloading after `clearAuth` stays logged out |
| Auth.AuthStore.constructor | src/lib/store/auth.ts:26-30 | the store starts logged out with zero sizes over the given storage |
| Auth.AuthStore.SetAuth | src/lib/store/auth.ts:32-36 | the new state is `SetAuthSpec` of the old |
| Auth.AuthStore.ClearAuth | src/lib/store/auth.ts:38-43 | the new state is `ClearAuthSpec` of the old |
| Auth.AuthStore.LoadFromStorage | src/lib/store/auth.ts:45-56 | the new state is `LoadSpec` of the old |
| Auth.AuthStore.FetchProfile | src/lib/store/auth.ts:58-68 | a profile response sets both sizes; a failure changes nothing |
| Auth.AuthStore.GetCachedPrivateKey | src/lib/store/auth.ts:70-73 | a key is returned exactly when running in a browser with a cached session key, and it is that key |
| Auth.AuthStore.SetCachedPrivateKey | src/lib/store/auth.ts:75-77 | the new state is `SetCachedKeySpec`, and in a browser the key reads back |
| CryptoMail.GenerateRandomBits | src/lib/crypto/mail.ts:17-20 | the key text starts with the sender-address sentence and ends with the random base64 |
| CryptoMail.RandomBitsInjective | src/lib/crypto/mail.ts:17-20 | different random values give different content keys for the same sender |
| CryptoMail.DecryptMailKey | src/lib/crypto/mail.ts:38-45 | unwrapping fails only with the AES-GCM unwrap failure |
| CryptoMail.MailKeyRoundTrip | src/lib/crypto/mail.ts:26-45 | a key wrapped by the sender for a recipient unwraps with the recipient's private key and the sender's public key |
| CryptoMail.WrapIsDeterministic | src/lib/crypto/mail.ts:26-33 | with the fixed zero IV, the wrap for a pair of parties is the same whichever of them computes it |
| CryptoMail.MailContentRoundTrip | src/lib/crypto/mail.ts:50-62 | content encrypted with the content key decrypts back with it |
| CryptoMail.AddressList | src/lib/crypto/mail.ts:70-75 | the reader list is from, then To, then Cc, then Bcc, in order; absent lists contribute nothing |
| CryptoMail.FindIndex | src/lib/crypto/mail.ts:77-80 | the result is the first position whose lower-cased local part equals the user's address or ENS name, and -1 exactly when none does |
| CryptoMail.NoMatchForUpperCaseUser | src/lib/crypto/mail.ts:78-79 | a user whose stored address and ENS name both hold an upper-case letter never finds a slot |
| CryptoMail.ResolvePrivateKey | src/lib/crypto/mail.ts:89-111 | a non-empty cached key is returned as is; without one and without a user it fails with "Not logged in" |
| CryptoMail.CacheHitNeedsNoSignature | src/lib/crypto/mail.ts:95-97 | with a cached key the result does not depend on the wallet and nothing is written |
| CryptoMail.ResolvedKeyIsCached | src/lib/crypto/mail.ts:108-110 | in a browser, after a successful resolution the cache holds the returned key |
| CryptoMail.ResolveAgain | src/lib/crypto/mail.ts:89-111 | resolving again after a success gives the same key and changes nothing more |
| CryptoMail.GetOrDecryptPrivateKey | src/lib/crypto/mail.ts:89-111 | returns `ResolvePrivateKey` and leaves the auth store as `ResolveEffect` says |
| CryptoMail.MailContentKey | src/lib/crypto/mail.ts:121-144 | the failures come in the source's order: not logged in, missing keys, no slot for the user; on success the key is the user's slot unwrapped against public key 0 |
| CryptoMail.DecryptMailSpec | src/lib/crypto/mail.ts:117-158 | `decryptMail` fails exactly when the content key cannot be obtained, with that error; absent parts stay empty |
| CryptoMail.DecryptUsesSenderKeyOnly | src/lib/crypto/mail.ts:137-144 | only public key 0 matters: changing any other public key does not change the result |
| CryptoMail.DecryptMail | src/lib/crypto/mail.ts:117-158 | returns `DecryptMailSpec`, and touches the key cache only when key resolution is reached |
| CryptoMail.AttachmentRoundTrip | src/lib/crypto/mail.ts:164-236 | an attachment encrypted for upload decrypts on download to the original bytes |
| CryptoMail.EncryptAttachmentForUpload | src/lib/crypto/mail.ts:198-236 | the byte loop yields the encrypted file, and the two hashes are of the plain and the encrypted bytes |
| CryptoMail.DecryptAttachment | src/lib/crypto/mail.ts:164-192 | the two byte loops compute the decrypted attachment |
| SignMail.ConcatAddress | src/lib/crypto/sign-mail.ts:6-8 | a person renders as name, " <", address, ">" |
| SignMail.MailMessageOf | src/lib/crypto/sign-mail.ts:30-55 | to and cc keep order and length, key hashes are per item and in order, other fields are copied, and there is no Bcc field |
| SignMail.SignMailMessage | src/lib/crypto/sign-mail.ts:23-66 | with no account it fails with "No wallet account connected"; otherwise it signs that message as `Sign_Mail` under the MetaMail domain |
| Compose.BuildReplySubject | src/lib/store/compose.ts:71-74 | a subject already starting with "re:" in any case is kept, others get "Re: ", and the result is always a reply subject |
| Compose.BuildForwardSubject | src/lib/store/compose.ts:76-79 | a subject starting with "fw:" or "fwd:" in any case is kept, others get "Fwd: ", and the result is always a forward subject |
| Compose.ReplySubjectIdempotent | src/lib/store/compose.ts:71-74 | prefixing a reply twice is prefixing it once |
| Compose.ForwardSubjectIdempotent | src/lib/store/compose.ts:76-79 | prefixing a forward twice is prefixing it once |
| Compose.BuildFrom | src/lib/store/compose.ts:81-88 | the sender name is the ENS name or the address, and it is the local part of the sender address |
| Compose.SenderMatchesOwnFrom | src/lib/store/compose.ts:81-88 | the sender's own `from` address finds the sender's slot 0 on the read side |
| Compose.BuildDraftMetaHeader | src/lib/store/compose.ts:94-109 | a draft header holds exactly one wrapped key and the user's own public key |
| Compose.DraftSelfWrapRoundTrip | src/lib/store/compose.ts:94-109 | the draft self-wrap unwraps with the user's private key to the content key |
| Compose.OpenComposeSpec | src/lib/store/compose.ts:130-199 | every mode resets the flags, attachments, Cc and Bcc and uses a fresh content key; reply addresses `reply_to` or the sender and threads the message id; forward keeps the text |
| Compose.RecoverDraftKey | src/lib/store/compose.ts:208-227 | a draft without key arrays recovers no key |
| Compose.DraftViewSpec | src/lib/store/compose.ts:228-263 | a reopened draft keeps its id and recipients and uses the recovered key, or a fresh one when none was recovered |
| Compose.DraftRequestOf | src/lib/store/compose.ts:399-423 | the saved draft is encrypted with the self-wrap header, the sender, all three recipient lists and the encrypted body; `mail_id` is present exactly for an existing draft |
| Compose.SavedDraftReopens | src/lib/store/compose.ts:201-263 | a saved draft reopens with the same content key and the same body text |
| Compose.CollectRecipientKeys | src/lib/store/compose.ts:477-496 | the loop yields one key per To/Cc recipient ("" when missing) and `encryptable` is true exactly when there are recipients and all have keys |
| Compose.WrapForAll | src/lib/store/compose.ts:506-513 | the loop wraps the content key once for each public key, in order |
| Compose.AssembleEnvelope | src/lib/store/compose.ts:498-517 | when encryptable the keys are `[sender, ...recipients]` with one wrap each and no clear key; otherwise both arrays are empty and the clear key is the content key |
| Compose.ClearMailHashesPlaintext | src/lib/store/compose.ts:520-532 | for a degraded mail the text hash is taken over the plaintext body |
| Compose.StrLessAsymmetric | src/lib/store/compose.ts:539 | the string order used by the sort is asymmetric |
| Compose.InsertById | src/lib/store/compose.ts:537-539 | insertion adds exactly one element |
| Compose.InsertByIdSorted | src/lib/store/compose.ts:537-539 | insertion keeps the list sorted by attachment id |
| Compose.SortById | src/lib/store/compose.ts:537-539 | the sort is a permutation |
| Compose.SortByIdSorted | src/lib/store/compose.ts:537-539 | the result is in ascending attachment-id order |
| Compose.Uploaded | src/lib/store/compose.ts:538 | exactly the attachments with an attachment id are kept |
| Compose.HashesOf | src/lib/store/compose.ts:540-542 | every hash is non-empty and is the chosen hash of some attachment |
| Compose.AttachmentHashes | src/lib/store/compose.ts:536-542 | every signed attachment hash is non-empty and belongs to an uploaded attachment: the encrypted hash when encryptable, the plain one otherwise |
| Compose.AttachmentHashesInIdOrder | src/lib/store/compose.ts:536-542 | the signed hashes are those of the uploaded attachments rearranged in ascending attachment-id order |
| Compose.UploadedHashesIncluded | src/lib/store/compose.ts:536-542 | every uploaded attachment with a non-empty chosen hash is signed |
| Compose.HashInHashesOf | src/lib/store/compose.ts:540-542 | no non-empty hash is lost by the map and filter |
| Compose.EnvelopeFor | src/lib/store/compose.ts:477-517 | the envelope has `1 + |to| + |cc|` slots, slot 0 is the sender, slot k the (k-1)-th recipient, each wrapped for its own key, and Bcc gets none; a degraded mail has an empty envelope and the clear key |
| Compose.AfterSendFailure | src/lib/store/compose.ts:574-592 | a failure ends sending; a wallet rejection leaves the shown error as it was, and any other failure shows a non-empty one |
| Compose.SendFailure | src/lib/store/compose.ts:574-592 | a failed send settles with what it saved and sent so far |
| Compose.Deliver | src/lib/store/compose.ts:560-573 | the step settles: a delivered mail closes the composer without an error, a failed delivery shows its message, and the saved draft id is kept |
| Compose.SignAndDeliver | src/lib/store/compose.ts:544-573 | what is sent carries the wallet's signature over `SignParamsFor` and the envelope |
| Compose.SendSpec | src/lib/store/compose.ts:434-593 | logged out it does nothing; with no To recipient it only sets "Please add at least one recipient."; otherwise it settles, and nothing is sent before the draft is saved |
| Compose.SendStartedSpec | src/lib/store/compose.ts:444-593 | once sending has started the step settles, and nothing is sent before the draft is saved |
| Compose.SentRequestContents | src/lib/store/compose.ts:434-593 | a sent mail carries the saved draft's id, the envelope, the date and the signature over the sign parameters |
| Compose.UploadDraftSpec | src/lib/store/compose.ts:411-431 | the save result follows the server's answer, `saving` always ends false, and a success clears `isDirty` and sets `lastSavedAt` |
| Compose.SaveSpec | src/lib/store/compose.ts:392-432 | `saveDraft` fails when logged out; it clears `isDirty` only on success; it always ends not saving; the request is the draft built with the resolved key |
| Compose.OpenDraftSpec | src/lib/store/compose.ts:201-264 | opening fails when logged out and leaves the composer unchanged on failure; on success the view is `DraftViewSpec` with the recovered key |
| ComposeStore.ComposeStore.constructor | src/lib/store/compose.ts:111-128 | the composer starts closed and empty |
| ComposeStore.ComposeStore.OpenCompose | src/lib/store/compose.ts:130-199 | the new state is `OpenComposeSpec` |
| ComposeStore.ComposeStore.OpenDraft | src/lib/store/compose.ts:201-264 | result and state are `OpenDraftSpec`, and the key cache changes only when the draft has keys |
| ComposeStore.ComposeStore.CloseCompose | src/lib/store/compose.ts:266-280 | closing only clears `isOpen` |
| ComposeStore.ComposeStore.SetMailTo | src/lib/store/compose.ts:282 | sets the To list and marks the draft dirty |
| ComposeStore.ComposeStore.SetMailCc | src/lib/store/compose.ts:283 | sets the Cc list and marks the draft dirty |
| ComposeStore.ComposeStore.SetMailBcc | src/lib/store/compose.ts:284 | sets the Bcc list and marks the draft dirty |
| ComposeStore.ComposeStore.SetSubject | src/lib/store/compose.ts:285 | sets the subject and marks the draft dirty |
| ComposeStore.ComposeStore.SetBodyText | src/lib/store/compose.ts:286 | sets the body and marks the draft dirty |
| ComposeStore.ComposeStore.RemoveAttachment | src/lib/store/compose.ts:376-390 | drops exactly the attachment at the index, and asks the server to delete it exactly when it was uploaded to a saved draft |
| ComposeStore.ComposeStore.SettleFailure | src/lib/store/compose.ts:574-592 | the new state is `AfterSendFailure` |
| ComposeStore.ComposeStore.SaveDraft | src/lib/store/compose.ts:392-432 | result, request and state are `SaveSpec`, and the key cache is resolved only when logged in |
| ComposeStore.ComposeStore.UploadDraft | src/lib/store/compose.ts:411-431 | result, request and state are `UploadDraftSpec` |
| ComposeStore.ComposeStore.SendMail | src/lib/store/compose.ts:434-593 | outcome, requests and state are `SendSpec` |
| ComposeStore.ComposeStore.SaveThenSend | src/lib/store/compose.ts:444-593 | after sending starts, the steps are `SendStartedSpec` |
| ComposeStore.ComposeStore.SignAndSend | src/lib/store/compose.ts:519-573 | signing and delivery are `SignAndDeliver`, and the key cache is not touched again |
| ComposeStore.ComposeStore.DeliverMail | src/lib/store/compose.ts:560-573 | delivery is `Deliver` |
| ComposeStore.BuildEnvelope | src/lib/store/compose.ts:477-517 | the two loops build exactly `EnvelopeFor` and decide `Encryptable` |
| ComposeStore.SignParamsMatch | src/lib/store/compose.ts:519-558 | the parameters the store signs are `SignParamsFor` |
| ComposeStore.EnvelopeMatches | src/lib/store/compose.ts:498-517 | arrays with the loops' properties are the envelope `EnvelopeFor` |
| Protocol.ReceivedMail | src/lib/crypto/mail.ts:124-125 | the received mail carries the draft's parties and body and the sent key arrays |
| Protocol.SlotsAlign | src/lib/store/compose.ts:477-517 | in a sent mail, slot 0 of both lists is the sender, slot k is the same recipient in both, and the reader list is longer by the Bcc count |
| Protocol.ReceivedSlotsAlign | src/lib/crypto/mail.ts:69-83 | as `SlotsAlign`, for a given draft and envelope |
| Protocol.LayoutsAlign | src/lib/crypto/mail.ts:70-75 | the send-side key layout and the read-side address layout agree on every To/Cc slot |
| Protocol.ReaderRecoversMail | src/lib/crypto/mail.ts:117-158 | a To/Cc reader whose slot holds their public key recovers the content key and the body that was sent |
| Protocol.BccReaderFindsNoKey | src/lib/crypto/mail.ts:132-135 | a reader listed only in Bcc gets no key slot and decryption fails |
| Protocol.ClearKeyMailIsUnreadable | src/lib/crypto/mail.ts:127-129 | a degraded mail carries the key in clear, yet the client fails to read it with "Mail is missing encryption keys" |
| MailDetailView.FormatAddress | src/components/mailbox/mail-detail.tsx:49-52 | a named person renders as "name <address>", an unnamed one as the bare address |
| MailDetailView.FormatAddressIsSignedForm | src/components/mailbox/mail-detail.tsx:49-52 | the displayed form equals the signed form exactly when the person has a name |
| MailDetailView.ScanFrom | src/components/mailbox/mail-detail.tsx:179-182 | the detail view's search returns the first matching position, and -1 exactly when none matches |
| MailDetailView.DetailIndexAgrees | src/components/mailbox/mail-detail.tsx:173-182 | the detail view's copy of the key-index logic agrees with `findUserKeyIndex` |
| MailDetailView.ErrorText | src/components/mailbox/mail-detail.tsx:192-202 | a wallet rejection shows no error, and any other failure shows a non-empty message |
| MailDetailView.HandleDecryptSpec | src/components/mailbox/mail-detail.tsx:154-203 | without a mail or a wallet nothing happens; otherwise decrypting ends and the download state is kept |
| MailDetailView.DecryptKeepsContentKey | src/components/mailbox/mail-detail.tsx:160-191 | after a successful decryption the content key is kept, and it decrypts to the shown parts |
| MailDetailView.FailureKeepsContent | src/components/mailbox/mail-detail.tsx:192-202 | a failed decryption keeps the shown content and the key and shows the failure's message, or none for a rejection |
| MailDetailView.KeyKeptOnlyFromOwnSlot | src/components/mailbox/mail-detail.tsx:169-191 | the kept key can only be the user's own slot unwrapped against public key 0 |
| MailDetailView.AutoDecryptNeedsNoSignature | src/components/mailbox/mail-detail.tsx:146-152 | automatic decryption with a cached key does not depend on the wallet and writes nothing |
| MailDetailView.ResetShowsNoCiphertext | src/components/mailbox/mail-detail.tsx:138-144 | after the reset an encrypted mail shows no body, offers decryption, and its downloads are disabled |
| MailDetailView.PlainMailUnaffected | src/components/mailbox/mail-detail.tsx:215-255 | a plain mail shows its parts as is, never offers decryption, and downloads the fetched bytes unchanged |
| MailDetailView.ReaderSeesBodyAndFiles | src/components/mailbox/mail-detail.tsx:154-255 | a To/Cc reader of a sent mail sees the sent body after decrypting and can download each attachment in its original bytes |
| MailDetailView.DetailView.constructor | src/components/mailbox/mail-detail.tsx:127-132 | the view starts with nothing decrypted |
| MailDetailView.DetailView.ResetForMail | src/components/mailbox/mail-detail.tsx:138-144 | switching mail clears the decrypted parts, the key and the error |
| MailDetailView.DetailView.Catch | src/components/mailbox/mail-detail.tsx:192-202 | a failure sets the error text and ends decrypting |
| MailDetailView.DetailView.HandleDecrypt | src/components/mailbox/mail-detail.tsx:154-203 | the new state is `HandleDecryptSpec`, and the key cache changes only when a key is resolved |
| MailDetailView.DetailView.HandleDownloadAttachment | src/components/mailbox/mail-detail.tsx:205-240 | an encrypted mail's file is decrypted with the kept key and other files are passed through; the download marker is cleared |
| MailDetailView.SecondPass | src/components/mailbox/mail-detail.tsx:169-191 | the second key derivation computes `RederivedKey` |
| Lru.Without | src/lib/store/mail.ts:38-40 | deleting a key removes exactly that key and keeps keys distinct |
| Lru.WithoutAll | src/lib/store/mail.ts:469 | deleting a set of keys removes exactly those keys, keeps keys distinct, and keeps the other entries in order |
| Lru.WithoutNone | src/lib/store/mail.ts:469 | deleting no keys keeps every entry in place |
| Lru.WithoutAfterWithoutAll | src/lib/store/mail.ts:469 | deleting the ids one at a time, in any order, is deleting the whole set |
| Lru.WithoutAbsent | src/lib/store/mail.ts:38-40 | deleting an absent key changes nothing |
| Lru.LookupAppend | src/lib/store/mail.ts:28-30 | appending a new entry adds exactly that key |
| Lru.DistinctAppend | src/lib/store/mail.ts:28-30 | appending an absent key keeps keys distinct |
| Lru.SetSpecContents | src/lib/store/mail.ts:28-36 | `set` maps the key to the value, evicts at most the one reported key, keeps the rest, and stays within `maxSize` |
| Lru.EvictsLeastRecent | src/lib/store/mail.ts:31-35 | the evicted key is the least recently used one |
| Lru.SetThenLookup | src/lib/store/mail.ts:28-36 | a key just set reads back its value |
| Lru.TouchKeepsContents | src/lib/store/mail.ts:18-26 | `get` of a present key keeps the contents and makes that key the most recent |
| Lru.LruCache.constructor | src/lib/store/mail.ts:14-16 | the cache starts empty with its bound |
| Lru.LruCache.Get | src/lib/store/mail.ts:18-26 | returns the stored value, moves a hit to the most recent end, and leaves a miss unchanged |
| Lru.LruCache.Set | src/lib/store/mail.ts:28-36 | the entries become `SetSpec` of the old |
| Lru.LruCache.Delete | src/lib/store/mail.ts:38-40 | the entries lose exactly that key |
| MailStore.CacheKeyInjective | src/lib/store/mail.ts:188-190 | different (query, filter, page) triples never share a page-cache key |
| MailStore.ShowCached | src/lib/store/mail.ts:126-184 | a cached page is shown at once, and a miss changes nothing |
| MailStore.StartFetchSpec | src/lib/store/mail.ts:186-199 | a fetch takes the next sequence number, the current cache key, and a search or a list request |
| MailStore.FinishFetchSpec | src/lib/store/mail.ts:201-235 | a response whose number is not the latest changes nothing |
| MailStore.StaleResponseDiscarded | src/lib/store/mail.ts:199-207 | when a second fetch starts first, the first fetch's response is dropped |
| MailStore.LatestResponseShown | src/lib/store/mail.ts:209-222 | the latest response is shown, clears the selection, and caches its page under its key without touching other pages |
| MailStore.FailedFetchKeepsCachedPage | src/lib/store/mail.ts:223-234 | a failed fetch blanks the list only when nothing was cached |
| MailStore.NavigationKeysAgree | src/lib/store/mail.ts:126-184 | `setFilter`, `setSearchQuery`, `clearSearch` and `setPage` look up the same key that their fetch will fill |
| MailStore.ClearSearchIsEmptyQuery | src/lib/store/mail.ts:142-170 | clearing the search is setting an empty query |
| MailStore.Max0 | src/lib/store/mail.ts:324 | the floor at zero is the larger of 0 and its argument |
| MailStore.WithRead | src/lib/store/mail.ts:320-325 | exactly the mails with that id change their read status; it is the batch update for that single id |
| MailStore.WithMark | src/lib/store/mail.ts:364-372 | exactly the mails with that id change their mark; it is the batch update for that single id |
| MailStore.MarkReadSpec | src/lib/store/mail.ts:314-333 | a failed request changes nothing; success lowers the unread count by one, floored at 0 |
| MailStore.MarkUnreadSpec | src/lib/store/mail.ts:335-354 | a failed request changes nothing; success raises the unread count by one |
| MailStore.UnreadCountNonNegative | src/lib/store/mail.ts:314-354 | the unread count never drops below 0 |
| MailStore.ReadActionTouchesOnlyThatMail | src/lib/store/mail.ts:314-354 | marking read or unread changes only the entries with that id, and only their read status |
| MailStore.ToggledMark | src/lib/store/mail.ts:357-358 | Starred becomes Normal and every other mark becomes Starred |
| MailStore.ToggleStarSpec | src/lib/store/mail.ts:356-376 | a failed request changes nothing; success toggles the mark of the entries with that id |
| MailStore.ToggleStarTwice | src/lib/store/mail.ts:356-376 | starring twice restores a Normal or Starred mark |
| MailStore.RemoveMailSpec | src/lib/store/mail.ts:378-431 | a failure changes nothing; success lowers the total by one, empties the page cache, and clears the selected mail exactly when it was that one |
| MailStore.RemovalPartitionsList | src/lib/store/mail.ts:378-431 | the list keeps exactly the other mails, and with the removed ones it is the old list |
| MailStore.ToggleSelectSpec | src/lib/store/mail.ts:434-444 | the id flips membership and no other id changes |
| MailStore.ToggleSelectTwice | src/lib/store/mail.ts:434-444 | toggling twice restores the state |
| MailStore.SelectAllSpec | src/lib/store/mail.ts:446-450 | the selection is exactly the ids of the shown mails |
| MailStore.SelectedAndHolds | src/lib/store/mail.ts:488-490 | the batch test is "selected and passes the test" |
| MailStore.SelectedWithRead | src/lib/store/mail.ts:503-509 | exactly the selected mails change their read status |
| MailStore.SelectedWithMark | src/lib/store/mail.ts:565-570 | exactly the selected mails change their mark |
| MailStore.BatchMarkReadSpec | src/lib/store/mail.ts:484-513 | an empty selection does nothing |
| MailStore.BatchMarkUnreadSpec | src/lib/store/mail.ts:515-544 | an empty selection does nothing |
| MailStore.BatchStarSpec | src/lib/store/mail.ts:546-574 | an empty selection does nothing |
| MailStore.BatchMarkReadTouchesSelectedUnread | src/lib/store/mail.ts:484-513 | only selected unread mails change, all of them become read on success, the request names exactly them, and the count drops by their number, floored at 0 |
| MailStore.BatchMarkUnreadTouchesSelectedRead | src/lib/store/mail.ts:515-544 | only selected read mails change, all of them become unread on success, the request names exactly them, and the count rises by their number |
| MailStore.BatchStarStarsSelection | src/lib/store/mail.ts:546-574 | on success every selected mail is starred, the others are unchanged, and the selection is cleared |
| MailStore.BatchDeleteSpec | src/lib/store/mail.ts:456-482 | the mark is Deleted in Trash and Trash elsewhere; success clears the selection and the page cache |
| MailStore.BatchDeletePartitions | src/lib/store/mail.ts:456-482 | the list keeps exactly the unselected mails, and the total drops by the number removed |
| MailStore.EmptyTrashSpec | src/lib/store/mail.ts:576-598 | an empty list does nothing; otherwise the request marks every shown mail Deleted |
| MailStore.FetchStatsSpec | src/lib/store/mail.ts:237-248 | stats set the counters, and a failure changes nothing |
| MailStore.FindMail | src/lib/store/mail.ts:257 | the lookup returns a listed mail with that id, or none when no mail has it |
| MailStore.FindMailAfterWithRead | src/lib/store/mail.ts:281-306 | a read update changes the found mail's read status only |
| MailStore.Merged | src/lib/store/mail.ts:298-301 | the fetched body is kept, and the list's mark and read status win |
| MailStore.StartSelectSpec | src/lib/store/mail.ts:250-292 | no id clears the detail; a listed draft only asks to open the composer; a fetch starts exactly for a non-draft mail missing from the detail cache |
| MailStore.FinishSelectAsWritten | src/lib/store/mail.ts:293-311 | as written, a fetched detail is always shown, whichever mail is selected by then |
| MailStore.FinishSelectSpec | src/lib/store/mail.ts:293-311 | corrected: the detail is applied only while its mail is still selected, and otherwise the view is left as it is |
| MailStore.SecondSelectionFromCache | src/lib/store/mail.ts:277-311 | selecting the same mail again is served from the detail cache, whatever the server would now return |
| MailStore.CachedSelection | src/lib/store/mail.ts:277-285 | a cached mail is shown from the cache without a fetch |
| MailStore.SlowDetailOverwritesLaterSelection | src/lib/store/mail.ts:288-303 | as written, a slow detail for mail a replaces the detail of a later-selected mail b; the corrected step keeps b's |
| MailStore.MailStore.constructor | src/lib/store/mail.ts:109-124 | the store starts on the Inbox, page 1, with empty caches |
| MailStore.MailStore.ShowCachedPage | src/lib/store/mail.ts:128-137 | the new state is `ShowCached` |
| MailStore.MailStore.StartFetch | src/lib/store/mail.ts:186-204 | the new state and ticket are `StartFetchSpec` |
| MailStore.MailStore.FinishFetch | src/lib/store/mail.ts:205-235 | the new state is `FinishFetchSpec` |
| MailStore.MailStore.ClearSelected | src/lib/store/mail.ts:126-140 | navigation clears the selected mail and the selection |
| MailStore.MailStore.SetFilter | src/lib/store/mail.ts:126-140 | state and ticket are `SetFilterSpec` |
| MailStore.MailStore.SetSearchQuery | src/lib/store/mail.ts:142-156 | state and ticket are `SetSearchQuerySpec` |
| MailStore.MailStore.ClearSearch | src/lib/store/mail.ts:158-170 | state and ticket are `ClearSearchSpec` |
| MailStore.MailStore.SetPage | src/lib/store/mail.ts:172-184 | state and ticket are `SetPageSpec` |
| MailStore.MailStore.FetchStats | src/lib/store/mail.ts:237-248 | the new state is `FetchStatsSpec` |
| MailStore.MailStore.MarkAsRead | src/lib/store/mail.ts:314-333 | sends a read update for that mail, and the new state is `MarkReadSpec` |
| MailStore.MailStore.MarkAsUnread | src/lib/store/mail.ts:335-354 | sends an unread update for that mail, and the new state is `MarkUnreadSpec` |
| MailStore.MailStore.ToggleStar | src/lib/store/mail.ts:356-376 | sends the toggled mark, and the new state is `ToggleStarSpec` |
| MailStore.MailStore.Remove | src/lib/store/mail.ts:388-400 | the list, total, page cache and selected mail become `RemoveMailSpec` after a successful removal |
| MailStore.MailStore.MoveTo | src/lib/store/mail.ts:407-431 | sends the mark; on success it removes the mail and its cached detail and refreshes the stats; on failure nothing changes |
| MailStore.MailStore.DeleteMail | src/lib/store/mail.ts:378-405 | sends Deleted in Trash and Trash elsewhere; on success it removes the mail and its cached detail |
| MailStore.MailStore.ToggleSelect | src/lib/store/mail.ts:434-444 | the new state is `ToggleSelectSpec` |
| MailStore.MailStore.SelectAll | src/lib/store/mail.ts:446-450 | the new state is `SelectAllSpec` |
| MailStore.MailStore.ClearSelection | src/lib/store/mail.ts:452-454 | only the selection is emptied |
| MailStore.MailStore.DeleteDetails | src/lib/store/mail.ts:469 | the loop leaves exactly `WithoutAll` of the old entries: the given ids are gone and the others keep their least-recently-used order |
| MailStore.MailStore.RemoveSelected | src/lib/store/mail.ts:469-477 | the selected mails leave the list, the total drops floored at 0, and the page cache empties |
| MailStore.MailStore.BatchDelete | src/lib/store/mail.ts:456-482 | request and state are `BatchDeleteSpec`; on success the detail cache is the old entries without the selected ids, in their old order, and otherwise it is unchanged |
| MailStore.MailStore.BatchMarkRead | src/lib/store/mail.ts:484-513 | request and state are `BatchMarkReadSpec` |
| MailStore.MailStore.BatchMarkUnread | src/lib/store/mail.ts:515-544 | request and state are `BatchMarkUnreadSpec` |
| MailStore.MailStore.BatchStar | src/lib/store/mail.ts:546-574 | request and state are `BatchStarSpec` |
| MailStore.MailStore.EmptyTrash | src/lib/store/mail.ts:576-598 | request and state are `EmptyTrashSpec`, followed on success by a refetch and a stats refresh |
| MailStore.MailStore.MarkShownRead | src/lib/store/mail.ts:281-283 | a shown unread mail is marked read: state and request are `AfterShow` |
| MailStore.MailStore.StartSelect | src/lib/store/mail.ts:250-292 | state, cache and requests are `StartSelectSpec` |
| MailStore.MailStore.FinishSelect | src/lib/store/mail.ts:293-311 | state, cache and request are the corrected `FinishSelectSpec` |
| MailList.Run | src/components/mailbox/mail-list.tsx:61 | a run lists the pages from lo to hi, one each |
| MailList.GetPageNumbers | src/components/mailbox/mail-list.tsx:56-82 | the loop builds exactly the page list `PageNumbers` |
| MailList.SmallTotalListsEveryPage | src/components/mailbox/mail-list.tsx:60-62 | with at most 5 pages every page 1..total is listed, in order |
| MailList.FirstAndLastShown | src/components/mailbox/mail-list.tsx:64-80 | with more than 5 pages the list starts with 1 and ends with total |
| MailList.EllipsisPlacement | src/components/mailbox/mail-list.tsx:66-78 | an ellipsis follows 1 exactly when current > 3, and precedes total exactly when current < total - 2 |
| MailList.PagesIncreasingInRange | src/components/mailbox/mail-list.tsx:56-82 | page numbers strictly increase and stay within 1..total |
| MailList.CurrentPageShown | src/components/mailbox/mail-list.tsx:56-82 | the current page is always listed |
| MailList.EllipsisHidesPages | src/components/mailbox/mail-list.tsx:66-78 | an ellipsis stands for at least one hidden page, and neighbouring numbers are consecutive |
| MailList.RangeLabelTiles | src/components/mailbox/mail-list.tsx:269 | the range label covers at most 30 mails, and consecutive pages' ranges tile without gaps up to total |
| MailList.NavigationStaysInRange | src/components/mailbox/mail-list.tsx:276-302 | Prev and Next are disabled exactly at the first and last page, enabled ones stay in range, and every page button is in range |
| MailListItem.Shortened | src/components/mailbox/mail-list-item.tsx:41-42 | a long wallet address shows 6 characters, "...", and 4 characters |
| MailListItem.SenderDisplay | src/components/mailbox/mail-list-item.tsx:36-47 | a non-empty name is shown as is, and an address without '@' is shown as is |
| MailListItem.NamelessSenderShowsLocalPart | src/components/mailbox/mail-list-item.tsx:39-44 | otherwise a long "0x" local part is shortened to its first 6 and last 4 characters, and any other local part is shown whole |
| MailListItem.AtMailDomainShowsName | src/components/mailbox/mail-list-item.tsx:39-44 | a short account at the mail domain shows as the account name |
| RecipientInput.NormalizeAddress | src/components/mailbox/recipient-input.tsx:57-61 | trims and lowers the input, and appends "@mmail.ink" exactly when it has no '@' |
| RecipientInput.NormalizeIsNormal | src/components/mailbox/recipient-input.tsx:57-61 | a normalised address has an '@', is lower case and has no outer whitespace |
| RecipientInput.NormalizeIdempotent | src/components/mailbox/recipient-input.tsx:57-61 | normalising twice is normalising once |
| RecipientInput.BareNameGetsDomain | src/components/mailbox/recipient-input.tsx:59-60 | a bare lower-case name becomes name@mmail.ink |
| RecipientInput.BareNameIsLocalPart | src/components/mailbox/recipient-input.tsx:71 | the recipient name of a bare account is the account |
| RecipientInput.Removed | src/components/mailbox/recipient-input.tsx:79-81 | exactly the entry at the index is dropped, and the others keep their order |
| RecipientInput.AddKeepsAddressesDistinct | src/components/mailbox/recipient-input.tsx:63-77 | an accepted new address is appended with its local part as name, and addresses stay distinct |
| RecipientInput.AddTwiceIsAddOnce | src/components/mailbox/recipient-input.tsx:67-70 | adding the same input twice adds it once |
| RecipientInput.BlankInputIgnored | src/components/mailbox/recipient-input.tsx:65 | blank input adds nothing and changes nothing |
| RecipientInput.RemovedKeepsDistinct | src/components/mailbox/recipient-input.tsx:79-81 | removal keeps addresses distinct |
| RecipientInput.ArrowsStayInRange | src/components/mailbox/recipient-input.tsx:97-104 | ArrowDown never passes the last suggestion and ArrowUp never goes below -1 |
| RecipientInput.BackspaceRemovesLast | src/components/mailbox/recipient-input.tsx:91-96 | Backspace on empty input removes the last recipient |
| RecipientInput.KeysKeepInvariant | src/components/mailbox/recipient-input.tsx:83-108 | every key keeps the addresses distinct and the highlight in range |
| RecipientInput.TypeSpec | src/components/mailbox/recipient-input.tsx:133-137 | typing keeps the recipients, sets the input and resets the highlight |
| RecipientInput.RecipientField.constructor | src/components/mailbox/recipient-input.tsx:23-26 | the field starts with the given recipients, empty input, no suggestions and no highlight |
| RecipientInput.RecipientField.Type | src/components/mailbox/recipient-input.tsx:133-137 | the new state is `TypeSpec` |
| RecipientInput.RecipientField.ReceiveSuggestions | src/components/mailbox/recipient-input.tsx:30-41 | fetched suggestions replace the list, and a failure empties it |
| RecipientInput.RecipientField.AddRecipient | src/components/mailbox/recipient-input.tsx:63-77 | the new state is `AddSpec` |
| RecipientInput.RecipientField.RemoveRecipient | src/components/mailbox/recipient-input.tsx:79-81 | the recipients become `Removed` |
| RecipientInput.RecipientField.HandleKeyDown | src/components/mailbox/recipient-input.tsx:83-108 | the new state is `KeySpec` |

## Left out

- `addAttachment` (src/lib/store/compose.ts:288-374) is not modelled. It is an asynchronous upload with progress callbacks and `File`/`FileReader` handling. Its hashes are modelled by `CryptoMail.EncryptAttachmentForUpload`, and its list entries are the `ComposeAttachment` records the rest of the model uses.
- `closeCompose`'s best-effort save before closing is not modelled: it is a fire-and-forget call behind a dynamic import. `ComposeStore.ComposeStore.CloseCompose` only closes.
- Timers are not modelled: the composer's autosave, the mail list's 30-second refresh and the 300 ms suggestion debounce. A suggestion response that arrives after newer typing is not modelled either.
- The store refresh after sending (src/lib/store/compose.ts:571-572) is not modelled. It triggers the mailbox store's own `fetchMails`/`fetchStats`, which are modelled separately.
- The transport is not modelled: axios requests, base64 ids, 401 redirects and the login sequence. Server answers are parameters.
- ECDH, AES-GCM, CryptoJS AES, SHA-256, Keccak-256, `atob`/`btoa` and key-pair generation are uninterpreted functions with laws. Security is not modelled. CryptoJS decryption with a wrong key is not assumed to fail.
- Randomness (the salt bytes, the content-key bytes) and the clock (`new Date().toISOString()`) are parameters.
- CryptoMail.ResolvePrivateKey: a wallet is a function, so signing the same salt twice gives the same signature. This is how the model treats `sendMail`'s second key resolution, which is also served by the session cache whenever a window exists.
- Text.ToLower: lowers ASCII letters only. JavaScript's full Unicode case mapping is not modelled.
- The mailbox store's `detailLoading` flag is not modelled; it only drives a spinner.
- MailStore.StartSelectSpec: the draft path of `selectMail` only reports that a draft should open. The composer side of it is `ComposeStore.ComposeStore.OpenDraft`.
- Only `fetchMails` and `selectMail` are split at their awaits. The other actions are modelled as if their request completed before any other action ran.
- `emptyTrash` does not remove the emptied mails from the detail cache, as in the source.
- Download failures are returned as an `Err` result; the source only logs them.
- Date, size and locale formatting (`formatDate`, `formatSize`) and all presentation-only components are not modelled.

The client cannot read a mail sent without encryption. When a mail cannot be encrypted, `sendMail` sends the content key in clear as `mail_decryption_key` (src/lib/store/compose.ts:567). `decryptMail` never reads that field, and it fails with "Mail is missing encryption keys" when the key arrays are empty (src/lib/crypto/mail.ts:127-129). The model follows the code, and `Protocol.ClearKeyMailIsUnreadable` states the consequence.

## Findings

| source | as written | input that shows it | evidently intended | confidence | as-written member | corrected member |
|---|---|---|---|---|---|---|
| src/lib/store/mail.ts:293-311 | after the detail fetch completes, `selectedMailDetail` is set unconditionally, without checking that the fetched mail is still the selected one | select mail a, which is not cached; before its fetch returns, select mail b, which is cached; a's detail then arrives and is shown while b is selected | a fetched detail is shown only while its mail is still selected | not executed | MailStore.FinishSelectAsWritten | MailStore.FinishSelectSpec |
