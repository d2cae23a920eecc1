/**
 * The enums and record shapes the mail client shares between its stores,
 * crypto helpers and views, and the failures its asynchronous steps raise.
 *
 * Optional strings of the wire format (`part_text`, `part_html`,
 * `in_reply_to`) are plain strings with "" for "absent": every place that
 * reads them only tests them for truthiness, which treats both alike.
 * Optional lists (`mail_to`, `mail_cc`, `mail_bcc`, the two key arrays,
 * `mail_reference`) stay `Option`s, because the key logic distinguishes an
 * absent array from an empty one.
 */
module Types {
  import opened Wrappers

  /** The default of the mail domain appended to bare account names. */
  const EmailDomain: string := "mmail.ink"

  datatype MailBoxType = Inbox | Sent | Draft

  datatype MetaMailType = Plain | Signed | Encrypted

  datatype ReadStatus = Unread | Read

  datatype MarkType = Normal | Starred | Trash | Spam | Deleted

  datatype FilterType = Inbox | Encrypted | Sent | Trash | Draft | Starred | Spam | Read | Unread

  /** The numeric value of a filter, which is what `${filter}` renders in cache keys. */
  function FilterCode(f: FilterType): (n: nat)
    ensures n < 9
  {
    match f
    case Inbox => 0
    case Encrypted => 1
    case Sent => 2
    case Trash => 3
    case Draft => 4
    case Starred => 5
    case Spam => 6
    case Read => 7
    case Unread => 8
  }

  lemma FilterCodeInjective(f: FilterType, g: FilterType)
    ensures FilterCode(f) == FilterCode(g) ==> f == g
  {
  }

  datatype PersonItem = PersonItem(name: string, address: string)

  /** The two positional key arrays of a mail's `meta_header`. */
  datatype MetaHeader = MetaHeader(encryptedKeys: Option<seq<string>>, publicKeys: Option<seq<string>>)

  datatype AttachmentItem = AttachmentItem(
    attachmentId: string,
    filename: string,
    contentType: string,
    size: int,
    encryptedSha256: string,
    plainSha256: string,
    downloadUrl: string)

  /** A mail as the list endpoint returns it. */
  datatype MailItem = MailItem(
    messageId: string,
    mailbox: MailBoxType,
    mark: MarkType,
    read: ReadStatus,
    metaType: MetaMailType,
    metaHeader: Option<MetaHeader>,
    subject: string,
    mailFrom: PersonItem,
    mailTo: Option<seq<PersonItem>>,
    mailCc: Option<seq<PersonItem>>,
    mailBcc: Option<seq<PersonItem>>,
    mailDate: string,
    inReplyTo: string,
    replyTo: Option<PersonItem>,
    mailReference: Option<seq<string>>)

  /** A mail with its body parts and attachments, as the detail endpoint returns it. */
  datatype MailDetail = MailDetail(
    item: MailItem,
    partText: string,
    partHtml: string,
    attachments: Option<seq<AttachmentItem>>)

  /** The signed-in account as the login flow stores it. */
  datatype UserInfo = UserInfo(
    address: string,
    ensName: string,
    publicKey: string,
    encryptedPrivateKey: string,
    salt: string)

  /**
   * Why an asynchronous step stopped: the wallet user declined a signature
   * (code "ACTION_REJECTED" or 4001), or any other thrown error with its message.
   */
  datatype Failure = Rejected | Failed(message: string)

  /** `xs || []`: an absent list reads as empty. */
  function OrEmpty<T>(o: Option<seq<T>>): seq<T> {
    match o
    case Some(xs) => xs
    case None => []
  }
}
