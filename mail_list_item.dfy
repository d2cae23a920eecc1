/**
 * How a list row names its sender (src/components/mailbox/mail-list-item.tsx):
 * the sender's name when it has one, else the local part of the address,
 * with long wallet ("0x...") local parts shortened to their two ends.
 */
module MailListItem {
  import opened Types
  import opened Text

  /** A wallet local part long enough to be shortened. */
  predicate IsLongWallet(local: string) {
    StartsWith(local, "0x") && |local| > 12
  }

  /** The first six and the last four characters, joined by "...". */
  function Shortened(local: string): (r: string)
    requires |local| > 12
    ensures |r| == 13 && r[6..9] == "..."
  {
    local[..6] + "..." + local[|local| - 4..]
  }

  /** `getSenderDisplay`. */
  function SenderDisplay(mail: MailItem): (r: string)
    ensures mail.mailFrom.name != "" ==> r == mail.mailFrom.name
    ensures mail.mailFrom.name == "" && '@' !in mail.mailFrom.address ==> r == mail.mailFrom.address
  {
    var from := mail.mailFrom;
    if from.name != "" then from.name
    else if '@' in from.address then
      var local := LocalPart(from.address);
      if IsLongWallet(local) then Shortened(local) else local
    else from.address
  }

  /**
   * A nameless sender with an address is shown by its local part: whole, or
   * for a long wallet address as its "0x" prefix with two more characters
   * and its last four characters. The display holds no '@' and is never
   * longer than the local part.
   */
  lemma NamelessSenderShowsLocalPart(mail: MailItem)
    requires mail.mailFrom.name == "" && '@' in mail.mailFrom.address
    ensures var r := SenderDisplay(mail); var local := LocalPart(mail.mailFrom.address);
      && '@' !in r
      && |r| <= |local|
      && (r == local || (IsLongWallet(local) && r == Shortened(local)))
      && (IsLongWallet(local) ==> StartsWith(r, "0x") && r[..6] == local[..6] && r[9..] == local[|local| - 4..])
      && (!IsLongWallet(local) ==> r == local)
  {
    var local := LocalPart(mail.mailFrom.address);
    if IsLongWallet(local) {
      var r := Shortened(local);
      assert r[..2] == local[..2];
      assert '@' !in local[..6] && '@' !in local[|local| - 4..];
    }
  }

  /** A nameless sender at the mail domain with a local part of at most 12 characters is shown by that local part. */
  lemma AtMailDomainShowsName(name: string, mail: MailItem)
    requires '@' !in name && |name| <= 12
    requires mail.mailFrom == PersonItem("", name + "@" + EmailDomain)
    ensures SenderDisplay(mail) == name
  {
    LocalPartOfConcat(name, EmailDomain);
    assert '@' in mail.mailFrom.address by {
      assert mail.mailFrom.address[|name|] == '@';
    }
  }
}
