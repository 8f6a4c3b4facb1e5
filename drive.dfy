/** The records the audit reads from a Drive listing page and the records it
    produces: files and folders with their permission entries, the
    configuration of a run, the violation reasons and the violation records. */
module Drive {
  import opened Wrappers
  import opened Strings

  /** The MIME type Drive gives to folders; every other item is a file. */
  const FolderMimeType: string := "application/vnd.google-apps.folder"

  /** One permission entry as listed: `type` ("user", "group", "domain",
      "anyone"), `role` ("owner", "writer", "commenter", "reader", ...) and an
      email address that is absent for link and domain shares. */
  datatype Permission = Permission(kind: string, role: string, emailAddress: Option<string>)

  /** One listed item, with the fields the listing request selects:
      `id`, `name`, `mimeType`, `webViewLink`, `permissions` and `shared`.
      The permissions field may be missing from the listing. */
  datatype Item = Item(
    id: string,
    name: string,
    mimeType: string,
    webViewLink: string,
    permissions: Option<seq<Permission>>,
    shared: bool)

  predicate IsFolder(item: Item) {
    item.mimeType == FolderMimeType
  }

  /** The run's configuration: the allow-listed suffixes (domains or full
      addresses) and the keyword that exempts a file from the check. */
  datatype Settings = Settings(safeDomains: seq<string>, ignoreKeyword: string)

  /** A violation reason: the file is open to anyone with the link, or it is
      shared with an address outside the allow-list, in the given role. */
  datatype Reason = LinkSharing | ExternalShare(email: string, role: string)

  /** One violating file: its name, its view link and its reasons in
      detection order. */
  datatype Violation = Violation(name: string, url: string, errors: seq<Reason>)

  const LinkSharingText: string := "⚠️ リンクを知っている全員がアクセス可能"
  const ExternalSharePrefix: string := "🚫 外部共有: "

  /** The message line of a reason, as it appears in the notification. The
      line starts with the external-share prefix exactly when the reason is
      an external share, so the two kinds of line are never confused. */
  function ReasonText(r: Reason): (t: string)
    ensures ExternalSharePrefix <= t <==> r.ExternalShare?
  {
    match r
    case LinkSharing =>
      assert LinkSharingText[0] != ExternalSharePrefix[0];
      LinkSharingText
    case ExternalShare(email, role) => ExternalSharePrefix + email + " [" + role + "]"
  }

  /** An external-share line names the address and the role it was given. */
  lemma ExternalShareTextNamesGrantee(email: string, role: string)
    ensures Contains(ReasonText(ExternalShare(email, role)), email)
    ensures Contains(ReasonText(ExternalShare(email, role)), role)
  {
    var t := ReasonText(ExternalShare(email, role));
    var p := |ExternalSharePrefix|;
    assert t[p..p + |email|] == email;
    assert OccursAt(t, email, p);
    var q := p + |email| + 2;
    assert t[q..q + |role|] == role;
    assert OccursAt(t, role, q);
  }
}
