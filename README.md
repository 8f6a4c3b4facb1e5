# Drive permission checker — a verified model

The checker is a single Google Apps Script batch pass (`src/main.js`). It
walks a Google Drive folder tree depth first. It skips every file whose name
contains the ignore keyword. For every other file it checks the sharing
permissions against an allow-list of address suffixes. It collects one
violation record per offending file. If the list is not empty, it posts a
Slack message about the list; otherwise it logs that nothing was wrong.

This project models the three parts of that pass in Dafny and proves what
each of them promises:

- **Policy evaluation** (`validatePermissions`), in `policy.dfy`. The
  function `Policy.Reasons` specifies it. The method
  `Policy.ValidatePermissions` is the source's loop, proved equal to that
  function. The reasons are a datatype (`LinkSharing`,
  `ExternalShare(email, role)`). `Drive.ReasonText` renders a reason with the
  source's message texts.
- **Report building** (the attachment list of `postSlack`), in `report.dfy`.
  It keeps the first 30 records as detail blocks, in order. It adds one
  summary block with the number left out only when there are more than 30
  records.
- **Tree walk and run** (`walkFolder` and `main`), in `walker.dfy`.
  `Drive.Files.list` is an oracle: a function from (folder id, page token) to
  a page or a failure. The caller's `outputList` is the class
  `Walker.ViolationList`, and `Walker.WalkFolder` / `Walker.WalkPageItems`
  are the paging loop and the item loop that push onto it. Both are proved
  against the functions `Walker.WalkPages` / `Walker.WalkItems`. `main` is
  `Walker.RunAudit`, proved against `Walker.Audit`.

The configuration (`SAFE_DOMAINS`, `IGNORE_KEYWORD`) is a `Settings` value
passed in, not a global. `scenarios.dfy` proves the outcome of the audit on
small concrete trees under the source's own configuration.

JavaScript truthiness is kept where the source relies on it:
- an email address that is absent or `""` counts as absent (`!p.emailAddress`);
- a page token that is absent or `""` ends the paging (`while (pageToken)`);
- a missing `files` field is an empty page (`res.files || []`);
- a missing `permissions` field means "no violations". An empty permissions
  array is truthy in JavaScript and is evaluated, but it yields no reasons
  either.

Two behaviours of the code are modelled as written:
- The code returns on any empty page, whatever its next token, so later pages
  are never requested. `Scenarios.EmptyPageHidesLaterPages` shows a violation
  that goes unreported because of this.
- Roles and principal types are compared as strings (`'owner'`, `'anyone'`).

Suffix matching has no domain boundary: with `gmail.com` allow-listed,
`mallory@notgmail.com` counts as safe (`Policy.SuffixMatching`). An empty
ignore keyword exempts every file, and an empty allow-list entry makes every
address safe. These are consequences of `includes` and `endsWith`, and they
are modelled as written.

## Model

| member | source | states |
|---|---|---|
| `Strings.EndsWith` | src/main.js:71 | `endsWith`: the last characters of the address are the allow-listed entry; characterised by `EndsWithIff` |
| `Strings.Contains` | src/main.js:40 | `includes`: the keyword occurs as a contiguous block of the name; characterised by `ContainsIff` |
| `Strings.Join` | src/main.js:90 | `join`: no parts give "", one part gives itself, otherwise the parts separated by `sep`; `JoinContainsPart` states what it keeps |
| `Strings.EndsWithIff` | src/main.js:71 | `endsWith` holds exactly when the address is some prefix followed by the allow-listed entry (suffix, not equality) |
| `Strings.ContainsIff` | src/main.js:40 | `includes` holds exactly when the name is some text, the keyword, then some text |
| `Strings.JoinContainsPart` | src/main.js:90 | every part of `join('\n')` appears in the joined text |
| `Strings.MissingCharNotContained` | src/main.js:40 | a name lacking one character of the keyword does not contain it |
| `Drive.IsFolder` | src/main.js:36 | an item is a folder iff its MIME type is exactly `application/vnd.google-apps.folder`; every other item is handled as a file |
| `Drive.ReasonText` | src/main.js:64-73 | the message line of a reason, with the source's two texts; a line starts with the external-share prefix iff its reason is an external share, so the two kinds of line never coincide |
| `Drive.ExternalShareTextNamesGrantee` | src/main.js:73 | the external-share line contains the address and the role |
| `Policy.IsSafe` | src/main.js:71 | an address is safe iff some allow-listed entry is a suffix of it |
| `Policy.AnyoneWithLink` | src/main.js:63 | true iff some permission has type `anyone` |
| `Policy.HasEmail` | src/main.js:69 | `!p.emailAddress` is false: the address is present and not empty |
| `Policy.Flagged` | src/main.js:69-72 | the domain loop reports a permission iff it is not an owner, has an address, and no allow-listed entry is a suffix of that address |
| `Policy.ExternalReason` | src/main.js:73 | the external-share reason of a permission: its address and its role |
| `Policy.ExternalShareReasons` | src/main.js:67-75 | no more reasons than permissions, all of them external-share reasons; `ExternalShareReasonsSplit` gives the per-permission statement |
| `Policy.Reasons` | src/main.js:57-78 | empty when the file is not shared or has no permissions field; at most 1 + number of permissions; the link reason is present iff some permission is `anyone`, and then it comes first and occurs exactly once |
| `Policy.ValidatePermissions` | src/main.js:57-78 | the push loop returns exactly `Reasons(settings, file)` |
| `Policy.ExternalShareReasonsAppend` | src/main.js:68-75 | the domain check over `a + b` is its result over `a` followed by its result over `b` |
| `Policy.ExternalShareReasonsSplit` | src/main.js:68-75 | a permission contributes, in its own place, exactly one reason `ExternalShare(email, role)` iff it is a non-owner with an address matching no safe suffix, and nothing otherwise |
| `Policy.OwnerOrAddresslessIsSilent` | src/main.js:69 | an owner entry, or one without an address, can be removed without changing the reasons |
| `Policy.ExternalShareReasonsMembers` | src/main.js:68-75 | a domain reason is present iff it is the reason of some flagged permission |
| `Policy.ExternalShareReasonsInOrder` | src/main.js:68-75 | reasons of flagged permissions `i < j` stand at strictly increasing positions, each at the count of reasons before it |
| `Policy.SuffixMatching` | src/main.js:71 | suffix matching is case-sensitive and has no domain boundary (`notgmail.com` passes `gmail.com`) |
| `Report.ReasonTexts` | src/main.js:90 | one text per reason, in order |
| `Report.DetailBlock` | src/main.js:86-91 | the danger block of one record: its name as title, its url as title link, its reason lines joined by newlines (`ShownBlockListsReasons` shows each reason appears in it) |
| `Report.DetailBlocks` | src/main.js:86-91 | one danger block per record, in order, with title, link and the joined reasons |
| `Report.Attachments` | src/main.js:84-98 | `min(L, 30)` detail blocks for the first records in order, plus a summary block iff `L > 30`, and that summary reports `L - 30` |
| `Report.BuildMessage` | src/main.js:104-105 | the payload: the total number of records in the top-level text, and the blocks of `Attachments` |
| `Report.ShownBlockListsReasons` | src/main.js:86-91 | every reason of a shown record appears in its block's text |
| `Report.FortyFiveViolations` | src/main.js:85-98 | 45 records give 31 blocks, the last one reporting 15 omitted, and a total of 45 |
| `Walker.PageItems` | src/main.js:32 | `res.files || []`: a page without a `files` field has no items |
| `Walker.HasNextPage` | src/main.js:52-53 | `while (pageToken)`: paging goes on only when a token is present and not empty |
| `Walker.FileRecords` | src/main.js:39-49 | the records one file adds; `FileRecordsValid` states them |
| `Walker.WalkPages` | src/main.js:20-54 | the walk of a folder from a page on never returns more budget than it was given |
| `Walker.WalkItems` | src/main.js:35-51 | the walk of a page's items never returns more budget than it was given |
| `Walker.ViolationList.constructor` | src/main.js:9 | the run's list starts empty |
| `Walker.ViolationList.Push` | src/main.js:44-48 | `push` appends one record and changes nothing else |
| `Walker.WalkFolder` | src/main.js:20-54 | the do-while paging loop only appends to `outputList`, and what it appends, the budget left and the failure are those of `WalkPages` from the first page |
| `Walker.WalkPageItems` | src/main.js:35-51 | the item loop only appends to `outputList`, exactly the records of `WalkItems` |
| `Walker.CheckFile` | src/main.js:39-49 | a file branch appends the file's record, or nothing when it is exempt or has no reasons |
| `Walker.PagesStep` | src/main.js:24-33 | unfolding helper of `WalkPages` for the loop proofs, one case per outcome of a listing call: a failure aborts; an empty page ends the folder whatever its next token; otherwise the items are walked, then the next page if a token is present |
| `Walker.ItemsStepFolder` | src/main.js:36-37 | unfolding helper of `WalkItems` for the loop proofs: a sub-folder is walked in full before the next item, and its failure stops the page |
| `Walker.ItemsStepFile` | src/main.js:38-50 | unfolding helper of `WalkItems` for the loop proofs: a file adds its records before the next item's |
| `Walker.FileRecordsValid` | src/main.js:40-49 | unfolding helper of `FileRecords` used by `ItemsRecordsValid`: a file adds nothing iff its name contains the ignore keyword or it has no reasons; otherwise it adds its record |
| `Walker.PagesRecordsValid` | src/main.js:24-53 | every record a folder walk appends is the record of a file the listing returned on some page, not a folder, whose name lacks the keyword: its name, its link and its non-empty reasons |
| `Walker.ItemsRecordsValid` | src/main.js:35-51 | every record of the walk of a list of items is the record, in the same sense, of one of those items, or the record of a file the listing returns on some page |
| `Walker.WalkItemsAppend` | src/main.js:35-51 | walking items `a + b` is walking `a`, then `b` unless `a` failed, so earlier items' records (whole subtrees included) precede later ones |
| `Walker.PagesBudgetIrrelevant` | src/main.js:20-54 | a walk that does not exhaust its budget gives the same records and outcome under any larger budget |
| `Walker.ItemsBudgetIrrelevant` | src/main.js:35-51 | the same for the walk of a page's items |
| `Walker.Audit` | src/main.js:8-17 | the outcome of `main`: aborted by a failed walk, a notification for a non-empty list, clean otherwise; `AuditOutcome` states it in both directions |
| `Walker.AuditOutcome` | src/main.js:8-17 | a notification is sent iff the walk completed and found violations, stating their number and showing only records of evaluated files the listing returned; a clean result iff it completed with none; a failed walk is never reported |
| `Walker.RunAudit` | src/main.js:8-17 | `main` produces exactly the outcome `Audit` describes |
| `Scenarios.ExemptFileIsIgnored` | src/main.js:40 | a file named with the keyword and open to anyone is skipped: the run is clean |
| `Scenarios.BudgetFileReasons` | src/main.js:57-78 | owner without address plus reader `bob@external.com` gives exactly one external-share reason |
| `Scenarios.BudgetWalk` | src/main.js:20-54 | that file alone in the root yields exactly its record |
| `Scenarios.BudgetBlock` | src/main.js:86-91 | its block reads `🚫 外部共有: bob@external.com [reader]` |
| `Scenarios.ExternalReaderIsReported` | src/main.js:8-17 | the run sends one notification with one block for that file |
| `Scenarios.NestedFailureAborts` | src/main.js:25-37 | a listing failure in a sub-folder aborts the run, though a violation was found before it |
| `Scenarios.EmptyPageHidesLaterPages` | src/main.js:33 | an empty first page with a next token ends the folder, so a violation on the next page is never seen |

## Left out

- `Drive.Files.list` (src/main.js:25-30): the query string, the `trashed = false` filter, the field selector and the page size of 1000 belong to the remote API. The model replaces the call with a deterministic listing oracle.
- Walker.WalkFolder: the source has no bound on the walk. The model gives it a budget of listing calls, so that Dafny can prove termination; running out aborts the walk like a failed listing. `Walker.PagesBudgetIrrelevant` shows that this changes nothing for a walk that finishes within its budget. Trees that are cyclic, or whose paging never ends, are not modelled beyond the budget.
- Exceptions are modelled as a `Failure` outcome that aborts the run before any report. The Slack delivery and its failure (src/main.js:100-107) are not modelled: `UrlFetchApp.fetch`, `JSON.stringify` and the webhook URL are network I/O and serialisation.
- Report.Attachments: the summary block keeps the number of omitted records, not the formatted Japanese sentence. The top-level text is modelled as the total count (`Message.total`) only, and the block colours are the constructor names `Danger` and `Warning`.
- `console.log` (src/main.js:15, 82) is logging only. The clean case is the outcome `Clean`.
- Strings are sequences of Unicode characters, while JavaScript compares UTF-16 code units. The two agree on `endsWith` and `includes` for well-formed text.
- Missing `name`, `role` or `webViewLink` fields (JavaScript `undefined`) are not modelled. These fields are plain strings in the model.
