/** The depth-first walk of a folder tree over a paginated listing
    (`walkFolder`) and the run that follows it (`main`).

    The listing is an oracle: a function from a folder identifier and a page
    token to a page (the items and the next token) or a failure. The source
    has no bound on the walk; the model gives the walk a budget of listing
    calls, and a walk that exhausts it aborts like one whose listing failed.
    `PagesBudgetIrrelevant` shows that the budget never changes a walk that
    finishes within it. */
module Walker {
  import opened Wrappers
  import opened Strings
  import opened Drive
  import opened Policy
  import opened Report

  /** What aborts a run: a listing call that throws, or the budget running out. */
  datatype Failure = ListingFailed | BudgetExhausted

  /** The answer to one listing call: a page, whose `files` field may be
      missing, with an optional `nextPageToken`; or an exception. */
  datatype ListResponse =
    | Listed(files: Option<seq<Item>>, nextPageToken: Option<string>)
    | ListFailed

  /** `Drive.Files.list` restricted to one parent folder: a deterministic
      function of the folder identifier and the page token. */
  type Listing = (string, Option<string>) -> ListResponse

  /** The effect of walking part of the tree: the records pushed onto the
      output list, in order, the budget left, and the failure that stopped
      the walk, if any (records pushed before a failure stay pushed). */
  datatype Walk = Walk(found: seq<Violation>, budget: nat, failure: Option<Failure>)

  function Prepend(found: seq<Violation>, w: Walk): Walk {
    Walk(found + w.found, w.budget, w.failure)
  }

  /** `res.files || []` */
  function PageItems(res: ListResponse): seq<Item>
    requires res.Listed?
  {
    if res.files.Some? then res.files.value else []
  }

  /** `while (pageToken)`: a token that is present and not empty. */
  predicate HasNextPage(token: Option<string>) {
    token.Some? && token.value != ""
  }

  /** The walk of one folder from the page named by `token` onwards: list the
      page; an empty page ends the folder at once whatever its token; else
      walk the items, then the next page if there is one. */
  function WalkPages(settings: Settings, list: Listing, folderId: string, token: Option<string>, budget: nat): (w: Walk)
    ensures w.budget <= budget
    decreases budget, 0, 0
  {
    if budget == 0 then Walk([], 0, Some(BudgetExhausted))
    else
      var res := list(folderId, token);
      if res.ListFailed? then Walk([], budget - 1, Some(ListingFailed))
      else
        var files := PageItems(res);
        if |files| == 0 then Walk([], budget - 1, None)
        else
          var w := WalkItems(settings, list, files, budget - 1);
          if w.failure.Some? || !HasNextPage(res.nextPageToken) then w
          else Prepend(w.found, WalkPages(settings, list, folderId, res.nextPageToken, w.budget))
  }

  /** The walk of the items of one page, in order: a folder is walked in
      full before the next item; a file whose name contains the ignore
      keyword is skipped; another file yields a record when it has reasons. */
  function WalkItems(settings: Settings, list: Listing, items: seq<Item>, budget: nat): (w: Walk)
    ensures w.budget <= budget
    decreases budget, 1, |items|
  {
    if |items| == 0 then Walk([], budget, None)
    else
      var item := items[0];
      if IsFolder(item) then
        var sub := WalkPages(settings, list, item.id, None, budget);
        if sub.failure.Some? then sub
        else Prepend(sub.found, WalkItems(settings, list, items[1..], sub.budget))
      else Prepend(FileRecords(settings, item), WalkItems(settings, list, items[1..], budget))
  }

  /** The records one file adds: none when its name contains the ignore
      keyword, else one record when its reasons are not empty. */
  function FileRecords(settings: Settings, file: Item): seq<Violation> {
    if Contains(file.name, settings.ignoreKeyword) then []
    else
      var errors := Reasons(settings, file);
      if |errors| > 0 then [Violation(file.name, file.webViewLink, errors)] else []
  }

  /** The caller's `outputList`, which the walk pushes records onto. */
  class ViolationList {
    var records: seq<Violation>

    constructor ()
      ensures records == []
    {
      records := [];
    }

    method Push(v: Violation)
      modifies this
      ensures records == old(records) + [v]
    {
      records := records + [v];
    }
  }

  /** `walkFolder(folderId, outputList)`: pages through the folder with a
      do-while loop on the page token; an empty page returns at once. */
  method WalkFolder(settings: Settings, list: Listing, folderId: string, budget: nat, outputList: ViolationList)
    returns (left: nat, failure: Option<Failure>)
    modifies outputList
    decreases budget, 0
    ensures var w := WalkPages(settings, list, folderId, None, budget);
      outputList.records == old(outputList.records) + w.found && left == w.budget && failure == w.failure
  {
    ghost var target := WalkPages(settings, list, folderId, None, budget);
    left := budget;
    var pageToken: Option<string> := None;
    ghost var done: seq<Violation> := [];
    PrependNothing(target);
    while true
      invariant left <= budget
      invariant outputList.records == old(outputList.records) + done
      invariant target == Prepend(done, WalkPages(settings, list, folderId, pageToken, left))
      decreases left
    {
      ghost var rest := WalkPages(settings, list, folderId, pageToken, left);
      PagesStep(settings, list, folderId, pageToken, left);
      if left == 0 {
        assert rest == Walk([], 0, Some(BudgetExhausted));
        return 0, Some(BudgetExhausted);
      }
      left := left - 1;
      var res := list(folderId, pageToken);
      if res.ListFailed? {
        return left, Some(ListingFailed);
      }
      var files := PageItems(res);
      if |files| == 0 {
        return left, None;
      }
      ghost var page := WalkItems(settings, list, files, left);
      left, failure := WalkPageItems(settings, list, files, left, outputList);
      AppendAssoc(old(outputList.records), done, page.found);
      if failure.Some? || !HasNextPage(res.nextPageToken) {
        return;
      }
      pageToken := res.nextPageToken;
      PrependTwice(done, page.found, WalkPages(settings, list, folderId, pageToken, left));
      done := done + page.found;
    }
  }

  /** The `for (const file of files)` loop of `walkFolder` over one page:
      recurse into a folder, skip an exempt file, push a record for a file
      with reasons. A failure inside a sub-folder propagates at once. */
  method WalkPageItems(settings: Settings, list: Listing, files: seq<Item>, budget: nat, outputList: ViolationList)
    returns (left: nat, failure: Option<Failure>)
    modifies outputList
    decreases budget, 1
    ensures var w := WalkItems(settings, list, files, budget);
      outputList.records == old(outputList.records) + w.found && left == w.budget && failure == w.failure
  {
    ghost var target := WalkItems(settings, list, files, budget);
    left := budget;
    ghost var pageFound: seq<Violation> := [];
    PrependNothing(target);
    var i := 0;
    while i < |files|
      invariant 0 <= i <= |files|
      invariant left <= budget
      invariant outputList.records == old(outputList.records) + pageFound
      invariant target == Prepend(pageFound, WalkItems(settings, list, files[i..], left))
    {
      var file := files[i];
      assert files[i..][0] == file && files[i..][1..] == files[i + 1..];
      if IsFolder(file) {
        ItemsStepFolder(settings, list, files[i..], left);
        ghost var sub := WalkPages(settings, list, file.id, None, left);
        left, failure := WalkFolder(settings, list, file.id, left, outputList);
        AppendAssoc(old(outputList.records), pageFound, sub.found);
        if failure.Some? {
          return;
        }
        PrependTwice(pageFound, sub.found, WalkItems(settings, list, files[i + 1..], left));
        pageFound := pageFound + sub.found;
      } else {
        ItemsStepFile(settings, list, files[i..], left);
        CheckFile(settings, file, outputList);
        PrependTwice(pageFound, FileRecords(settings, file), WalkItems(settings, list, files[i + 1..], left));
        pageFound := pageFound + FileRecords(settings, file);
      }
      i := i + 1;
    }
    assert files[i..] == [];
    failure := None;
  }

  /* Glue for the loop proofs of `WalkFolder` and `WalkPageItems`: Dafny
     knows these facts, but naming them at the call sites keeps those proofs
     within the resource limit. */

  lemma AppendAssoc(a: seq<Violation>, b: seq<Violation>, c: seq<Violation>)
    ensures (a + b) + c == a + (b + c)
  {
  }

  lemma PrependNothing(w: Walk)
    ensures Prepend([], w) == w
  {
  }

  lemma PrependTwice(a: seq<Violation>, b: seq<Violation>, w: Walk)
    ensures Prepend(a, Prepend(b, w)) == Prepend(a + b, w)
  {
  }

  /** One step of `WalkPages`: the listing call and what follows it. */
  lemma PagesStep(settings: Settings, list: Listing, folderId: string, token: Option<string>, budget: nat)
    ensures budget == 0 ==>
      WalkPages(settings, list, folderId, token, budget) == Walk([], 0, Some(BudgetExhausted))
    ensures budget > 0 && list(folderId, token).ListFailed? ==>
      WalkPages(settings, list, folderId, token, budget) == Walk([], budget - 1, Some(ListingFailed))
    ensures budget > 0 && list(folderId, token).Listed? && |PageItems(list(folderId, token))| == 0 ==>
      WalkPages(settings, list, folderId, token, budget) == Walk([], budget - 1, None)
    ensures budget > 0 && list(folderId, token).Listed? && |PageItems(list(folderId, token))| > 0 ==>
      var res := list(folderId, token);
      var w := WalkItems(settings, list, PageItems(res), budget - 1);
      WalkPages(settings, list, folderId, token, budget)
        == if w.failure.Some? || !HasNextPage(res.nextPageToken) then w
           else Prepend(w.found, WalkPages(settings, list, folderId, res.nextPageToken, w.budget))
  {
  }

  /** One step of `WalkItems` at a folder: the sub-folder is walked first. */
  lemma ItemsStepFolder(settings: Settings, list: Listing, items: seq<Item>, budget: nat)
    requires |items| > 0 && IsFolder(items[0])
    ensures var sub := WalkPages(settings, list, items[0].id, None, budget);
      WalkItems(settings, list, items, budget)
        == if sub.failure.Some? then sub
           else Prepend(sub.found, WalkItems(settings, list, items[1..], sub.budget))
  {
  }

  /** One step of `WalkItems` at a file: its records, then the rest. */
  lemma ItemsStepFile(settings: Settings, list: Listing, items: seq<Item>, budget: nat)
    requires |items| > 0 && !IsFolder(items[0])
    ensures WalkItems(settings, list, items, budget)
         == Prepend(FileRecords(settings, items[0]), WalkItems(settings, list, items[1..], budget))
  {
  }

  /** The file branch of the item loop: skip an exempt file, else validate
      its permissions and push a record when there are reasons. */
  method CheckFile(settings: Settings, file: Item, outputList: ViolationList)
    modifies outputList
    ensures outputList.records == old(outputList.records) + FileRecords(settings, file)
  {
    if Contains(file.name, settings.ignoreKeyword) {
      return;
    }
    var errors := ValidatePermissions(settings, file);
    if |errors| > 0 {
      outputList.Push(Violation(file.name, file.webViewLink, errors));
    }
  }

  /** `v` is the record the walk pushes for `file` when it evaluates it:
      the file is not a folder, its name does not contain the ignore
      keyword, and the record carries its name, its link and its reasons,
      of which there is at least one. */
  predicate RecordOf(settings: Settings, file: Item, v: Violation) {
    && !IsFolder(file)
    && !Contains(file.name, settings.ignoreKeyword)
    && v == Violation(file.name, file.webViewLink, Reasons(settings, file))
    && v.errors != []
  }

  /** `file` is on some page the listing returns. */
  ghost predicate OnSomePage(list: Listing, file: Item) {
    exists folderId: string, token: Option<string> ::
      list(folderId, token).Listed? && file in PageItems(list(folderId, token))
  }

  /** `v` is the record of a file that the listing returns on some page (of
      any folder and any page token; reachability from the root is not
      stated). */
  ghost predicate Reported(settings: Settings, list: Listing, v: Violation) {
    exists file :: OnSomePage(list, file) && RecordOf(settings, file, v)
  }

  lemma FileRecordsValid(settings: Settings, file: Item)
    requires !IsFolder(file)
    ensures forall v :: v in FileRecords(settings, file) ==> RecordOf(settings, file, v)
    ensures FileRecords(settings, file) == [] <==>
      Contains(file.name, settings.ignoreKeyword) || Reasons(settings, file) == []
  {
  }

  /** Every record a folder walk pushes is the record of a file the listing
      returns on some page (`Reported`), even when the walk later fails. */
  lemma {:induction false} PagesRecordsValid(settings: Settings, list: Listing, folderId: string, token: Option<string>, budget: nat)
    ensures forall v :: v in WalkPages(settings, list, folderId, token, budget).found ==> Reported(settings, list, v)
    decreases budget, 0, 0
  {
    PagesStep(settings, list, folderId, token, budget);
    if budget > 0 && list(folderId, token).Listed? && |PageItems(list(folderId, token))| > 0 {
      var res := list(folderId, token);
      var w := WalkItems(settings, list, PageItems(res), budget - 1);
      var items := PageItems(res);
      ItemsRecordsValid(settings, list, items, budget - 1);
      if w.failure.None? && HasNextPage(res.nextPageToken) {
        PagesRecordsValid(settings, list, folderId, res.nextPageToken, w.budget);
      }
    }
  }

  /** Every record an item walk pushes is the record of one of the items
      themselves, or the record of a file the listing returns on some page
      (`Reported`). */
  lemma {:induction false} ItemsRecordsValid(settings: Settings, list: Listing, items: seq<Item>, budget: nat)
    ensures forall v :: v in WalkItems(settings, list, items, budget).found ==>
      (exists k :: 0 <= k < |items| && RecordOf(settings, items[k], v)) || Reported(settings, list, v)
    decreases budget, 1, |items|
  {
    if |items| > 0 {
      if IsFolder(items[0]) {
        ItemsStepFolder(settings, list, items, budget);
        var sub := WalkPages(settings, list, items[0].id, None, budget);
        PagesRecordsValid(settings, list, items[0].id, None, budget);
        if sub.failure.None? {
          var rest := WalkItems(settings, list, items[1..], sub.budget);
          ItemsRecordsValid(settings, list, items[1..], sub.budget);
          forall v | v in rest.found
            ensures (exists k :: 0 <= k < |items| && RecordOf(settings, items[k], v)) || Reported(settings, list, v)
          {
            ShiftRecord(settings, items, v);
          }
        }
      } else {
        ItemsStepFile(settings, list, items, budget);
        FileRecordsValid(settings, items[0]);
        var rest := WalkItems(settings, list, items[1..], budget);
        ItemsRecordsValid(settings, list, items[1..], budget);
        forall v | v in rest.found
          ensures (exists k :: 0 <= k < |items| && RecordOf(settings, items[k], v)) || Reported(settings, list, v)
        {
          ShiftRecord(settings, items, v);
        }
        forall v | v in FileRecords(settings, items[0])
          ensures exists k :: 0 <= k < |items| && RecordOf(settings, items[k], v)
        {
          assert RecordOf(settings, items[0], v);
        }
      }
    }
  }

  /** A record of one of the later items is a record of one of the items. */
  lemma ShiftRecord(settings: Settings, items: seq<Item>, v: Violation)
    requires |items| > 0
    ensures (exists k :: 0 <= k < |items| - 1 && RecordOf(settings, items[1..][k], v)) ==>
      exists k :: 0 <= k < |items| && RecordOf(settings, items[k], v)
  {
    if exists k :: 0 <= k < |items| - 1 && RecordOf(settings, items[1..][k], v) {
      var k :| 0 <= k < |items| - 1 && RecordOf(settings, items[1..][k], v);
      assert items[1..][k] == items[k + 1];
    }
  }

  /** Items are walked in order: the walk of `a + b` is the walk of `a`,
      followed, unless `a` failed, by the walk of `b` on what budget is left.
      So every record of an item (a sub-folder's whole subtree included)
      precedes every record of a later item. */
  lemma {:induction false} WalkItemsAppend(settings: Settings, list: Listing, a: seq<Item>, b: seq<Item>, budget: nat)
    ensures var w := WalkItems(settings, list, a, budget);
      WalkItems(settings, list, a + b, budget)
        == if w.failure.Some? then w else Prepend(w.found, WalkItems(settings, list, b, w.budget))
    decreases |a|
  {
    if |a| == 0 {
      assert a + b == b;
      PrependNothing(WalkItems(settings, list, b, budget));
    } else {
      assert (a + b)[0] == a[0] && (a + b)[1..] == a[1..] + b;
      if IsFolder(a[0]) {
        ItemsStepFolder(settings, list, a + b, budget);
        ItemsStepFolder(settings, list, a, budget);
        var sub := WalkPages(settings, list, a[0].id, None, budget);
        if sub.failure.None? {
          WalkItemsAppend(settings, list, a[1..], b, sub.budget);
          var w' := WalkItems(settings, list, a[1..], sub.budget);
          if w'.failure.None? {
            PrependTwice(sub.found, w'.found, WalkItems(settings, list, b, w'.budget));
          }
        }
      } else {
        ItemsStepFile(settings, list, a + b, budget);
        ItemsStepFile(settings, list, a, budget);
        WalkItemsAppend(settings, list, a[1..], b, budget);
        var w' := WalkItems(settings, list, a[1..], budget);
        if w'.failure.None? {
          PrependTwice(FileRecords(settings, a[0]), w'.found, WalkItems(settings, list, b, w'.budget));
        }
      }
    }
  }

  /** The budget only bounds the walk: a walk that does not run out of it
      gives the same records and the same outcome under any larger budget,
      leaving the surplus unused. */
  lemma {:induction false} PagesBudgetIrrelevant(settings: Settings, list: Listing, folderId: string, token: Option<string>, budget: nat, extra: nat)
    requires WalkPages(settings, list, folderId, token, budget).failure != Some(BudgetExhausted)
    ensures var w := WalkPages(settings, list, folderId, token, budget);
      WalkPages(settings, list, folderId, token, budget + extra) == Walk(w.found, w.budget + extra, w.failure)
    decreases budget, 0, 0
  {
    PagesStep(settings, list, folderId, token, budget);
    PagesStep(settings, list, folderId, token, budget + extra);
    if budget > 0 && list(folderId, token).Listed? && |PageItems(list(folderId, token))| > 0 {
      var res := list(folderId, token);
      var w := WalkItems(settings, list, PageItems(res), budget - 1);
      ItemsBudgetIrrelevant(settings, list, PageItems(res), budget - 1, extra);
      assert budget + extra - 1 == budget - 1 + extra;
      if w.failure.None? && HasNextPage(res.nextPageToken) {
        PagesBudgetIrrelevant(settings, list, folderId, res.nextPageToken, w.budget, extra);
      }
    }
  }

  lemma {:induction false} ItemsBudgetIrrelevant(settings: Settings, list: Listing, items: seq<Item>, budget: nat, extra: nat)
    requires WalkItems(settings, list, items, budget).failure != Some(BudgetExhausted)
    ensures var w := WalkItems(settings, list, items, budget);
      WalkItems(settings, list, items, budget + extra) == Walk(w.found, w.budget + extra, w.failure)
    decreases budget, 1, |items|
  {
    if |items| > 0 {
      if IsFolder(items[0]) {
        ItemsStepFolder(settings, list, items, budget);
        ItemsStepFolder(settings, list, items, budget + extra);
        var sub := WalkPages(settings, list, items[0].id, None, budget);
        PagesBudgetIrrelevant(settings, list, items[0].id, None, budget, extra);
        if sub.failure.None? {
          ItemsBudgetIrrelevant(settings, list, items[1..], sub.budget, extra);
        }
      } else {
        ItemsStepFile(settings, list, items, budget);
        ItemsStepFile(settings, list, items, budget + extra);
        ItemsBudgetIrrelevant(settings, list, items[1..], budget, extra);
      }
    }
  }

  /** The outcome of a run: aborted by a failure, clean (logged, nothing
      sent), or a notification sent with the given payload. */
  datatype Outcome = Aborted(failure: Failure) | Clean | Notified(message: Message)

  /** The run `main()` performs on the tree under `root`. */
  function Audit(settings: Settings, list: Listing, root: string, budget: nat): Outcome {
    var w := WalkPages(settings, list, root, None, budget);
    if w.failure.Some? then Aborted(w.failure.value)
    else if |w.found| > 0 then Notified(BuildMessage(w.found))
    else Clean
  }

  /** What a run reports: a notification exactly when the walk completed and
      found violations, stating their number and showing the first of them,
      each the record of an evaluated file the listing returned; a clean
      result only when the walk completed without finding any; a failed walk
      is never reported. */
  lemma AuditOutcome(settings: Settings, list: Listing, root: string, budget: nat)
    ensures var w := WalkPages(settings, list, root, None, budget);
      var o := Audit(settings, list, root, budget);
      && (o.Notified? <==> w.failure.None? && w.found != [])
      && (o.Clean? <==> w.failure.None? && w.found == [])
      && (o.Aborted? <==> w.failure.Some?)
      && (o.Notified? ==>
            && o.message.total == |w.found| > 0
            && o.message.attachments == Attachments(w.found)
            && forall v :: v in w.found ==> Reported(settings, list, v))
  {
    PagesRecordsValid(settings, list, root, None, budget);
  }

  /** `main()`: walk the tree into a fresh list, then post the report if the
      list is not empty and log a clean result otherwise. A failure of the
      walk propagates, so neither happens. */
  method RunAudit(settings: Settings, list: Listing, root: string, budget: nat) returns (outcome: Outcome)
    ensures outcome == Audit(settings, list, root, budget)
  {
    var violations := new ViolationList();
    var _, failure := WalkFolder(settings, list, root, budget, violations);
    if failure.Some? {
      return Aborted(failure.value);
    }
    if |violations.records| > 0 {
      outcome := Notified(BuildMessage(violations.records));
    } else {
      outcome := Clean;
    }
  }
}
