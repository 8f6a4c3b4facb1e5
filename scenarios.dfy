/** Whole runs over small concrete trees, with the configuration of the
    source (`SAFE_DOMAINS` and `IGNORE_KEYWORD`). */
module Scenarios {
  import opened Wrappers
  import opened Strings
  import opened Drive
  import opened Policy
  import opened Report
  import opened Walker

  const SourceSettings: Settings := Settings(["fw@gmail.com", "gmail.com"], "【共有用】")

  const AnyoneReader: Permission := Permission("anyone", "reader", None)
  const OwnerEntry: Permission := Permission("user", "owner", None)
  const BobReader: Permission := Permission("user", "reader", Some("bob@external.com"))

  function FileItem(id: string, name: string, ps: seq<Permission>): Item {
    Item(id, name, "application/pdf", "https://drive/" + id, Some(ps), true)
  }

  function FolderItem(id: string): Item {
    Item(id, id, FolderMimeType, "https://drive/" + id, None, false)
  }

  /** A tree whose root holds one page of `items` and nothing else. */
  function OnePage(items: seq<Item>): Listing {
    (folderId: string, token: Option<string>) =>
      if folderId == "root" && token == None then Listed(Some(items), None) else ListFailed
  }

  /** A file whose name carries the ignore keyword is not evaluated, even
      when anyone with the link can open it: the run is clean. */
  lemma ExemptFileIsIgnored()
    ensures Audit(SourceSettings, OnePage([FileItem("r", "Report【共有用】.pdf", [AnyoneReader])]), "root", 10) == Clean
  {
    var file := FileItem("r", "Report【共有用】.pdf", [AnyoneReader]);
    assert file.name[6..11] == "【共有用】";
    assert OccursAt(file.name, "【共有用】", 6);
    assert FileRecords(SourceSettings, file) == [];
    var list := OnePage([file]);
    PagesStep(SourceSettings, list, "root", None, 10);
    ItemsStepFile(SourceSettings, list, [file], 9);
    assert [file][1..] == [];
    assert WalkItems(SourceSettings, list, [file], 9) == Walk([], 9, None);
  }

  const BudgetFile: Item := FileItem("b", "Budget.xlsx", [OwnerEntry, BobReader])
  const BudgetRecord: Violation :=
    Violation("Budget.xlsx", "https://drive/b", [ExternalShare("bob@external.com", "reader")])

  lemma BudgetFileReasons()
    ensures Reasons(SourceSettings, BudgetFile) == [ExternalShare("bob@external.com", "reader")]
  {
    assert !EndsWith("bob@external.com", "fw@gmail.com") by {
      assert "bob@external.com"[4] != "fw@gmail.com"[0];
    }
    assert !EndsWith("bob@external.com", "gmail.com") by {
      assert "bob@external.com"[7] != "gmail.com"[0];
    }
    assert !IsSafe(SourceSettings.safeDomains, "bob@external.com");
    assert [OwnerEntry, BobReader][1..] == [BobReader];
    assert [BobReader][1..] == [];
    assert !AnyoneWithLink([OwnerEntry, BobReader]);
    assert !Flagged(SourceSettings.safeDomains, OwnerEntry);
    assert Flagged(SourceSettings.safeDomains, BobReader);
    var safe := SourceSettings.safeDomains;
    assert ExternalShareReasons(safe, [BobReader]) == [ExternalShare("bob@external.com", "reader")];
    assert ExternalShareReasons(safe, [OwnerEntry, BobReader]) == ExternalShareReasons(safe, [BobReader]);
  }

  lemma BudgetWalk()
    ensures WalkPages(SourceSettings, OnePage([BudgetFile]), "root", None, 10) == Walk([BudgetRecord], 9, None)
  {
    var file := BudgetFile;
    MissingCharNotContained(file.name, "【共有用】", 0);
    BudgetFileReasons();
    assert file.webViewLink == "https://drive/b";
    assert FileRecords(SourceSettings, file) == [BudgetRecord];
    var list := OnePage([file]);
    PagesStep(SourceSettings, list, "root", None, 10);
    ItemsStepFile(SourceSettings, list, [file], 9);
    assert [file][1..] == [];
  }

  lemma BudgetBlock()
    ensures DetailBlock(BudgetRecord) == Danger("Budget.xlsx", "https://drive/b", "🚫 外部共有: bob@external.com [reader]")
  {
    var v := BudgetRecord;
    assert ReasonText(v.errors[0]) == "🚫 外部共有: bob@external.com [reader]";
    assert ReasonTexts(v.errors) == ["🚫 外部共有: bob@external.com [reader]"];
  }

  /** A reader outside the allow-list is reported once, with the address and
      the role; the owner entry without an address adds nothing. */
  lemma ExternalReaderIsReported()
    ensures Audit(SourceSettings, OnePage([BudgetFile]), "root", 10)
         == Notified(Message(1, [Danger("Budget.xlsx", "https://drive/b", "🚫 外部共有: bob@external.com [reader]")]))
  {
    BudgetWalk();
    BudgetBlock();
    assert [BudgetRecord][..1] == [BudgetRecord];
    assert Attachments([BudgetRecord]) == [DetailBlock(BudgetRecord)];
  }

  /** A listing failure in a nested folder aborts the run: the violation
      found before it is never reported, and the run is not clean either. */
  lemma NestedFailureAborts()
    ensures var file := FileItem("a", "Open.pdf", [AnyoneReader]);
      Audit(SourceSettings, OnePage([file, FolderItem("sub")]), "root", 10) == Aborted(ListingFailed)
  {
    var file := FileItem("a", "Open.pdf", [AnyoneReader]);
    var items := [file, FolderItem("sub")];
    var list := OnePage(items);
    MissingCharNotContained(file.name, "【共有用】", 0);
    PagesStep(SourceSettings, list, "root", None, 10);
    ItemsStepFile(SourceSettings, list, items, 9);
    assert items[1..] == [FolderItem("sub")];
    ItemsStepFolder(SourceSettings, list, items[1..], 9);
    PagesStep(SourceSettings, list, "sub", None, 9);
  }

  /** An empty first page ends the folder even though it names a next page:
      the violating file on that page is never listed, and the run is clean. */
  lemma EmptyPageHidesLaterPages()
    ensures var file := FileItem("a", "Open.pdf", [AnyoneReader]);
      var list := (folderId: string, token: Option<string>) =>
        if token == None then Listed(Some([]), Some("page2"))
        else Listed(Some([file]), None);
      Audit(SourceSettings, list, "root", 10) == Clean
  {
  }
}
