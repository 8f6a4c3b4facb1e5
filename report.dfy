/** The notification built from the violation list (`postSlack`): one
    "danger" block for each of the first 30 records, in order, then one
    "warning" block with the number of records left out when there are more
    than 30; the top-level text carries the total. */
module Report {
  import opened Strings
  import opened Drive

  const DisplayLimit: nat := 30

  /** A notification block: a detail block of one violating file (title, title
      link and the reasons one per line), or the summary of the records that
      were not shown. */
  datatype Attachment =
    | Danger(title: string, titleLink: string, text: string)
    | Warning(omitted: nat)

  /** The payload: the total number of violations stated in the top-level
      text, and the blocks. */
  datatype Message = Message(total: nat, attachments: seq<Attachment>)

  function Min(a: nat, b: nat): nat {
    if a <= b then a else b
  }

  function ReasonTexts(rs: seq<Reason>): (r: seq<string>)
    ensures |r| == |rs|
    ensures forall k :: 0 <= k < |rs| ==> r[k] == ReasonText(rs[k])
  {
    if |rs| == 0 then [] else [ReasonText(rs[0])] + ReasonTexts(rs[1..])
  }

  /** The block of one record: `errors.join('\n')` as its text. */
  function DetailBlock(v: Violation): Attachment {
    Danger(v.name, v.url, Join(ReasonTexts(v.errors), "\n"))
  }

  /** `data.map(...)` over the records shown. */
  function DetailBlocks(data: seq<Violation>): (r: seq<Attachment>)
    ensures |r| == |data|
    ensures forall k :: 0 <= k < |data| ==> r[k] == DetailBlock(data[k])
  {
    if |data| == 0 then [] else [DetailBlock(data[0])] + DetailBlocks(data[1..])
  }

  /** The blocks of the notification. */
  function Attachments(data: seq<Violation>): (r: seq<Attachment>)
    ensures |r| == Min(|data|, DisplayLimit) + (if |data| > DisplayLimit then 1 else 0)
    ensures forall k :: 0 <= k < Min(|data|, DisplayLimit) ==> r[k] == DetailBlock(data[k])
    ensures |data| > DisplayLimit ==> r[|r| - 1] == Warning(|data| - DisplayLimit)
    ensures (exists k :: 0 <= k < |r| && r[k].Warning?) <==> |data| > DisplayLimit
  {
    var shown := DetailBlocks(data[..Min(|data|, DisplayLimit)]);
    assert forall k :: 0 <= k < |shown| ==> shown[k].Danger?;
    shown + if |data| > DisplayLimit then [Warning(|data| - DisplayLimit)] else []
  }

  /** The whole payload of `postSlack(data)`. */
  function BuildMessage(data: seq<Violation>): Message {
    Message(|data|, Attachments(data))
  }

  /** Every reason of a shown record is written, as its own line, into the
      text of that record's block. */
  lemma ShownBlockListsReasons(data: seq<Violation>, k: nat, e: nat)
    requires k < Min(|data|, DisplayLimit) && e < |data[k].errors|
    ensures Attachments(data)[k].Danger?
    ensures Contains(Attachments(data)[k].text, ReasonText(data[k].errors[e]))
  {
    JoinContainsPart(ReasonTexts(data[k].errors), "\n", e);
  }

  /** 45 violations: 30 detail blocks and one summary of the 15 left out. */
  lemma FortyFiveViolations(data: seq<Violation>)
    requires |data| == 45
    ensures |Attachments(data)| == 31
    ensures Attachments(data)[30] == Warning(15)
    ensures BuildMessage(data).total == 45
  {
  }
}
