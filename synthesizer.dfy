/**
 * The summary synthesizer (`addSummaryLogs` with `createLog`): the lines
 * appended after the log, each with the next line number, a colour and a
 * text, or, for a resource, the indent colour and the resource name.
 */
module Synthesizer {
  import opened Wrappers
  import opened Text
  import opened Decimal
  import opened Plan
  import opened Classifier
  import opened Reconciler

  /** The terminal colours the summary uses (`term-fg-l-<color>` / `term-fg-<color>`). */
  datatype Color = Green | Cyan | Red | Yellow

  /**
   * What a summary line shows: a message made by `createLog`; a category
   * count line, also made by `createLog`, kept as its category and count; or
   * a copy of a classified line cut down to its resource name, with an indent
   * bar before it.
   */
  datatype Entry =
    | Message(color: Color, text: string)
    | Count(color: Color, category: Operation, count: nat)
    | Resource(indent: Color, name: string)

  /** A summary line with its line number. */
  datatype SummaryLine = SummaryLine(number: nat, entry: Entry)

  const HeaderText: string :=
    "Summarize Terraform Plan Result. Click the line number and move to the affected resource line."

  const MismatchText: string :=
    "Mismatch on plan result and script's expectation. There's a problem in the summarize script!!!"

  const PlanResultLabel: string := "* Plan Result: "

  /** A category count line is red when the category destroys something and its list is not empty. */
  function CountColor(op: Operation, n: nat): (c: Color)
    ensures c == Red <==> (op == Replace || op == Destroy) && n > 0
    ensures c != Red ==> c == Green
  {
    if op in Contributors(ToDestroy) && n > 0 then Red else Green
  }

  /** The colour of the indent bar before a resource name. */
  function IndentColor(op: Operation): (c: Color)
    ensures c == Red <==> op in Contributors(ToDestroy)
    ensures c == Green <==> op == Create
    ensures c == Yellow <==> op == Update
  {
    match op
    case Create => Green
    case Update => Yellow
    case Replace => Red
    case Destroy => Red
  }

  /** `${r} Count: ${n}`. */
  function CountItem(op: Operation, n: nat): string {
    Name(op) + " Count: " + NatToString(n)
  }

  /** The text of a category count line. */
  function CountText(op: Operation, n: nat): string {
    "* " + CountItem(op, n)
  }

  /** The text a summary line shows. */
  function TextOf(e: Entry): string {
    match e
    case Message(_, text) => text
    case Count(_, op, n) => CountText(op, n)
    case Resource(_, name) => name
  }

  /** The count item of every category in `ops`, in order. */
  function CountItems(logs: ResourceLogs, ops: seq<Operation>): (r: seq<string>)
    requires Complete(logs)
    ensures |r| == |ops|
  {
    if ops == [] then []
    else CountItems(logs, ops[..|ops| - 1]) + [CountItem(ops[|ops| - 1], |logs[ops[|ops| - 1]]|)]
  }

  /** The text of the plan-result line. */
  function PlanResultText(logs: ResourceLogs): string
    requires Complete(logs)
  {
    PlanResultLabel + Join(CountItems(logs, Operations), ", ")
  }

  lemma CountItemsStep(logs: ResourceLogs, ops: seq<Operation>, i: nat)
    requires Complete(logs) && i < |ops|
    ensures CountItems(logs, ops[..i + 1]) == CountItems(logs, ops[..i]) + [CountItem(ops[i], |logs[ops[i]]|)]
  {
    assert ops[..i + 1][..i] == ops[..i];
  }

  /** The plan-result line lists the four counts in key order, joined by a comma and a space. */
  lemma PlanResultListsCounts(logs: ResourceLogs)
    requires Complete(logs)
    ensures PlanResultText(logs) == PlanResultLabel + Join([
      CountItem(Destroy, |logs[Destroy]|), CountItem(Replace, |logs[Replace]|),
      CountItem(Create, |logs[Create]|), CountItem(Update, |logs[Update]|)], ", ")
  {
    var d := CountItem(Destroy, |logs[Destroy]|);
    var r := CountItem(Replace, |logs[Replace]|);
    var c := CountItem(Create, |logs[Create]|);
    var u := CountItem(Update, |logs[Update]|);
    assert Operations[..0] == [];
    CountItemsStep(logs, Operations, 0);
    var i1 := CountItems(logs, Operations[..1]);
    assert i1 == [d];
    CountItemsStep(logs, Operations, 1);
    var i2 := CountItems(logs, Operations[..2]);
    assert i2 == [d, r];
    CountItemsStep(logs, Operations, 2);
    var i3 := CountItems(logs, Operations[..3]);
    assert i3 == [d, r, c];
    CountItemsStep(logs, Operations, 3);
    assert Operations[..4] == Operations;
    assert CountItems(logs, Operations) == [d, r, c, u];
  }

  /** The detail lines of a category list, one per classified line, in list order. */
  function Details(lines: seq<LogLine>, indent: Color): (r: seq<Entry>)
    ensures |r| == |lines|
  {
    if lines == [] then []
    else Details(lines[..|lines| - 1], indent) + [Resource(indent, ResourceName(lines[|lines| - 1].text))]
  }

  /** Each detail line carries the category's indent colour and the resource name of its classified line. */
  lemma {:induction false} DetailsAt(lines: seq<LogLine>, indent: Color)
    ensures forall k :: 0 <= k < |lines| ==> Details(lines, indent)[k] == Resource(indent, ResourceName(lines[k].text))
  {
    if lines != [] {
      DetailsAt(lines[..|lines| - 1], indent);
    }
  }

  lemma DetailsStep(lines: seq<LogLine>, k: nat, indent: Color)
    requires k < |lines|
    ensures Details(lines[..k + 1], indent) == Details(lines[..k], indent) + [Resource(indent, ResourceName(lines[k].text))]
  {
    assert lines[..k + 1][..k] == lines[..k];
  }

  /** A category's section: its count line, then its detail lines. */
  function Section(logs: ResourceLogs, op: Operation): seq<Entry>
    requires Complete(logs)
  {
    var n := |logs[op]|;
    [Count(CountColor(op, n), op, n)] + Details(logs[op], IndentColor(op))
  }

  /** The sections of the categories in `ops`, in order. */
  function Sections(logs: ResourceLogs, ops: seq<Operation>): seq<Entry>
    requires Complete(logs)
  {
    if ops == [] then []
    else Sections(logs, ops[..|ops| - 1]) + Section(logs, ops[|ops| - 1])
  }

  lemma SectionsStep(logs: ResourceLogs, ops: seq<Operation>, i: nat)
    requires Complete(logs) && i < |ops|
    ensures Sections(logs, ops[..i + 1]) == Sections(logs, ops[..i]) + Section(logs, ops[i])
  {
    assert ops[..i + 1][..i] == ops[..i];
  }

  /** The number of classified lines of the categories in `ops`. */
  function Filed(logs: ResourceLogs, ops: seq<Operation>): nat
    requires Complete(logs)
  {
    if ops == [] then 0 else Filed(logs, ops[..|ops| - 1]) + |logs[ops[|ops| - 1]]|
  }

  /** Every category contributes one count line and one line per classified line. */
  lemma {:induction false} SectionsLength(logs: ResourceLogs, ops: seq<Operation>)
    requires Complete(logs)
    ensures |Sections(logs, ops)| == |ops| + Filed(logs, ops)
  {
    if ops != [] {
      SectionsLength(logs, ops[..|ops| - 1]);
    }
  }

  /**
   * The sections follow the key order Destroy, Replace, Create, Update, each
   * count line directly followed by its own category's detail lines.
   */
  lemma SectionOrder(logs: ResourceLogs)
    requires Complete(logs)
    ensures Sections(logs, Operations) ==
      Section(logs, Destroy) + Section(logs, Replace) + Section(logs, Create) + Section(logs, Update)
  {
    var s0, s1, s2, s3 := Section(logs, Destroy), Section(logs, Replace), Section(logs, Create), Section(logs, Update);
    assert Operations[..0] == [];
    SectionsStep(logs, Operations, 0);
    var t1 := Sections(logs, Operations[..1]);
    assert t1 == s0;
    SectionsStep(logs, Operations, 1);
    var t2 := Sections(logs, Operations[..2]);
    assert t2 == t1 + s1;
    SectionsStep(logs, Operations, 2);
    var t3 := Sections(logs, Operations[..3]);
    assert t3 == t2 + s2;
    SectionsStep(logs, Operations, 3);
    assert Operations[..4] == Operations;
    assert Sections(logs, Operations) == t3 + s3;
  }

  lemma FiledStep(logs: ResourceLogs, ops: seq<Operation>, i: nat)
    requires Complete(logs) && i < |ops|
    ensures Filed(logs, ops[..i + 1]) == Filed(logs, ops[..i]) + |logs[ops[i]]|
  {
    assert ops[..i + 1][..i] == ops[..i];
  }

  /** The classified lines of all four categories. */
  lemma FiledOfAll(logs: ResourceLogs)
    requires Complete(logs)
    ensures Filed(logs, Operations) == |logs[Destroy]| + |logs[Replace]| + |logs[Create]| + |logs[Update]|
  {
    assert Operations[..0] == [];
    FiledStep(logs, Operations, 0);
    FiledStep(logs, Operations, 1);
    FiledStep(logs, Operations, 2);
    FiledStep(logs, Operations, 3);
    assert Operations[..4] == Operations;
  }

  /**
   * The layout of a section: the count line, red exactly for a non-empty
   * Replace or Destroy list and green otherwise, then one resource line per
   * classified line in list order, indented in the category's colour.
   */
  lemma SectionShape(logs: ResourceLogs, op: Operation)
    requires Complete(logs)
    ensures var s := Section(logs, op);
      |s| == 1 + |logs[op]| &&
      s[0] == Count(CountColor(op, |logs[op]|), op, |logs[op]|) &&
      forall k :: 0 <= k < |logs[op]| ==> s[1 + k] == Resource(IndentColor(op), ResourceName(logs[op][k].text))
  {
    var lines := logs[op];
    var indent := IndentColor(op);
    var det := Details(lines, indent);
    DetailsAt(lines, indent);
    var s := Section(logs, op);
    assert s == [Count(CountColor(op, |lines|), op, |lines|)] + det;
    forall k | 0 <= k < |lines|
      ensures s[1 + k] == Resource(indent, ResourceName(lines[k].text))
    {
      assert s[1 + k] == det[k];
    }
  }

  /** The spacer and the header, emitted before the counts are checked. */
  const Head: seq<Entry> := [Message(Green, ""), Message(Cyan, HeaderText)]

  /** What the summary shows, before numbering. */
  function Body(logs: ResourceLogs, d: Declaration): seq<Entry>
    requires Complete(logs)
  {
    if Validated(logs, d) then Head + [Message(Green, PlanResultText(logs))] + Sections(logs, Operations)
    else Head + [Message(Red, MismatchText)]
  }

  /** A mismatch gives exactly the spacer, the header and the red alert. */
  lemma MismatchShape(logs: ResourceLogs, d: Declaration)
    requires Complete(logs) && !Validated(logs, d)
    ensures Body(logs, d) == [Message(Green, ""), Message(Cyan, HeaderText), Message(Red, MismatchText)]
  {
  }

  /**
   * Agreement gives the spacer, the header, the plan-result line and then the
   * sections in key order: 7 lines plus one per classified line.
   */
  lemma ValidatedShape(logs: ResourceLogs, d: Declaration)
    requires Complete(logs) && Validated(logs, d)
    ensures var b := Body(logs, d);
      |b| == 7 + |logs[Destroy]| + |logs[Replace]| + |logs[Create]| + |logs[Update]| &&
      b[..3] == [Message(Green, ""), Message(Cyan, HeaderText), Message(Green, PlanResultText(logs))] &&
      b[3..] == Section(logs, Destroy) + Section(logs, Replace) + Section(logs, Create) + Section(logs, Update)
  {
    SectionsLength(logs, Operations);
    SectionOrder(logs);
    FiledOfAll(logs);
    var h := [Message(Green, ""), Message(Cyan, HeaderText), Message(Green, PlanResultText(logs))];
    var rest := Sections(logs, Operations);
    assert Body(logs, d) == h + rest;
    SplitAfterHead(h, rest);
  }

  lemma SplitAfterHead(h: seq<Entry>, rest: seq<Entry>)
    requires |h| == 3
    ensures |h + rest| == 3 + |rest| && (h + rest)[..3] == h && (h + rest)[3..] == rest
  {
  }

  /** Entries numbered from `start + 1` on. */
  function Numbered(es: seq<Entry>, start: nat): (r: seq<SummaryLine>)
    ensures |r| == |es|
  {
    if es == [] then []
    else Numbered(es[..|es| - 1], start) + [SummaryLine(start + |es|, es[|es| - 1])]
  }

  /** Numbering is contiguous from `start + 1` and keeps the entries in order. */
  lemma {:induction false} NumberedAt(es: seq<Entry>, start: nat)
    ensures forall i :: 0 <= i < |es| ==> Numbered(es, start)[i] == SummaryLine(start + 1 + i, es[i])
  {
    if es != [] {
      NumberedAt(es[..|es| - 1], start);
    }
  }

  /** Line numbers strictly increase. */
  lemma NumbersIncrease(es: seq<Entry>, start: nat)
    ensures forall i, j :: 0 <= i < j < |es| ==> Numbered(es, start)[i].number < Numbered(es, start)[j].number
  {
    NumberedAt(es, start);
  }

  lemma NumberedSnoc(es: seq<Entry>, e: Entry, start: nat)
    ensures Numbered(es + [e], start) == Numbered(es, start) + [SummaryLine(start + |es| + 1, e)]
  {
    assert (es + [e])[..|es|] == es;
  }

  /**
   * `summary.appendChild(createLog(++lineCount, color, text))`, and likewise
   * for a copied resource line: the counter is incremented and the entry is
   * appended under the new number. `shown` is the sequence of entries shown so
   * far, numbered from `start + 1`.
   */
  method AppendLine(summary: seq<SummaryLine>, lineCount: nat, e: Entry, ghost shown: seq<Entry>, ghost start: nat)
    returns (summary': seq<SummaryLine>, lineCount': nat)
    requires summary == Numbered(shown, start) && lineCount == start + |shown|
    ensures summary' == Numbered(shown + [e], start) && lineCount' == start + |shown| + 1
  {
    lineCount' := lineCount + 1;
    summary' := summary + [SummaryLine(lineCount', e)];
    NumberedSnoc(shown, e, start);
  }

  /**
   * One pass of the loop over the categories: the count line, coloured by the
   * `operationType.destroy` test, then a copy of every classified line of the
   * category cut down to its resource name, behind an indent bar.
   */
  method AppendSection(result: ResourceLogs, r: Operation, summary: seq<SummaryLine>, lineCount: nat,
                       ghost shown: seq<Entry>, ghost start: nat)
    returns (summary': seq<SummaryLine>, lineCount': nat)
    requires Complete(result)
    requires summary == Numbered(shown, start) && lineCount == start + |shown|
    ensures summary' == Numbered(shown + Section(result, r), start)
    ensures lineCount' == start + |shown + Section(result, r)|
  {
    var size := |result[r]|;
    var color;
    if r in Contributors(ToDestroy) && size > 0 {
      color := Red;
    } else {
      color := Green;
    }
    var countLine := Count(color, r, size);
    summary', lineCount' := AppendLine(summary, lineCount, countLine, shown, start);
    summary', lineCount' := AppendDetails(result[r], IndentColor(r), summary', lineCount', shown + [countLine], start);
    assert shown + [countLine] + Details(result[r], IndentColor(r)) ==
           shown + ([countLine] + Details(result[r], IndentColor(r)));
  }

  /**
   * The inner loop of a pass: each classified line of the category is copied,
   * renumbered with the incremented counter and cut down to its resource
   * name behind the indent bar.
   */
  method AppendDetails(entries: seq<LogLine>, indent: Color, summary: seq<SummaryLine>, lineCount: nat,
                       ghost shown: seq<Entry>, ghost start: nat)
    returns (summary': seq<SummaryLine>, lineCount': nat)
    requires summary == Numbered(shown, start) && lineCount == start + |shown|
    ensures summary' == Numbered(shown + Details(entries, indent), start)
    ensures lineCount' == start + |shown| + |entries|
  {
    summary', lineCount' := summary, lineCount;
    ghost var shown' := shown;
    assert shown + Details(entries[..0], indent) == shown by {
      assert entries[..0] == [];
    }
    for k := 0 to |entries|
      invariant summary' == Numbered(shown', start) && lineCount' == start + |shown'|
      invariant shown' == shown + Details(entries[..k], indent)
    {
      var line := Resource(indent, ResourceName(entries[k].text));
      summary', lineCount' := AppendLine(summary', lineCount', line, shown', start);
      DetailsStep(entries, k, indent);
      assert shown + Details(entries[..k], indent) + [line] == shown + (Details(entries[..k], indent) + [line]);
      shown' := shown' + [line];
    }
    assert entries[..|entries|] == entries;
  }

  /** The loop over the categories in key order, each appending its section. */
  method AppendSections(result: ResourceLogs, summary: seq<SummaryLine>, lineCount: nat,
                        ghost shown: seq<Entry>, ghost start: nat)
    returns (summary': seq<SummaryLine>, lineCount': nat)
    requires Complete(result)
    requires summary == Numbered(shown, start) && lineCount == start + |shown|
    ensures summary' == Numbered(shown + Sections(result, Operations), start)
    ensures lineCount' == start + |shown + Sections(result, Operations)|
  {
    summary', lineCount' := summary, lineCount;
    ghost var shown' := shown;
    assert shown + Sections(result, Operations[..0]) == shown by {
      assert Operations[..0] == [];
    }
    for i := 0 to |Operations|
      invariant summary' == Numbered(shown', start) && lineCount' == start + |shown'|
      invariant shown' == shown + Sections(result, Operations[..i])
    {
      summary', lineCount' := AppendSection(result, Operations[i], summary', lineCount', shown', start);
      SectionsStep(result, Operations, i);
      ConcatAssoc(shown, Sections(result, Operations[..i]), Section(result, Operations[i]));
      shown' := shown' + Section(result, Operations[i]);
    }
    assert Operations[..|Operations|] == Operations;
  }

  lemma ConcatAssoc(a: seq<Entry>, b: seq<Entry>, c: seq<Entry>)
    ensures a + b + c == a + (b + c)
  {
  }

  /**
   * `addSummaryLogs`: the counter `lineCount` is incremented before every
   * appended line; a mismatch stops after the alert; otherwise the plan-result
   * line and, per category, the count line and the detail lines follow.
   */
  method AddSummaryLogs(result: ResourceLogs, d: Declaration, lineCount: nat) returns (summary: seq<SummaryLine>)
    requires Complete(result)
    ensures summary == Numbered(Body(result, d), lineCount)
  {
    var n := lineCount;
    summary := [];
    ghost var shown: seq<Entry> := [];
    summary, n := AppendLine(summary, n, Message(Green, ""), shown, lineCount);
    shown := shown + [Message(Green, "")];
    summary, n := AppendLine(summary, n, Message(Cyan, HeaderText), shown, lineCount);
    shown := shown + [Message(Cyan, HeaderText)];
    assert shown == Head;

    var counts := CountBuckets(result);
    var m := FirstMismatch(counts, d);
    if m.Some? {
      summary, n := AppendLine(summary, n, Message(Red, MismatchText), shown, lineCount);
      return;
    }

    var planResult := Message(Green, PlanResultText(result));
    summary, n := AppendLine(summary, n, planResult, shown, lineCount);
    shown := shown + [planResult];
    summary, n := AppendSections(result, summary, n, shown, lineCount);
  }
}
