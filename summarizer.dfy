/**
 * The whole pipeline of `findLines`: classify the log lines, then, when a
 * plan-summary line was seen, build the summary numbered after the last
 * line of the log.
 */
module Summarizer {
  import opened Wrappers
  import opened Text
  import opened Plan
  import opened Classifier
  import opened Reconciler
  import opened Synthesizer

  /** The category lists the classification pass builds. */
  function LogsOf(rules: Rules, lines: seq<LogLine>): (logs: ResourceLogs)
    ensures Complete(logs)
    ensures forall op :: logs[op] == Classified(rules, lines, op)
  {
    var logs := map[Destroy := Classified(rules, lines, Destroy),
                    Replace := Classified(rules, lines, Replace),
                    Create := Classified(rules, lines, Create),
                    Update := Classified(rules, lines, Update)];
    assert forall op: Operation :: op in logs by {
      forall op: Operation
        ensures op in logs
      {
        OperationsListsAll(op);
      }
    }
    logs
  }

  /** The summary appended to a log: nothing for an empty log or one without a plan-summary line. */
  function SummaryOf(rules: Rules, lines: seq<LogLine>): seq<SummaryLine> {
    if lines == [] then []
    else
      match LastDeclaration(rules, lines)
      case None => []
      case Some(d) => Numbered(Body(LogsOf(rules, lines), d), lines[|lines| - 1].number)
  }

  /**
   * `findLines`: an empty log is left alone; otherwise the lines are
   * classified, and the summary is built only when a declaration was found.
   */
  method FindLinesAndSummarize(rules: Rules, lines: seq<LogLine>) returns (summary: seq<SummaryLine>)
    ensures summary == SummaryOf(rules, lines)
  {
    if |lines| == 0 {
      return [];
    }
    var planResultLog, resourceLogs := FindLines(rules, lines);
    var logCount := lines[|lines| - 1].number;
    assert resourceLogs == LogsOf(rules, lines) by {
      assert forall op :: op in resourceLogs <==> op in LogsOf(rules, lines);
    }
    if planResultLog.Some? {
      summary := AddSummaryLogs(resourceLogs, planResultLog.value, logCount);
    } else {
      summary := [];
    }
  }

  /** Every summary holds at least the spacer and the header. */
  lemma BodyNotEmpty(logs: ResourceLogs, d: Declaration)
    requires Complete(logs)
    ensures |Body(logs, d)| >= 3
  {
  }

  /** No summary line is produced exactly when no line of the log declares the plan summary. */
  lemma NoDeclarationNoSummary(rules: Rules, lines: seq<LogLine>)
    ensures SummaryOf(rules, lines) == [] <==> forall i :: 0 <= i < |lines| ==> !IsDeclarationLine(rules, lines[i])
  {
    LastDeclarationWins(rules, lines);
    if lines != [] && LastDeclaration(rules, lines).Some? {
      BodyNotEmpty(LogsOf(rules, lines), LastDeclaration(rules, lines).value);
    }
  }

  /**
   * With a declaration, the summary is three lines on a mismatch and seven
   * plus one per classified line on agreement; the counts used are those of
   * the last declaration line.
   */
  lemma SummaryLength(rules: Rules, lines: seq<LogLine>, d: Declaration)
    requires LastDeclaration(rules, lines) == Some(d)
    ensures var logs := LogsOf(rules, lines);
      |SummaryOf(rules, lines)| ==
        if Validated(logs, d) then 7 + |logs[Destroy]| + |logs[Replace]| + |logs[Create]| + |logs[Update]| else 3
  {
    var logs := LogsOf(rules, lines);
    if Validated(logs, d) {
      ValidatedShape(logs, d);
    } else {
      MismatchShape(logs, d);
    }
  }

  /** The summary lines are numbered one by one from the last log line's number plus one. */
  lemma SummaryNumbering(rules: Rules, lines: seq<LogLine>)
    ensures forall i :: 0 <= i < |SummaryOf(rules, lines)| ==> SummaryOf(rules, lines)[i].number == lines[|lines| - 1].number + 1 + i
  {
    if lines != [] && LastDeclaration(rules, lines).Some? {
      var d := LastDeclaration(rules, lines).value;
      NumberedAt(Body(LogsOf(rules, lines), d), lines[|lines| - 1].number);
    }
  }

  /**
   * With the script's own tests, a line carrying a plan summary as Terraform
   * prints it declares exactly those numbers and is filed under no category,
   * when the markup before the summary does not end in a digit and does not
   * contain ` to add, ` (the line-number anchor ends in `</a>`).
   */
  lemma ScriptDeclarationLine(line: LogLine, pre: string, d: Declaration, last: char, post: string)
    requires line.markup == pre + DeclarationText(d, last) + post
    requires !IsLineTerminator(last)
    requires (|pre| == 0 || !IsDigit(pre[|pre| - 1])) && !Contains(pre, AddText)
    ensures ScriptRules.declaration(line.markup) == Some(d)
    ensures forall op :: !Files(ScriptRules, line, op)
  {
    DeclarationFound(pre, d, last, post);
    assert ScriptRules.declaration == FindDeclaration;
  }

  /**
   * With the script's own tests, a line that is not a plan-summary line and
   * whose markup holds the marker of a category is filed under that category.
   */
  lemma ScriptMarkerFiled(line: LogLine, pre: string, op: Operation, post: string)
    requires line.markup == pre + Marker(op) + post && FindDeclaration(line.markup).None?
    ensures Files(ScriptRules, line, op)
  {
    ContainsInfix(pre, Marker(op), post);
    assert ScriptRules.marker == Marker && ScriptRules.declaration == FindDeclaration;
  }

  /**
   * A plan of 2 to add, 1 to change and 1 to destroy, with two created, one
   * updated and one destroyed resource and no replacement, is validated and
   * summarized in eleven lines.
   */
  lemma ExampleAgreement(logs: ResourceLogs)
    requires Complete(logs)
    requires |logs[Create]| == 2 && |logs[Update]| == 1 && |logs[Replace]| == 0 && |logs[Destroy]| == 1
    ensures Validated(logs, Declaration(2, 1, 1))
    ensures |Body(logs, Declaration(2, 1, 1))| == 11
  {
    ValidatedMeans(logs, Declaration(2, 1, 1));
    ValidatedShape(logs, Declaration(2, 1, 1));
  }
}
