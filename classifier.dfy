/**
 * The line classifier (`findLines`): one pass over the log lines that keeps
 * the last plan-summary declaration and files every other line under each
 * category whose marker its markup contains.
 *
 * The pass is written against its two textual tests, bundled as `Rules`;
 * `ScriptRules` holds the script's own tests (the `planSummary` pattern and
 * the marker table).
 */
module Classifier {
  import opened Wrappers
  import opened Text
  import opened Plan

  /**
   * One rendered log line: its display number (the text of its first child),
   * its inner HTML, and the text content of its second child (the resource text).
   */
  datatype LogLine = LogLine(number: nat, markup: string, text: string)

  /** The declaration test applied to a line's markup, and the marker of each category. */
  datatype Rules = Rules(declaration: string -> Option<Declaration>, marker: Operation -> string)

  const ScriptRules: Rules := Rules(FindDeclaration, Marker)

  /** The category lists (`resourceLogs`). */
  type ResourceLogs = map<Operation, seq<LogLine>>

  predicate Complete(logs: ResourceLogs) {
    forall op: Operation :: op in logs
  }

  predicate IsDeclarationLine(rules: Rules, line: LogLine) {
    rules.declaration(line.markup).Some?
  }

  /** A line goes into the list of `op`: it is not a declaration and holds the marker. */
  predicate Files(rules: Rules, line: LogLine, op: Operation) {
    !IsDeclarationLine(rules, line) && Contains(line.markup, rules.marker(op))
  }

  /** The declaration of the last declaration line; later ones overwrite earlier ones. */
  function LastDeclaration(rules: Rules, lines: seq<LogLine>): Option<Declaration> {
    if lines == [] then None
    else if IsDeclarationLine(rules, lines[|lines| - 1]) then rules.declaration(lines[|lines| - 1].markup)
    else LastDeclaration(rules, lines[..|lines| - 1])
  }

  /** There is a declaration exactly when some line declares, and then it is the last such line's. */
  lemma {:induction false} LastDeclarationWins(rules: Rules, lines: seq<LogLine>)
    ensures LastDeclaration(rules, lines).None? <==>
            forall i :: 0 <= i < |lines| ==> !IsDeclarationLine(rules, lines[i])
    ensures LastDeclaration(rules, lines).Some? ==>
      exists i :: 0 <= i < |lines| && rules.declaration(lines[i].markup) == LastDeclaration(rules, lines) &&
                  forall j :: i < j < |lines| ==> !IsDeclarationLine(rules, lines[j])
  {
    if lines != [] {
      var n := |lines| - 1;
      var before := lines[..n];
      if IsDeclarationLine(rules, lines[n]) {
        assert rules.declaration(lines[n].markup) == LastDeclaration(rules, lines);
      } else {
        LastDeclarationWins(rules, before);
        assert forall i :: 0 <= i < n ==> before[i] == lines[i];
        if LastDeclaration(rules, before).Some? {
          var i :| 0 <= i < n && rules.declaration(before[i].markup) == LastDeclaration(rules, before) &&
                   forall j :: i < j < n ==> !IsDeclarationLine(rules, before[j]);
          assert rules.declaration(lines[i].markup) == LastDeclaration(rules, lines);
        }
      }
    }
  }

  /** The lines filed under `op`, in log order. */
  function Classified(rules: Rules, lines: seq<LogLine>, op: Operation): (r: seq<LogLine>)
    ensures |r| <= |lines|
  {
    if lines == [] then []
    else
      var last := lines[|lines| - 1];
      var before := Classified(rules, lines[..|lines| - 1], op);
      if Files(rules, last, op) then before + [last] else before
  }

  /** One more line extends each list by that line exactly when the line is filed there. */
  lemma ClassifiedStep(rules: Rules, lines: seq<LogLine>, i: nat, op: Operation)
    requires i < |lines|
    ensures Classified(rules, lines[..i + 1], op) ==
            Classified(rules, lines[..i], op) + (if Files(rules, lines[i], op) then [lines[i]] else [])
    ensures LastDeclaration(rules, lines[..i + 1]) ==
            if IsDeclarationLine(rules, lines[i]) then rules.declaration(lines[i].markup)
            else LastDeclaration(rules, lines[..i])
  {
    assert lines[..i + 1][..i] == lines[..i];
  }

  /** A list holds exactly the lines that are filed under its category; no declaration line is among them. */
  lemma {:induction false} ClassifiedMembers(rules: Rules, lines: seq<LogLine>, op: Operation, line: LogLine)
    ensures line in Classified(rules, lines, op) <==> line in lines && Files(rules, line, op)
  {
    if lines != [] {
      var n := |lines| - 1;
      ClassifiedMembers(rules, lines[..n], op, line);
      assert lines == lines[..n] + [lines[n]];
    }
  }

  /** Classification respects concatenation, so every list keeps the log's order. */
  lemma {:induction false} ClassifiedAppend(rules: Rules, a: seq<LogLine>, b: seq<LogLine>, op: Operation)
    decreases |b|
    ensures Classified(rules, a + b, op) == Classified(rules, a, op) + Classified(rules, b, op)
  {
    if b == [] {
      assert a + b == a;
    } else {
      var b' := b[..|b| - 1];
      assert (a + b)[..|a + b| - 1] == a + b';
      ClassifiedAppend(rules, a, b', op);
    }
  }

  /**
   * A line of the log holding two markers is filed in both lists: the markers
   * are tried one after another with no early exit.
   */
  lemma FiledUnderEveryMarker(rules: Rules, lines: seq<LogLine>, line: LogLine, op1: Operation, op2: Operation)
    requires line in lines && Files(rules, line, op1) && Files(rules, line, op2)
    ensures line in Classified(rules, lines, op1) && line in Classified(rules, lines, op2)
  {
    ClassifiedMembers(rules, lines, op1, line);
    ClassifiedMembers(rules, lines, op2, line);
  }

  /**
   * The marker loop for one non-declaration line: the line is pushed onto the
   * list of every category whose marker its markup contains.
   */
  method FileLine(rules: Rules, logs: ResourceLogs, line: LogLine) returns (logs': ResourceLogs)
    requires Complete(logs)
    ensures Complete(logs')
    ensures forall op :: logs'[op] == logs[op] + (if Contains(line.markup, rules.marker(op)) then [line] else [])
  {
    logs' := logs;
    for j := 0 to |Operations|
      invariant Complete(logs')
      invariant forall op :: op in Operations[..j] ==>
        logs'[op] == logs[op] + (if Contains(line.markup, rules.marker(op)) then [line] else [])
      invariant forall op :: op !in Operations[..j] ==> logs'[op] == logs[op]
    {
      var op := Operations[j];
      if Contains(line.markup, rules.marker(op)) {
        logs' := logs'[op := logs'[op] + [line]];
      }
    }
    forall op: Operation
      ensures op in Operations[..|Operations|]
    {
      OperationsListsAll(op);
      assert Operations[..|Operations|] == Operations;
    }
  }

  /**
   * `findLines` up to the call of `addSummaryLogs`: the declaration it keeps
   * and the category lists it fills.
   */
  method FindLines(rules: Rules, lines: seq<LogLine>) returns (decl: Option<Declaration>, logs: ResourceLogs)
    ensures decl == LastDeclaration(rules, lines)
    ensures Complete(logs)
    ensures forall op :: logs[op] == Classified(rules, lines, op)
  {
    logs := map[];
    for j := 0 to |Operations|
      invariant forall op :: op in logs <==> op in Operations[..j]
      invariant forall op :: op in logs ==> logs[op] == []
    {
      logs := logs[Operations[j] := []];
    }
    assert Operations[..|Operations|] == Operations;
    forall op: Operation
      ensures op in Operations
    {
      OperationsListsAll(op);
    }
    decl := None;
    for i := 0 to |lines|
      invariant decl == LastDeclaration(rules, lines[..i])
      invariant Complete(logs)
      invariant forall op :: logs[op] == Classified(rules, lines[..i], op)
    {
      var line := lines[i];
      forall op
        ensures Classified(rules, lines[..i + 1], op) ==
                Classified(rules, lines[..i], op) + (if Files(rules, line, op) then [line] else [])
      {
        ClassifiedStep(rules, lines, i, op);
      }
      ClassifiedStep(rules, lines, i, Create);
      var found := rules.declaration(line.markup);
      if found.Some? {
        decl := found;
      } else {
        logs := FileLine(rules, logs, line);
      }
    }
    assert lines[..|lines|] == lines;
  }
}
