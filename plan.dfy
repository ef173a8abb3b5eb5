/**
 * The vocabulary of a Terraform plan log as the summarizer sees it: the four
 * operation categories with their display names and markup markers, and the
 * plan-summary declaration `<N> to add, <N> to change, <N> to destroy.`.
 */
module Plan {
  import opened Wrappers
  import opened Text
  import opened Decimal

  datatype Operation = Destroy | Replace | Create | Update

  /** The key order of the category table: markers are tried and sections emitted in this order. */
  const Operations: seq<Operation> := [Destroy, Replace, Create, Update]

  lemma OperationsListsAll(op: Operation)
    ensures op in Operations
  {
  }

  /** The category's label in the summary (the values of the `Operation` object). */
  function Name(op: Operation): string {
    match op
    case Create => "Create"
    case Replace => "Replace"
    case Update => "In-place Update"
    case Destroy => "Destroy"
  }

  /** The labels are the keys of the category table, and no two categories share one. */
  lemma NamesDistinct(op: Operation, op': Operation)
    ensures Name(op) == Name(op') <==> op == op'
  {
  }

  /** The markup fragment whose presence in a line's inner HTML puts the line in the category. */
  function Marker(op: Operation): string {
    match op
    case Create =>
      "<span class=\"gl-white-space-pre-wrap\"> will be created</span>"
    case Replace =>
      "<span class=\"gl-white-space-pre-wrap\"> must be </span><span class=\"gl-white-space-pre-wrap term-fg-l-red term-bold\">replaced</span>"
    case Update =>
      "<span class=\"gl-white-space-pre-wrap\"> will be updated in-place</span>"
    case Destroy =>
      "<span class=\"gl-white-space-pre-wrap\"> will be </span><span class=\"gl-white-space-pre-wrap term-fg-l-red term-bold\">destroyed</span>"
  }

  /** The three totals of the plan-summary line (the regex's named groups, read as numbers). */
  datatype Declaration = Declaration(toAdd: nat, toChange: nat, toDestroy: nat)

  const AddText: string := " to add, "
  const ChangeText: string := " to change, "
  const DestroyText: string := " to destroy"

  /** The characters a regular-expression `.` does not match. */
  predicate IsLineTerminator(c: char) {
    c == '\n' || c == '\r' || c == '\U{2028}' || c == '\U{2029}'
  }

  /** The length of the run of digits starting at `i`. */
  function DigitRun(s: string, i: nat): (n: nat)
    requires i <= |s|
    decreases |s| - i
    ensures i + n <= |s| && AllDigits(s[i..i + n])
    ensures i + n == |s| || !IsDigit(s[i + n])
  {
    if i < |s| && IsDigit(s[i]) then
      var n := 1 + DigitRun(s, i + 1);
      assert s[i..i + n] == [s[i]] + s[i + 1..i + n];
      n
    else 0
  }

  /** A digit group's value and the position just after the literal that follows it. */
  datatype Group = Group(value: nat, next: nat)

  /**
   * One digit group at the start of `t` followed by the literal `lit`. The
   * group takes the whole run of digits: a shorter group would be followed
   * by a digit where every literal of the pattern starts with a space, so
   * backtracking finds nothing else.
   */
  function Lead(t: string, lit: string): (r: Option<Group>)
    ensures r.Some? ==> r.value.next <= |t|
  {
    var n := DigitRun(t, 0);
    if n > 0 && n + |lit| <= |t| && LiteralAt(t, lit, n) then Some(Group(ParseDecimal(t[..n]), n + |lit|))
    else None
  }

  /** The literals that follow the pattern's three digit groups, in order. */
  const Literals: seq<string> := [AddText, ChangeText, DestroyText]

  /** The values of the digit groups read so far and the text after the last literal. */
  datatype Parsed = Parsed(values: seq<nat>, rest: string)

  /** Digit groups at the start of `t`, each followed by its literal from `lits`. */
  function Groups(t: string, lits: seq<string>): (r: Option<Parsed>)
    decreases |lits|
    ensures r.Some? ==> |r.value.values| == |lits|
  {
    if lits == [] then Some(Parsed([], t))
    else
      match Lead(t, lits[0])
      case None => None
      case Some(g) =>
        match Groups(t[g.next..], lits[1..])
        case None => None
        case Some(p) => Some(Parsed([g.value] + p.values, p.rest))
  }

  /**
   * A match of `/([0-9]+) to add, ([0-9]+) to change, ([0-9]+) to destroy./`
   * at the very start of `t`, with its three groups read as numbers; the
   * final `.` is any character but a line terminator.
   */
  function MatchPrefix(t: string): Option<Declaration> {
    match Groups(t, Literals)
    case None => None
    case Some(p) =>
      if |p.rest| > 0 && !IsLineTerminator(p.rest[0]) then
        Some(Declaration(p.values[0], p.values[1], p.values[2]))
      else None
  }

  /**
   * `t` starts with text of the pattern's shape: three non-empty digit runs
   * `a`, `b` and `c` with their literals, then a character `x` that is not a
   * line terminator, and `d` holds the three runs read as numbers (leading
   * zeros allowed).
   */
  predicate MatchedBy(t: string, d: Declaration, a: string, b: string, c: string, x: char, rest: string) {
    |a| > 0 && |b| > 0 && |c| > 0 && AllDigits(a) && AllDigits(b) && AllDigits(c) &&
    !IsLineTerminator(x) &&
    t == a + AddText + (b + ChangeText + (c + DestroyText + ([x] + rest))) &&
    d == Declaration(ParseDecimal(a), ParseDecimal(b), ParseDecimal(c))
  }

  /** The matcher accepts exactly the texts of the pattern's shape, and returns their three numbers. */
  lemma MatchPrefixShape(t: string, d: Declaration)
    ensures MatchPrefix(t) == Some(d) <==>
      exists a, b, c, x, rest :: MatchedBy(t, d, a, b, c, x, rest)
  {
    if exists a, b, c, x, rest :: MatchedBy(t, d, a, b, c, x, rest) {
      var a, b, c, x, rest :| MatchedBy(t, d, a, b, c, x, rest);
      MatchOfShape(t, d, a, b, c, x, rest);
    }
    if MatchPrefix(t) == Some(d) {
      var a, b, c, x, rest := ShapeOfMatch(t, d);
    }
  }

  lemma {:induction false} MatchOfShape(t: string, d: Declaration, a: string, b: string, c: string, x: char, rest: string)
    requires MatchedBy(t, d, a, b, c, x, rest)
    ensures MatchPrefix(t) == Some(d)
  {
    var r := [x] + rest;
    assert Literals == [AddText] + ([ChangeText] + ([DestroyText] + []));
    GroupsOfShape(AddText, ChangeText, DestroyText, a, b, c, r, d);
    assert r[0] == x;
  }

  lemma ShapeOfMatch(t: string, d: Declaration) returns (a: string, b: string, c: string, x: char, rest: string)
    requires MatchPrefix(t) == Some(d)
    ensures MatchedBy(t, d, a, b, c, x, rest)
  {
    assert Literals == [AddText] + ([ChangeText] + ([DestroyText] + []));
    a, b, c, x, rest := ShapeOfThree(t, AddText, ChangeText, DestroyText, d);
  }

  /** Text whose three groups were read and followed by a non-terminator, split into its parts. */
  lemma {:induction false} ShapeOfThree(t: string, l1: string, l2: string, l3: string, d: Declaration)
    returns (a: string, b: string, c: string, x: char, rest: string)
    requires Groups(t, [l1] + ([l2] + ([l3] + []))).Some?
    requires var p := Groups(t, [l1] + ([l2] + ([l3] + []))).value;
      |p.rest| > 0 && !IsLineTerminator(p.rest[0]) &&
      d == Declaration(p.values[0], p.values[1], p.values[2])
    ensures |a| > 0 && |b| > 0 && |c| > 0 && AllDigits(a) && AllDigits(b) && AllDigits(c)
    ensures !IsLineTerminator(x) && t == a + l1 + (b + l2 + (c + l3 + ([x] + rest)))
    ensures d == Declaration(ParseDecimal(a), ParseDecimal(b), ParseDecimal(c))
  {
    var p := Groups(t, [l1] + ([l2] + ([l3] + []))).value;
    var r;
    a, b, c, r := ShapeOfGroups(t, l1, l2, l3);
    assert p == Parsed([ParseDecimal(a), ParseDecimal(b), ParseDecimal(c)], r);
    x, rest := r[0], r[1..];
    assert r == [x] + rest;
  }

  /** A digit run and its literal in front of text the later groups accept add one group. */
  lemma GroupsStepShape(a: string, v: nat, lit: string, lits: seq<string>, rest: string)
    requires |a| > 0 && AllDigits(a) && v == ParseDecimal(a)
    requires |lit| > 0 && !IsDigit(lit[0]) && Groups(rest, lits).Some?
    ensures Groups(a + lit + rest, [lit] + lits) ==
            Some(Parsed([v] + Groups(rest, lits).value.values, Groups(rest, lits).value.rest))
  {
    LeadShape(a, lit, rest);
    assert ([lit] + lits)[0] == lit && ([lit] + lits)[1..] == lits;
  }

  /** Text from which a group and its literal were read: a digit run, the literal, and text the later groups accept. */
  lemma GroupsStepParts(t: string, lit: string, lits: seq<string>) returns (a: string, rest: string)
    requires Groups(t, [lit] + lits).Some?
    ensures |a| > 0 && AllDigits(a) && t == a + lit + rest && Groups(rest, lits).Some?
    ensures Groups(t, [lit] + lits) ==
            Some(Parsed([ParseDecimal(a)] + Groups(rest, lits).value.values, Groups(rest, lits).value.rest))
  {
    assert ([lit] + lits)[0] == lit && ([lit] + lits)[1..] == lits;
    LeadParts(t, lit);
    var g := Lead(t, lit).value;
    a, rest := t[..g.next - |lit|], t[g.next..];
  }

  /** Three digit runs, each followed by its literal, are read as three groups. */
  lemma {:induction false} GroupsOfShape(l1: string, l2: string, l3: string, a: string, b: string, c: string, r: string, d: Declaration)
    requires |l1| > 0 && |l2| > 0 && |l3| > 0 && !IsDigit(l1[0]) && !IsDigit(l2[0]) && !IsDigit(l3[0])
    requires |a| > 0 && |b| > 0 && |c| > 0 && AllDigits(a) && AllDigits(b) && AllDigits(c)
    requires d == Declaration(ParseDecimal(a), ParseDecimal(b), ParseDecimal(c))
    ensures Groups(a + l1 + (b + l2 + (c + l3 + r)), [l1] + ([l2] + ([l3] + []))) ==
            Some(Parsed([d.toAdd, d.toChange, d.toDestroy], r))
  {
    var none: seq<string> := [];
    assert Groups(r, none) == Some(Parsed([], r));
    GroupsStepShape(c, d.toDestroy, l3, none, r);
    GroupsStepShape(b, d.toChange, l2, [l3] + none, c + l3 + r);
    GroupsStepShape(a, d.toAdd, l1, [l2] + ([l3] + none), b + l2 + (c + l3 + r));
    assert [d.toAdd] + ([d.toChange] + ([d.toDestroy] + [])) == [d.toAdd, d.toChange, d.toDestroy];
  }

  /** Text from which three groups were read consists of three digit runs, each followed by its literal. */
  lemma {:induction false} ShapeOfGroups(t: string, l1: string, l2: string, l3: string) returns (a: string, b: string, c: string, r: string)
    requires Groups(t, [l1] + ([l2] + ([l3] + []))).Some?
    ensures |a| > 0 && |b| > 0 && |c| > 0 && AllDigits(a) && AllDigits(b) && AllDigits(c)
    ensures t == a + l1 + (b + l2 + (c + l3 + r))
    ensures Groups(t, [l1] + ([l2] + ([l3] + []))) ==
            Some(Parsed([ParseDecimal(a), ParseDecimal(b), ParseDecimal(c)], r))
  {
    var none: seq<string> := [];
    var t1, t2;
    a, t1 := GroupsStepParts(t, l1, [l2] + ([l3] + none));
    b, t2 := GroupsStepParts(t1, l2, [l3] + none);
    c, r := GroupsStepParts(t2, l3, none);
    assert Groups(r, none) == Some(Parsed([], r));
    assert [ParseDecimal(a)] + ([ParseDecimal(b)] + ([ParseDecimal(c)] + [])) ==
           [ParseDecimal(a), ParseDecimal(b), ParseDecimal(c)];
  }

  /** A match starting exactly at position `i` of `s`. */
  function MatchAt(s: string, i: nat): Option<Declaration>
    requires i <= |s|
  {
    MatchPrefix(s[i..])
  }

  /** The leftmost match starting at or after `i` (the regex is not anchored). */
  function FindFrom(s: string, i: nat): Option<Declaration>
    requires i <= |s|
    decreases |s| - i
  {
    if i == |s| || MatchAt(s, i).Some? then MatchAt(s, i) else FindFrom(s, i + 1)
  }

  /** The search succeeds exactly when some position at or after `i` matches. */
  lemma {:induction false} FindFromSucceeds(s: string, i: nat)
    requires i <= |s|
    decreases |s| - i
    ensures FindFrom(s, i).Some? <==> exists j :: i <= j <= |s| && MatchAt(s, j).Some?
  {
    var here := MatchAt(s, i);
    if here.Some? {
      assert FindFrom(s, i) == here;
    } else if i == |s| {
      assert FindFrom(s, i) == here;
      assert forall j :: i <= j <= |s| ==> MatchAt(s, j).None?;
    } else {
      assert FindFrom(s, i) == FindFrom(s, i + 1);
      FindFromSucceeds(s, i + 1);
      if exists j :: i <= j <= |s| && MatchAt(s, j).Some? {
        var j :| i <= j <= |s| && MatchAt(s, j).Some?;
        assert j != i;
        assert i + 1 <= j;
      }
    }
  }

  /** A successful search returns the leftmost match. */
  lemma {:induction false} FindFromLeftmost(s: string, i: nat)
    requires i <= |s|
    decreases |s| - i
    ensures FindFrom(s, i).Some? ==>
      exists j :: i <= j <= |s| && MatchAt(s, j) == FindFrom(s, i) &&
                  forall k :: i <= k < j ==> MatchAt(s, k).None?
  {
    if i == |s| || MatchAt(s, i).Some? {
      assert MatchAt(s, i) == FindFrom(s, i);
    } else {
      FindFromLeftmost(s, i + 1);
      if FindFrom(s, i + 1).Some? {
        var j :| i + 1 <= j <= |s| && MatchAt(s, j) == FindFrom(s, i + 1) &&
                 forall k :: i + 1 <= k < j ==> MatchAt(s, k).None?;
        assert forall k :: i <= k < j ==> MatchAt(s, k).None?;
      }
    }
  }

  /** `planSummary.test(markup)` holds exactly when this is `Some`, and then it holds `match(...).groups`. */
  function FindDeclaration(markup: string): Option<Declaration> {
    FindFrom(markup, 0)
  }

  /** A plan-summary line as Terraform prints it; `last` stands for the character the final `.` matches. */
  function DeclarationText(d: Declaration, last: char): string {
    NatToString(d.toAdd) + AddText + NatToString(d.toChange) + ChangeText
      + NatToString(d.toDestroy) + DestroyText + [last]
  }

  lemma {:induction false} DigitRunOf(s: string, i: nat, digits: string)
    decreases |digits|
    requires i + |digits| < |s| && s[i..i + |digits|] == digits
    requires AllDigits(digits) && !IsDigit(s[i + |digits|])
    ensures DigitRun(s, i) == |digits|
  {
    if |digits| > 0 {
      assert s[i] == digits[0];
      assert s[i + 1..i + 1 + |digits[1..]|] == digits[1..];
      DigitRunOf(s, i + 1, digits[1..]);
    }
  }

  /** Any non-empty run of digits followed by a literal that starts with a non-digit is one group of the pattern. */
  lemma LeadShape(a: string, lit: string, rest: string)
    requires |a| > 0 && AllDigits(a) && |lit| > 0 && !IsDigit(lit[0])
    ensures Lead(a + lit + rest, lit) == Some(Group(ParseDecimal(a), |a| + |lit|))
    ensures (a + lit + rest)[|a| + |lit|..] == rest
  {
    var t := a + lit + rest;
    ConcatSlices(a, lit, rest);
    DigitRunOf(t, 0, a);
    LiteralAtOccurs(t, lit, |a|);
    LeadAt(t, lit, |a|);
    var g := Lead(t, lit).value;
    assert g.value == ParseDecimal(t[..|a|]);
    assert t[..|a|] == a;
    assert g == Group(ParseDecimal(a), |a| + |lit|);
  }

  lemma LeadAt(t: string, lit: string, n: nat)
    requires 0 < n && n + |lit| <= |t| && DigitRun(t, 0) == n && LiteralAt(t, lit, n)
    ensures Lead(t, lit) == Some(Group(ParseDecimal(t[..n]), n + |lit|))
  {
  }

  lemma ConcatSlices(a: string, lit: string, rest: string)
    requires |lit| > 0
    ensures var t := a + lit + rest;
      t[0..|a|] == a && t[..|a|] == a && t[|a|] == lit[0] &&
      t[|a|..|a| + |lit|] == lit && t[|a| + |lit|..] == rest
  {
  }

  /** What a group that was read consists of: a non-empty digit run, the literal, and the text after it. */
  lemma LeadParts(t: string, lit: string)
    requires Lead(t, lit).Some?
    ensures var g := Lead(t, lit).value;
      |lit| < g.next && AllDigits(t[..g.next - |lit|]) &&
      t == t[..g.next - |lit|] + lit + t[g.next..] &&
      g.value == ParseDecimal(t[..g.next - |lit|])
  {
    var n := DigitRun(t, 0);
    assert t[0..n] == t[..n];
    LiteralAtOccurs(t, lit, n);
    assert t == t[..n] + t[n..n + |lit|] + t[n + |lit|..];
  }

  /** A printed number followed by a literal that starts with a non-digit is one group of the pattern. */
  lemma LeadOf(n: nat, lit: string, rest: string)
    requires |lit| > 0 && !IsDigit(lit[0])
    ensures Lead(NatToString(n) + lit + rest, lit) == Some(Group(n, |NatToString(n)| + |lit|))
    ensures (NatToString(n) + lit + rest)[|NatToString(n)| + |lit|..] == rest
  {
    LeadShape(NatToString(n), lit, rest);
    ParsePrinted(n);
  }

  /** Reading one more printed group in front of text the later groups accept. */
  lemma GroupsStep(n: nat, lit: string, lits: seq<string>, rest: string)
    requires |lit| > 0 && !IsDigit(lit[0]) && Groups(rest, lits).Some?
    ensures Groups(NatToString(n) + lit + rest, [lit] + lits) ==
            Some(Parsed([n] + Groups(rest, lits).value.values, Groups(rest, lits).value.rest))
  {
    LeadOf(n, lit, rest);
    assert ([lit] + lits)[0] == lit && ([lit] + lits)[1..] == lits;
  }

  /** Three printed groups, each followed by its literal, are read back in order. */
  lemma {:induction false} GroupsOfThree(n1: nat, n2: nat, n3: nat, l1: string, l2: string, l3: string, x: string)
    requires |l1| > 0 && !IsDigit(l1[0]) && |l2| > 0 && !IsDigit(l2[0]) && |l3| > 0 && !IsDigit(l3[0])
    ensures Groups(NatToString(n1) + l1 + (NatToString(n2) + l2 + (NatToString(n3) + l3 + x)), [l1, l2, l3])
            == Some(Parsed([n1] + ([n2] + ([n3] + [])), x))
  {
    var none: seq<string> := [];
    var r2 := [l3] + none;
    var r1 := [l2] + r2;
    assert Groups(x, none) == Some(Parsed([], x));
    GroupsStep(n3, l3, none, x);
    GroupsStep(n2, l2, r2, NatToString(n3) + l3 + x);
    GroupsStep(n1, l1, r1, NatToString(n2) + l2 + (NatToString(n3) + l3 + x));
    assert [l1] + r1 == [l1, l2, l3];
  }

  /** The three printed groups, each with its literal, are read back in order. */
  lemma GroupsOfPrinted(d: Declaration, x: string)
    ensures Groups(NatToString(d.toAdd) + AddText +
                   (NatToString(d.toChange) + ChangeText + (NatToString(d.toDestroy) + DestroyText + x)),
                   Literals)
            == Some(Parsed([d.toAdd] + ([d.toChange] + ([d.toDestroy] + [])), x))
  {
    assert Literals == [AddText, ChangeText, DestroyText];
    GroupsOfThree(d.toAdd, d.toChange, d.toDestroy, AddText, ChangeText, DestroyText, x);
  }

  /** A printed declaration matches at its start. */
  lemma MatchesPrinted(d: Declaration, last: char, rest: string)
    requires !IsLineTerminator(last)
    ensures MatchPrefix(DeclarationText(d, last) + rest) == Some(d)
  {
    var x := [last] + rest;
    var t := DeclarationText(d, last) + rest;
    assert t == NatToString(d.toAdd) + AddText +
      (NatToString(d.toChange) + ChangeText + (NatToString(d.toDestroy) + DestroyText + x));
    GroupsOfPrinted(d, x);
    assert Groups(t, Literals).value.rest == x;
  }

  /** A match with no match before it is the one found. */
  lemma FirstMatchFound(s: string, i: nat, d: Declaration)
    requires i <= |s| && MatchAt(s, i) == Some(d)
    requires forall k :: 0 <= k < i ==> MatchAt(s, k).None?
    ensures FindDeclaration(s) == Some(d)
  {
    FindFromSucceeds(s, 0);
    FindFromLeftmost(s, 0);
    var r := FindFrom(s, 0);
    var j :| 0 <= j <= |s| && MatchAt(s, j) == r && forall k :: 0 <= k < j ==> MatchAt(s, k).None?;
    assert j == i;
  }

  /** The literal after the first group holds no digit. */
  lemma AddTextHasNoDigit()
    ensures forall j :: 0 <= j < |AddText| ==> !IsDigit(AddText[j])
  {
  }

  /** A match at `k` begins with a digit run directly followed by ` to add, `. */
  lemma MatchStart(s: string, k: nat)
    requires k <= |s| && MatchAt(s, k).Some?
    ensures var n := DigitRun(s[k..], 0); 0 < n && OccursAt(s, AddText, k + n)
  {
    assert Literals == [AddText] + [ChangeText, DestroyText];
    FirstGroupStart(s, k, AddText, [ChangeText, DestroyText]);
  }

  /** Groups read at `k` begin with a digit run directly followed by the first literal. */
  lemma FirstGroupStart(s: string, k: nat, lit: string, lits: seq<string>)
    requires k <= |s| && Groups(s[k..], [lit] + lits).Some?
    ensures var n := DigitRun(s[k..], 0); 0 < n && OccursAt(s, lit, k + n)
  {
    var t := s[k..];
    var n := DigitRun(t, 0);
    assert ([lit] + lits)[0] == lit;
    LiteralAtOccurs(t, lit, n);
    assert s[k + n..k + n + |lit|] == t[n..n + |lit|];
  }

  /** A digit run that starts before a non-digit at `m - 1` ends before it. */
  lemma RunEndsBefore(s: string, k: nat, m: nat)
    requires k < m <= |s| && !IsDigit(s[m - 1])
    ensures k + DigitRun(s[k..], 0) < m
  {
  }

  /** A digit-free literal that reaches past position `m` puts a non-digit at `m`. */
  lemma LiteralCrossing(s: string, lit: string, p: nat, m: nat)
    requires p < m < p + |lit| && OccursAt(s, lit, p)
    requires forall j :: 0 <= j < |lit| ==> !IsDigit(lit[j])
    ensures !IsDigit(s[m])
  {
    assert s[m] == s[p..p + |lit|][m - p];
  }

  /**
   * A digit-free literal that `s[..m]` does not contain cannot follow a digit
   * run that starts before `m`, when `s[m - 1]` is not a digit and `s[m]` is:
   * the run ends before `m`, and the literal would lie before `m` or run into
   * the digit at `m`.
   */
  lemma NoLiteralAfterRun(s: string, lit: string, m: nat, k: nat)
    requires k < m < |s| && !IsDigit(s[m - 1]) && IsDigit(s[m]) && !Contains(s[..m], lit)
    requires forall j :: 0 <= j < |lit| ==> !IsDigit(lit[j])
    ensures !OccursAt(s, lit, k + DigitRun(s[k..], 0))
  {
    RunEndsBefore(s, k, m);
    var p := k + DigitRun(s[k..], 0);
    if OccursAt(s, lit, p) {
      if p + |lit| <= m {
        NotInPrefix(s, lit, m, p);
      } else {
        LiteralCrossing(s, lit, p, m);
      }
    }
  }

  /**
   * No match starts before `m` when the text before `m` does not end in a
   * digit and does not contain ` to add, `, and a digit sits at `m`.
   */
  lemma NoMatchBefore(s: string, m: nat, k: nat)
    requires k < m < |s| && !IsDigit(s[m - 1]) && IsDigit(s[m]) && !Contains(s[..m], AddText)
    ensures MatchAt(s, k).None?
  {
    if MatchAt(s, k).Some? {
      MatchStart(s, k);
      AddTextHasNoDigit();
      NoLiteralAfterRun(s, AddText, m, k);
    }
  }

  /** In a line holding a printed declaration, the text before it is `pre` and a digit follows. */
  lemma PrintedAfter(pre: string, d: Declaration, last: char, post: string)
    ensures var s := pre + DeclarationText(d, last) + post;
      |pre| < |s| && s[..|pre|] == pre && IsDigit(s[|pre|])
  {
    var s := pre + DeclarationText(d, last) + post;
    assert s[|pre|] == NatToString(d.toAdd)[0];
  }

  /**
   * The declaration is found wherever it sits in the line. Its three numbers
   * are the ones the tool printed when the text before it does not end in a
   * digit and does not contain ` to add, `, as in a log line whose markup
   * begins with the line-number anchor.
   */
  lemma DeclarationFound(pre: string, d: Declaration, last: char, post: string)
    requires !IsLineTerminator(last)
    ensures FindDeclaration(pre + DeclarationText(d, last) + post).Some?
    ensures (|pre| == 0 || !IsDigit(pre[|pre| - 1])) && !Contains(pre, AddText) ==>
              FindDeclaration(pre + DeclarationText(d, last) + post) == Some(d)
  {
    var s := pre + DeclarationText(d, last) + post;
    PrintedMatchesAt(pre, d, last, post);
    FindFromSucceeds(s, 0);
    if (|pre| == 0 || !IsDigit(pre[|pre| - 1])) && !Contains(pre, AddText) {
      PrintedAfter(pre, d, last, post);
      FirstAfterPlainPrefix(s, |pre|, d);
    }
  }

  /** A printed declaration matches where it starts. */
  lemma PrintedMatchesAt(pre: string, d: Declaration, last: char, post: string)
    requires !IsLineTerminator(last)
    ensures var s := pre + DeclarationText(d, last) + post;
      |pre| <= |s| && MatchAt(s, |pre|) == Some(d)
  {
    var s := pre + DeclarationText(d, last) + post;
    assert s[|pre|..] == DeclarationText(d, last) + post;
    MatchesPrinted(d, last, post);
  }

  /** A match at `m` after text that does not end in a digit and does not contain ` to add, ` is the one found. */
  lemma FirstAfterPlainPrefix(s: string, m: nat, d: Declaration)
    requires m < |s| && MatchAt(s, m) == Some(d) && IsDigit(s[m])
    requires (m == 0 || !IsDigit(s[m - 1])) && !Contains(s[..m], AddText)
    ensures FindDeclaration(s) == Some(d)
  {
    forall k | 0 <= k < m
      ensures MatchAt(s, k).None?
    {
      NoMatchBefore(s, m, k);
    }
    FirstMatchFound(s, m, d);
  }
}
