/**
 * String helpers standing in for the JavaScript built-ins the summarizer uses:
 * `indexOf` (substring search), `split('# ')[1]` (resource-name extraction)
 * and `join(', ')`.
 */
module Text {
  import opened Wrappers

  predicate IsDigit(c: char) {
    '0' <= c <= '9'
  }

  predicate AllDigits(s: string) {
    forall i :: 0 <= i < |s| ==> IsDigit(s[i])
  }

  /** `pat` occurs in `s` starting at position `k`. */
  predicate OccursAt(s: string, pat: string, k: nat) {
    k + |pat| <= |s| && s[k..k + |pat|] == pat
  }

  /** The same test as `OccursAt`, made character by character. */
  predicate LiteralAt(s: string, pat: string, k: nat)
    decreases |pat|
  {
    if |pat| == 0 then k <= |s| else k < |s| && s[k] == pat[0] && LiteralAt(s, pat[1..], k + 1)
  }

  lemma {:induction false} LiteralAtOccurs(s: string, pat: string, k: nat)
    decreases |pat|
    ensures LiteralAt(s, pat, k) <==> OccursAt(s, pat, k)
  {
    if |pat| > 0 {
      LiteralAtOccurs(s, pat[1..], k + 1);
      if k + |pat| <= |s| {
        var w := s[k..k + |pat|];
        assert w[0] == s[k] && w[1..] == s[k + 1..k + 1 + |pat[1..]|];
        assert w == pat <==> w[0] == pat[0] && w[1..] == pat[1..];
      }
    }
  }

  /** The first position at or after `from` where `pat` occurs in `s`, if any. */
  function IndexFrom(s: string, pat: string, from: nat): (r: Option<nat>)
    decreases |s| - from
    ensures r.Some? ==> from <= r.value && r.value + |pat| <= |s|
  {
    if from + |pat| > |s| then None
    else if LiteralAt(s, pat, from) then Some(from)
    else IndexFrom(s, pat, from + 1)
  }

  /** The search finds the first occurrence at or after `from`, and fails only when there is none. */
  lemma {:induction false} IndexFromFirst(s: string, pat: string, from: nat)
    decreases |s| - from
    ensures var r := IndexFrom(s, pat, from);
      (r.Some? ==> from <= r.value && OccursAt(s, pat, r.value)) &&
      (r.Some? ==> forall k :: from <= k < r.value ==> !OccursAt(s, pat, k)) &&
      (r.None? ==> forall k: nat :: from <= k ==> !OccursAt(s, pat, k))
  {
    LiteralAtOccurs(s, pat, from);
    if from + |pat| <= |s| && !LiteralAt(s, pat, from) {
      IndexFromFirst(s, pat, from + 1);
    }
  }

  /** JavaScript's `s.indexOf(pat)`, with `None` for -1. */
  function IndexOf(s: string, pat: string): Option<nat> {
    IndexFrom(s, pat, 0)
  }

  /** JavaScript's `s.indexOf(pat) > -1`. */
  predicate Contains(s: string, pat: string) {
    IndexOf(s, pat).Some?
  }

  /** The separator the resource name follows in a plan line (`# module.x.aws_y.z`). */
  const Separator: string := "# "

  /**
   * `text.split('# ')?.[1] ?? text`: the piece between the first and the
   * second separator, or the whole text when there is no separator.
   */
  function ResourceName(text: string): string {
    match IndexOf(text, Separator)
    case None => text
    case Some(p) =>
      var rest := text[p + |Separator|..];
      match IndexOf(rest, Separator)
      case None => rest
      case Some(q) => rest[..q]
  }

  /**
   * What the name means: without a separator the text is kept; otherwise the
   * name starts right after the first separator, holds no separator itself,
   * and is followed by the end of the text or by the next separator.
   */
  lemma ResourceNameSplit(text: string)
    ensures !Contains(text, Separator) ==> ResourceName(text) == text
    ensures Contains(text, Separator) ==>
      var r := ResourceName(text);
      !Contains(r, Separator) &&
      exists p: nat :: OccursAt(text, Separator, p) &&
        (forall k :: 0 <= k < p ==> !OccursAt(text, Separator, k)) &&
        p + |Separator| + |r| <= |text| &&
        text[p + |Separator|..p + |Separator| + |r|] == r &&
        (p + |Separator| + |r| == |text| || OccursAt(text, Separator, p + |Separator| + |r|))
  {
    IndexFromFirst(text, Separator, 0);
    if Contains(text, Separator) {
      var p := IndexOf(text, Separator).value;
      var start := p + |Separator|;
      var rest := text[start..];
      var r := ResourceName(text);
      IndexFromFirst(rest, Separator, 0);
      match IndexOf(rest, Separator)
      case None =>
        assert r == rest;
        assert !Contains(r, Separator);
        assert text[start..start + |r|] == r;
      case Some(q) =>
        assert r == rest[..q];
        assert OccursAt(rest, Separator, q);
        NoOccurrenceBefore(rest, q, Separator);
        assert text[start..start + |r|] == r;
        assert text[start + q..start + q + |Separator|] == rest[q..q + |Separator|];
        assert OccursAt(text, Separator, start + |r|);
    }
  }

  /** The text before the first occurrence of `pat` does not contain `pat`. */
  lemma NoOccurrenceBefore(s: string, q: nat, pat: string)
    requires |pat| > 0 && IndexOf(s, pat) == Some(q)
    ensures !Contains(s[..q], pat)
  {
    IndexFromFirst(s, pat, 0);
    if Contains(s[..q], pat) {
      IndexFromFirst(s[..q], pat, 0);
      var k := IndexOf(s[..q], pat).value;
      OccursInPrefix(s, q, pat, k);
      assert false;
    }
  }

  /** An occurrence inside a prefix of `s` is an occurrence in `s` that ends within the prefix. */
  lemma OccursInPrefix(s: string, n: nat, pat: string, k: nat)
    requires n <= |s| && OccursAt(s[..n], pat, k)
    ensures OccursAt(s, pat, k) && k + |pat| <= n
  {
    assert s[..n][k..k + |pat|] == s[k..k + |pat|];
  }

  /** When a prefix of `s` does not contain `pat`, no occurrence of `pat` in `s` ends within that prefix. */
  lemma NotInPrefix(s: string, pat: string, m: nat, p: nat)
    requires p + |pat| <= m <= |s| && !Contains(s[..m], pat)
    ensures !OccursAt(s, pat, p)
  {
    if OccursAt(s, pat, p) {
      assert s[..m][p..p + |pat|] == s[p..p + |pat|];
      IndexFromFirst(s[..m], pat, 0);
      assert OccursAt(s[..m], pat, p);
    }
  }

  /** A text that has `pat` between two pieces contains it. */
  lemma ContainsInfix(pre: string, pat: string, post: string)
    ensures Contains(pre + pat + post, pat)
  {
    var s := pre + pat + post;
    assert s[|pre|..|pre| + |pat|] == pat;
    assert OccursAt(s, pat, |pre|);
    IndexFromFirst(s, pat, 0);
  }

  /** JavaScript's `parts.join(sep)`. */
  function Join(parts: seq<string>, sep: string): string {
    if |parts| == 0 then ""
    else if |parts| == 1 then parts[0]
    else parts[0] + sep + Join(parts[1..], sep)
  }
}
