/**
 * The message micro-templating of the validator: JavaScript
 * `template.replace(placeholder, replacement)` with a string pattern,
 * which replaces the FIRST occurrence only and expands the `$`-patterns
 * of the replacement text (`$$`, `$&`, `` $` ``, `$'`).
 */
module Templates {
  import opened Wrappers

  /** `pat` occurs in `s` starting at index `i`. */
  predicate Occurs(s: string, pat: string, i: nat) {
    i + |pat| <= |s| && s[i..i + |pat|] == pat
  }

  /** The first index at or after `from` where `pat` occurs (`indexOf`). */
  function IndexOfFrom(s: string, pat: string, from: nat): (r: Option<nat>)
    requires from <= |s|
    decreases |s| - from
    ensures r.Some? ==> from <= r.value && Occurs(s, pat, r.value)
    ensures r.Some? ==> forall j :: from <= j < r.value ==> !Occurs(s, pat, j)
    ensures r.None? ==> forall j :: from <= j ==> !Occurs(s, pat, j)
  {
    if Occurs(s, pat, from) then Some(from)
    else if from == |s| then None
    else IndexOfFrom(s, pat, from + 1)
  }

  function IndexOf(s: string, pat: string): Option<nat> {
    IndexOfFrom(s, pat, 0)
  }

  /**
   * The replacement text as `String.prototype.replace` expands it for a
   * match `matched` with text `before` and `after` it; a string pattern has
   * no capture groups, so `$1` and `$<` stay literal.
   */
  function Expand(r: string, matched: string, before: string, after: string): string
    decreases |r|
  {
    if |r| == 0 then ""
    else if r[0] == '$' && |r| >= 2 && r[1] == '$' then "$" + Expand(r[2..], matched, before, after)
    else if r[0] == '$' && |r| >= 2 && r[1] == '&' then matched + Expand(r[2..], matched, before, after)
    else if r[0] == '$' && |r| >= 2 && r[1] == '`' then before + Expand(r[2..], matched, before, after)
    else if r[0] == '$' && |r| >= 2 && r[1] == '\'' then after + Expand(r[2..], matched, before, after)
    else [r[0]] + Expand(r[1..], matched, before, after)
  }

  /** `s.replace(pat, r)` with a string `pat`. */
  function Replace(s: string, pat: string, r: string): string {
    match IndexOf(s, pat)
    case None => s
    case Some(i) =>
      s[..i] + Expand(r, pat, s[..i], s[i + |pat|..]) + s[i + |pat|..]
  }

  /** A replacement without `$` is inserted verbatim. */
  lemma {:induction false} ExpandPlain(r: string, matched: string, before: string, after: string)
    requires '$' !in r
    ensures Expand(r, matched, before, after) == r
  {
    if |r| > 0 {
      assert '$' !in r[1..];
      ExpandPlain(r[1..], matched, before, after);
    }
  }

  /** A template without the placeholder is left unchanged. */
  lemma ReplaceAbsent(s: string, pat: string, r: string)
    requires forall j :: !Occurs(s, pat, j)
    ensures Replace(s, pat, r) == s
  {
  }

  /**
   * When the placeholder starts with `$` and the text before its first
   * occurrence has no `$`, exactly that occurrence is replaced.
   */
  lemma ReplaceFirst(a: string, pat: string, b: string, r: string)
    requires |pat| > 0 && pat[0] == '$' && '$' !in a
    ensures Replace(a + pat + b, pat, r) == a + Expand(r, pat, a, b) + b
  {
    var s := a + pat + b;
    assert Occurs(s, pat, |a|) by {
      assert s[|a|..|a| + |pat|] == pat;
    }
    forall j | 0 <= j < |a| ensures !Occurs(s, pat, j) {
      assert s[j] == a[j] && s[j] != '$';
    }
    var k := IndexOf(s, pat);
    assert k == Some(|a|);
    assert s[..|a|] == a;
    assert s[|a| + |pat|..] == b;
  }

  /** The same, with a `$`-free replacement: a plain substitution of the first occurrence. */
  lemma ReplaceFirstPlain(a: string, pat: string, b: string, r: string)
    requires |pat| > 0 && pat[0] == '$' && '$' !in a && '$' !in r
    ensures Replace(a + pat + b, pat, r) == a + r + b
  {
    ReplaceFirst(a, pat, b, r);
    ExpandPlain(r, pat, a, b);
  }
}
