/**
 * `cleanMarkdown`: four regular-expression rewrites applied in order
 * (bold markers, italic markers, one known glitch phrase, fenced code
 * blocks) followed by `trim`. Each rewrite is a global `replace` whose
 * leftmost-first, lazy matching is written out as a left-to-right scan.
 */
module Markdown {
  import opened Optional
  import opened Text

  predicate NoLineBreak(s: string) {
    forall k :: 0 <= k < |s| ==> !IsLineTerminator(s[k])
  }

  /**
   * Where the lazy body `(.*?)` of a pattern `D(.*?)D` stops inside `t` (the
   * text after the opening delimiter): the first index at which `d` occurs,
   * provided no line terminator comes earlier, since `.` does not match one.
   * With `crossLines` the body is `[\s\S]*?`, which matches anything.
   */
  function FindClose(t: string, d: string, crossLines: bool): (r: Option<nat>)
    requires d != ""
    ensures r.Some? ==> OccursAt(t, d, r.value)
    ensures r.Some? ==> forall j :: 0 <= j < r.value ==> !OccursAt(t, d, j)
    ensures r.Some? && !crossLines ==> NoLineBreak(t[..r.value])
    ensures r.None? && crossLines ==> forall j: nat :: !OccursAt(t, d, j)
    decreases |t|
  {
    if StartsWith(t, d) then Some(0)
    else if t == [] || (!crossLines && IsLineTerminator(t[0])) then None
    else
      assert !OccursAt(t, d, 0) by {
        if |d| <= |t| { assert t[0..|d|] == t[..|d|]; }
      }
      match FindClose(t[1..], d, crossLines)
      case Some(j) =>
        forall i | 0 < i <= j ensures !OccursAt(t, d, i) {
          OccursShift(t, d, i);
        }
        OccursShift(t, d, j + 1);
        assert !crossLines ==> NoLineBreak(t[..j + 1]) by {
          if !crossLines {
            assert t[..j + 1] == [t[0]] + t[1..][..j];
          }
        }
        Some(j + 1)
      case None =>
        assert crossLines ==> forall i: nat :: !OccursAt(t, d, i) by {
          forall i: nat | 0 < i && crossLines ensures !OccursAt(t, d, i) {
            OccursShift(t, d, i);
          }
        }
        None
  }

  /**
   * `s.replace(/D(.*?)D/g, keepInner ? "$1" : "")` for a delimiter `D`: at each
   * position where `d` opens a match that `FindClose` completes, the whole match
   * is replaced by its inner text (or by nothing) and scanning resumes after it;
   * elsewhere the character is copied and scanning moves on by one.
   */
  function ReplacePairs(s: string, d: string, crossLines: bool, keepInner: bool): (r: string)
    requires d != ""
    ensures |r| <= |s|
    decreases |s|
  {
    if s == [] then []
    else if StartsWith(s, d) && FindClose(s[|d|..], d, crossLines).Some? then
      var j := FindClose(s[|d|..], d, crossLines).value;
      (if keepInner then s[|d|..|d| + j] else []) + ReplacePairs(s[|d| + j + |d|..], d, crossLines, keepInner)
    else
      [s[0]] + ReplacePairs(s[1..], d, crossLines, keepInner)
  }

  // s.replace(/\*\*(.*?)\*\*/g, "$1") for d == "**", and s.replace(/\*(.*?)\*/g, "$1") for d == "*".
  function StripEmphasis(s: string, d: string): string
    requires d != ""
  {
    ReplacePairs(s, d, false, true)
  }

  // s.replace(/```[\s\S]*?```/g, ""): fenced blocks go, contents and all.
  function StripCodeFences(s: string): string {
    ReplacePairs(s, "```", true, false)
  }

  const GlitchHead: string := " Klikniдэ "
  const GlitchMid: string := " sanyna basynda nemese qaz"

  /** Case-insensitive `startsWith` (the `i` flag), comparing lower-cased characters. */
  predicate StartsWithIgnoringCase(s: string, p: string) {
    |p| <= |s| && forall k :: 0 <= k < |p| ==> LowerChar(s[k]) == LowerChar(p[k])
  }

  /**
   * Length of the match of `/ Klikniдэ (\d+) sanyna basynda nemese qaz.\s*\[\d+\]/i`
   * at the start of `t`, if there is one. Every quantifier in the pattern is
   * followed by a character it cannot consume, so no backtracking is needed.
   */
  function GlitchLength(t: string): (n: Option<nat>)
    ensures n.Some? ==> 0 < n.value <= |t| && '[' in t
  {
    var a := |GlitchHead|;
    if !StartsWithIgnoringCase(t, GlitchHead) then None
    else
      var d1 := DigitRun(t, a);
      var b := a + d1;
      if d1 == 0 || !StartsWithIgnoringCase(t[b..], GlitchMid) then None
      else
        var c := b + |GlitchMid|;
        if c >= |t| || IsLineTerminator(t[c]) then None
        else
          var e := c + 1 + SpaceRun(t, c + 1);
          if e >= |t| || t[e] != '[' then None
          else
            var d2 := DigitRun(t, e + 1);
            var f := e + 1 + d2;
            if d2 == 0 || f >= |t| || t[f] != ']' then None else Some(f + 1)
  }

  /** `s.replace(/ Klikniдэ (\d+) sanyna basynda nemese qaz.\s*\[\d+\]/gi, "")` */
  function StripGlitch(s: string): (r: string)
    ensures |r| <= |s|
    decreases |s|
  {
    if s == [] then []
    else
      match GlitchLength(s)
      case Some(n) => StripGlitch(s[n..])
      case None => [s[0]] + StripGlitch(s[1..])
  }

  /**
   * `cleanMarkdown(text)`: `""` for `null`, `undefined` or `""`; otherwise the
   * four rewrites in source order, then `trim`. The result never has leading or
   * trailing white space and is never longer than the input.
   */
  function CleanMarkdown(text: Option<string>): (r: string)
    ensures text.None? || text == Some("") ==> r == ""
    ensures NoEdgeSpace(r)
    ensures text.Some? ==> |r| <= |text.value|
  {
    if text.None? || text.value == "" then ""
    else Trim(StripCodeFences(StripGlitch(StripEmphasis(StripEmphasis(text.value, "**"), "*"))))
  }

  /** A pair rewrite leaves text without the delimiter's first character untouched. */
  lemma {:induction false} ReplacePairsIdentity(s: string, d: string, crossLines: bool, keepInner: bool)
    requires d != "" && d[0] !in s
    ensures ReplacePairs(s, d, crossLines, keepInner) == s
    decreases |s|
  {
    if s != [] {
      assert !StartsWith(s, d) by { assert s[0] != d[0]; }
      ReplacePairsIdentity(s[1..], d, crossLines, keepInner);
      assert s == [s[0]] + s[1..];
    }
  }

  /** The glitch rewrite leaves text without `[` untouched. */
  lemma {:induction false} StripGlitchIdentity(s: string)
    requires '[' !in s
    ensures StripGlitch(s) == s
    decreases |s|
  {
    if s != [] {
      StripGlitchIdentity(s[1..]);
      assert s == [s[0]] + s[1..];
    }
  }

  /** Text with no `*`, no backtick and no `[` is only trimmed. */
  lemma PlainTextOnlyTrimmed(s: string)
    requires '*' !in s && '`' !in s && '[' !in s
    ensures CleanMarkdown(Some(s)) == Trim(s)
  {
    ReplacePairsIdentity(s, "**", false, true);
    ReplacePairsIdentity(s, "*", false, true);
    StripGlitchIdentity(s);
    ReplacePairsIdentity(s, "```", true, false);
  }

  /** The lazy body stops at the first closing delimiter: `d + x + d + rest` keeps exactly `x`, then goes on with `rest`. */
  lemma EmphasisPair(x: string, rest: string, d: string)
    requires d == "*" || d == "**"
    requires '*' !in x && NoLineBreak(x)
    ensures StripEmphasis(d + x + d + rest, d) == x + StripEmphasis(rest, d)
  {
    var s := d + x + d + rest;
    var t := x + d + rest;
    assert s[|d|..] == t;
    assert StartsWith(s, d) by { assert s[..|d|] == d; }
    assert OccursAt(t, d, |x|) by { assert t[|x|..|x| + |d|] == d; }
    forall j | 0 <= j < |x| ensures !OccursAt(t, d, j) {
      if j + |d| <= |t| {
        assert t[j..j + |d|][0] == x[j] && x[j] != '*';
      }
    }
    var c := FindClose(t, d, false);
    assert c.Some? by {
      assert t[..|x|] == x;
      FindCloseReaches(t, d, |x|);
    }
    assert c == Some(|x|);
    assert s[|d|..|d| + |x|] == x;
    assert s[|d| + |x| + |d|..] == rest;
  }

  /** If `d` occurs at `i` and nothing before it breaks the line, `FindClose` succeeds. */
  lemma {:induction false} FindCloseReaches(t: string, d: string, i: nat)
    requires d != "" && OccursAt(t, d, i) && NoLineBreak(t[..i])
    ensures FindClose(t, d, false).Some?
    decreases i
  {
    if !StartsWith(t, d) {
      assert i > 0 && t[0] == t[..i][0];
      assert t[1..][i - 1..i - 1 + |d|] == t[i..i + |d|];
      assert t[1..][..i - 1] == t[..i][1..];
      FindCloseReaches(t[1..], d, i - 1);
    }
  }

  /** A fenced block with no backtick inside disappears entirely, contents included. */
  lemma CodeFenceRemoved(x: string, rest: string)
    requires '`' !in x
    ensures StripCodeFences("```" + x + "```" + rest) == StripCodeFences(rest)
  {
    var s := "```" + x + "```" + rest;
    var t := x + "```" + rest;
    assert s[3..] == t;
    assert OccursAt(t, "```", |x|) by { assert t[|x|..|x| + 3] == "```"; }
    forall j | 0 <= j < |x| ensures !OccursAt(t, "```", j) {
      assert t[j] == x[j];
    }
    assert FindClose(t, "```", true) == Some(|x|);
    assert s[3 + |x| + 3..] == rest;
  }

  /** A pair rewrite copies its input when no opening delimiter in it is ever closed. */
  lemma {:induction false} ReplacePairsNoMatch(s: string, d: string, crossLines: bool, keepInner: bool)
    requires d != ""
    requires forall i: nat :: OccursAt(s, d, i) ==> FindClose(s[i + |d|..], d, crossLines).None?
    ensures ReplacePairs(s, d, crossLines, keepInner) == s
    decreases |s|
  {
    if s != [] {
      assert StartsWith(s, d) ==> OccursAt(s, d, 0) by { if StartsWith(s, d) { assert s[0..|d|] == s[..|d|]; } }
      forall i: nat | OccursAt(s[1..], d, i) ensures FindClose(s[1..][i + |d|..], d, crossLines).None? {
        assert s[1..][i..i + |d|] == s[i + 1..i + 1 + |d|];
        assert OccursAt(s, d, i + 1);
        assert s[1..][i + |d|..] == s[i + 1 + |d|..];
      }
      ReplacePairsNoMatch(s[1..], d, crossLines, keepInner);
      assert s == [s[0]] + s[1..];
    }
  }

  /**
   * `cleanMarkdown` is not idempotent: the italic rewrite runs before the
   * code-fence rewrite, so removing a fence can bring two asterisks on one line
   * together, and a second pass then strips them.
   */
  lemma CleanNotIdempotent()
    ensures CleanMarkdown(Some("*```\n```a*")) == "*a*"
    ensures CleanMarkdown(Some(CleanMarkdown(Some("*```\n```a*")))) == "a"
  {
    CleanFencedAsterisks("*```\n```a*");
    CleanItalicPair();
  }

  lemma EmphasisUntouched(x: string)
    requires x == "*```\n```a*"
    ensures StripEmphasis(StripEmphasis(x, "**"), "*") == x
  {
    forall i: nat ensures !OccursAt(x, "**", i) {
      if i + 2 <= |x| { assert x[i..i + 2][0] == x[i] && x[i..i + 2][1] == x[i + 1]; }
    }
    ReplacePairsNoMatch(x, "**", false, true);
    var y := x[1..];
    assert y[3..] == "\n```a*";
    assert FindClose(y[3..], "*", false) == None;
    assert FindClose(y[2..], "*", false) == None by { assert y[2..][1..] == y[3..]; }
    assert FindClose(y[1..], "*", false) == None by { assert y[1..][1..] == y[2..]; }
    assert FindClose(y, "*", false) == None by { assert y[1..] == y[1..]; }
    forall i: nat | OccursAt(x, "*", i) ensures FindClose(x[i + 1..], "*", false).None? {
      assert x[i..i + 1][0] == x[i];
      assert i == 0 || i == |x| - 1;
      if i != 0 { assert x[i + 1..] == []; }
    }
    ReplacePairsNoMatch(x, "*", false, true);
  }

  lemma CleanFencedAsterisks(x: string)
    requires x == "*```\n```a*"
    ensures CleanMarkdown(Some(x)) == "*a*"
  {
    var e := StripEmphasis(StripEmphasis(x, "**"), "*");
    assert e == x by { EmphasisUntouched(x); }
    var g := StripGlitch(e);
    assert g == x by { StripGlitchIdentity(x); }
    var f := StripCodeFences(g);
    assert f == "*a*" by { FenceBetweenAsterisks(); }
    assert Trim(f) == f by { TrimNoEdgeSpace(f); }
  }

  lemma FenceBetweenAsterisks()
    ensures StripCodeFences("*```\n```a*") == "*a*"
  {
    var x := "*```\n```a*";
    var rest := x[1..];
    assert rest == "```" + "\n" + "```" + "a*";
    CodeFenceRemoved("\n", "a*");
    ReplacePairsIdentity("a*", "```", true, false);
    assert StripCodeFences(rest) == "a*";
    assert !StartsWith(x, "```") by { assert x[0] == '*'; }
    assert ReplacePairs(x, "```", true, false) == [x[0]] + ReplacePairs(x[1..], "```", true, false);
  }

  lemma CleanItalicPair()
    ensures CleanMarkdown(Some("*a*")) == "a"
  {
    forall i: nat ensures !OccursAt("*a*", "**", i) {
      if i + 2 <= 3 { assert "*a*"[i..i + 2][1] == "*a*"[i + 1]; }
    }
    ReplacePairsNoMatch("*a*", "**", false, true);
    EmphasisPair("a", "", "*");
    assert "*a*" == "*" + "a" + "*" + "";
    StripGlitchIdentity("a");
    ReplacePairsIdentity("a", "```", true, false);
    TrimNoEdgeSpace("a");
  }
}
