/**
 * String primitives with JavaScript semantics: the white-space class that
 * `String.prototype.trim` strips and the regular-expression class `\s`
 * matches, line terminators, `startsWith` / `endsWith` / `includes`,
 * `toLowerCase` (restricted to the Latin and Cyrillic alphabets) and
 * `split` on a single character.
 */
module Text {

  /** WhiteSpace and LineTerminator code points of ECMAScript (what `trim` removes, what `\s` matches). */
  predicate IsSpace(c: char) {
    c == '\t' || c == '\n' || c == '\U{000B}' || c == '\U{000C}' || c == '\r' || c == ' '
    || c == '\U{00A0}' || c == '\U{1680}' || ('\U{2000}' <= c <= '\U{200A}')
    || c == '\U{2028}' || c == '\U{2029}' || c == '\U{202F}' || c == '\U{205F}'
    || c == '\U{3000}' || c == '\U{FEFF}'
  }

  /** The characters a regular-expression `.` does not match, and where `^`/`$` anchor in multiline mode. */
  predicate IsLineTerminator(c: char) {
    c == '\n' || c == '\r' || c == '\U{2028}' || c == '\U{2029}'
  }

  /** The regular-expression class `\d` (no `u` flag). */
  predicate IsDigit(c: char) {
    '0' <= c <= '9'
  }

  predicate AllSpace(s: string) {
    forall i :: 0 <= i < |s| ==> IsSpace(s[i])
  }

  /** Neither the first nor the last character is white space. */
  predicate NoEdgeSpace(s: string) {
    s == [] || (!IsSpace(s[0]) && !IsSpace(s[|s| - 1]))
  }

  /** Number of consecutive white-space characters of `s` starting at `i`. */
  function SpaceRun(s: string, i: nat): (n: nat)
    requires i <= |s|
    ensures i + n <= |s|
    ensures AllSpace(s[i..i + n])
    ensures i + n == |s| || !IsSpace(s[i + n])
    decreases |s| - i
  {
    if i < |s| && IsSpace(s[i]) then
      var n := SpaceRun(s, i + 1);
      assert s[i..i + 1 + n] == [s[i]] + s[i + 1..i + 1 + n];
      1 + n
    else 0
  }

  /** Number of consecutive decimal digits of `s` starting at `i`. */
  function DigitRun(s: string, i: nat): (n: nat)
    requires i <= |s|
    ensures i + n <= |s|
    ensures forall k :: i <= k < i + n ==> IsDigit(s[k])
    ensures i + n == |s| || !IsDigit(s[i + n])
    decreases |s| - i
  {
    if i < |s| && IsDigit(s[i]) then 1 + DigitRun(s, i + 1) else 0
  }

  /** One past the last non-white-space character of `s` at or after `lo` (or `lo` when there is none). */
  function TrimEndIndex(s: string, lo: nat, hi: nat): (e: nat)
    requires lo <= hi <= |s|
    requires forall k :: hi <= k < |s| ==> IsSpace(s[k])
    ensures lo <= e <= hi
    ensures forall k :: e <= k < |s| ==> IsSpace(s[k])
    ensures e == lo || !IsSpace(s[e - 1])
    decreases hi
  {
    if hi > lo && IsSpace(s[hi - 1]) then TrimEndIndex(s, lo, hi - 1) else hi
  }

  /**
   * `s.trim()`: the slice of `s` left after removing its leading and trailing
   * white space. It is empty exactly when `s` is all white space.
   */
  function Trim(s: string): (r: string)
    ensures NoEdgeSpace(r)
    ensures |r| <= |s|
    ensures r == [] <==> AllSpace(s)
  {
    var lo := SpaceRun(s, 0);
    var hi := TrimEndIndex(s, lo, |s|);
    assert hi > lo ==> !IsSpace(s[lo]);
    assert s[..lo] == s[0..0 + lo];
    assert hi == lo ==> AllSpace(s) by {
      if hi == lo {
        forall k | 0 <= k < |s| ensures IsSpace(s[k]) {
          if k < lo { assert s[0..0 + lo][k] == s[k]; }
        }
      }
    }
    s[lo..hi]
  }

  /** What `trim` removes is white space, from both ends only. */
  lemma TrimIsSlice(s: string)
    ensures exists i :: 0 <= i <= |s| - |Trim(s)| && Trim(s) == s[i..i + |Trim(s)|]
                        && AllSpace(s[..i]) && AllSpace(s[i + |Trim(s)|..])
  {
    var lo := SpaceRun(s, 0);
    var hi := TrimEndIndex(s, lo, |s|);
    assert s[..lo] == s[0..0 + lo];
    assert Trim(s) == s[lo..hi];
  }

  /** Trimming a string without edge white space changes nothing. */
  lemma {:induction false} TrimNoEdgeSpace(s: string)
    requires NoEdgeSpace(s)
    ensures Trim(s) == s
  {
    if s != [] {
      assert SpaceRun(s, 0) == 0;
      assert TrimEndIndex(s, 0, |s|) == |s|;
    }
  }

  /** `toLowerCase` on one character: Latin A-Z and the Cyrillic capitals U+0400..U+042F; every other character is kept. */
  function LowerChar(c: char): char {
    if 'A' <= c <= 'Z' || '\U{0410}' <= c <= '\U{042F}' then (c as int + 32) as char
    else if '\U{0400}' <= c <= '\U{040F}' then (c as int + 80) as char
    else c
  }

  function Lower(s: string): (r: string)
    ensures |r| == |s|
    ensures forall i :: 0 <= i < |s| ==> r[i] == LowerChar(s[i])
  {
    seq(|s|, i requires 0 <= i < |s| => LowerChar(s[i]))
  }

  /** Lower-casing twice is lower-casing once. */
  lemma LowerIdempotent(s: string)
    ensures Lower(Lower(s)) == Lower(s)
  {
  }

  /** `s.startsWith(p)` */
  predicate StartsWith(s: string, p: string) {
    |p| <= |s| && s[..|p|] == p
  }

  /** `needle` occurs in `hay` at index `i`. */
  predicate OccursAt(hay: string, needle: string, i: nat) {
    i + |needle| <= |hay| && hay[i..i + |needle|] == needle
  }

  /** Dropping the first character shifts every occurrence one place left. */
  lemma OccursShift(t: string, d: string, i: nat)
    requires t != [] && 0 < i
    ensures OccursAt(t, d, i) <==> OccursAt(t[1..], d, i - 1)
  {
    if i + |d| <= |t| {
      assert t[1..][i - 1..i - 1 + |d|] == t[i..i + |d|];
    }
  }

  /** `hay.includes(needle)`, scanning from the left. */
  predicate Contains(hay: string, needle: string)
    decreases |hay|
  {
    StartsWith(hay, needle) || (|hay| > 0 && Contains(hay[1..], needle))
  }

  /** `Contains` holds exactly when the needle occurs at some index. */
  lemma {:induction false} ContainsIffOccurs(hay: string, needle: string)
    ensures Contains(hay, needle) <==> exists i: nat :: OccursAt(hay, needle, i)
    decreases |hay|
  {
    if StartsWith(hay, needle) {
      assert OccursAt(hay, needle, 0);
    } else if |hay| == 0 {
    } else {
      ContainsIffOccurs(hay[1..], needle);
      if Contains(hay[1..], needle) {
        var i: nat :| OccursAt(hay[1..], needle, i);
        OccursShift(hay, needle, i + 1);
      } else {
        forall i: nat ensures !OccursAt(hay, needle, i) {
          if i != 0 {
            OccursShift(hay, needle, i);
          }
        }
      }
    }
  }

  /** `s.split(sep)` for a one-character separator: JavaScript keeps empty pieces, so there is always at least one. */
  function Split(s: string, sep: char): (r: seq<string>)
    ensures |r| >= 1
    ensures forall k :: 0 <= k < |r| ==> sep !in r[k]
  {
    if s == [] then [""]
    else if s[0] == sep then [""] + Split(s[1..], sep)
    else
      var t := Split(s[1..], sep);
      [[s[0]] + t[0]] + t[1..]
  }

  /** `parts.join(sep)` */
  function Join(parts: seq<string>, sep: char): string {
    if parts == [] then ""
    else if |parts| == 1 then parts[0]
    else parts[0] + [sep] + Join(parts[1..], sep)
  }

  /** Number of occurrences of `c` in `s`. */
  function CountChar(s: string, c: char): nat {
    if s == [] then 0 else (if s[0] == c then 1 else 0) + CountChar(s[1..], c)
  }

  /** Splitting and joining again on the same separator gives back the string. */
  lemma {:induction false} SplitJoin(s: string, sep: char)
    ensures Join(Split(s, sep), sep) == s
  {
    if s == [] {
    } else if s[0] == sep {
      SplitJoin(s[1..], sep);
      assert s == [sep] + s[1..];
    } else {
      SplitJoin(s[1..], sep);
      var t := Split(s[1..], sep);
      if |t| == 1 {
      } else {
        assert Join(t, sep) == t[0] + [sep] + Join(t[1..], sep);
        assert s == [s[0]] + s[1..];
      }
    }
  }

  /** There is one more piece than there are separators. */
  lemma {:induction false} SplitCount(s: string, sep: char)
    ensures |Split(s, sep)| == CountChar(s, sep) + 1
  {
    if s != [] {
      SplitCount(s[1..], sep);
    }
  }

  /** A string without the separator is a single piece. */
  lemma {:induction false} SplitNoSeparator(s: string, sep: char)
    requires sep !in s
    ensures Split(s, sep) == [s]
  {
    if s != [] {
      SplitNoSeparator(s[1..], sep);
      assert s == [s[0]] + s[1..];
    }
  }

  /** Every piece of an all-white-space string is all white space. */
  lemma {:induction false} SplitAllSpace(s: string, sep: char)
    requires AllSpace(s)
    ensures forall p :: p in Split(s, sep) ==> AllSpace(p)
  {
    if s != [] {
      SplitAllSpace(s[1..], sep);
      if s[0] != sep {
        var t := Split(s[1..], sep);
        var first := [s[0]] + t[0];
        assert AllSpace(t[0]);
        assert AllSpace(first) by {
          forall i | 0 <= i < |first| ensures IsSpace(first[i]) {
            if i > 0 { assert first[i] == t[0][i - 1]; }
          }
        }
        assert forall p :: p in t[1..] ==> p in t;
      }
    }
  }

  /** The text before the first separator is the first piece; the rest is split on its own. */
  lemma {:induction false} SplitFirstPiece(x: string, sep: char, y: string)
    requires sep !in x
    ensures Split(x + [sep] + y, sep) == [x] + Split(y, sep)
  {
    if x == [] {
      assert x + [sep] + y == [sep] + y;
      assert ([sep] + y)[1..] == y;
    } else {
      SplitFirstPiece(x[1..], sep, y);
      assert (x + [sep] + y)[1..] == x[1..] + [sep] + y;
      assert [x[0]] + x[1..] == x;
    }
  }

  /** A white-space stretch of length `n` at `i` that is followed by a non-space (or the end) is the run at `i`. */
  lemma {:induction false} SpaceRunIs(s: string, i: nat, n: nat)
    requires i + n <= |s|
    requires forall k :: i <= k < i + n ==> IsSpace(s[k])
    requires i + n == |s| || !IsSpace(s[i + n])
    ensures SpaceRun(s, i) == n
    decreases n
  {
    if n > 0 {
      SpaceRunIs(s, i + 1, n - 1);
    }
  }

  /** A digit stretch of length `n` at `i` that is followed by a non-digit (or the end) is the run at `i`. */
  lemma {:induction false} DigitRunIs(s: string, i: nat, n: nat)
    requires i + n <= |s|
    requires forall k :: i <= k < i + n ==> IsDigit(s[k])
    requires i + n == |s| || !IsDigit(s[i + n])
    ensures DigitRun(s, i) == n
    decreases n
  {
    if n > 0 {
      DigitRunIs(s, i + 1, n - 1);
    }
  }
}
