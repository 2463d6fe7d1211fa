/**
 * `parseRoadmapText`: splits the AI's roadmap into step lines, drops list
 * markers, cleans the Markdown and keeps the lines longer than three
 * characters.
 */
module RoadmapText {
  import opened Optional
  import opened Text
  import opened Markdown
  import opened Seqs

  /** The one-character list markers: asterisk, hyphen, bullet and the four check or cross marks. */
  predicate IsBullet(c: char) {
    c == '*' || c == '-' || c == '•' || c == '✓' || c == '✔' || c == '✖' || c == '✗'
  }

  /**
   * Length of the marker `(\d+\.|[bullets])` at the start of a line, 0 when
   * there is none. The digits alternative is tried first; backtracking over
   * the digits cannot help, because a shorter run is followed by a digit.
   */
  function MarkerLength(line: string): (n: nat)
    ensures n <= |line|
    ensures n == 0 || (n == 1 && IsBullet(line[0])) || (n >= 2 && line[n - 1] == '.' && forall k :: 0 <= k < n - 1 ==> IsDigit(line[k]))
  {
    var d := DigitRun(line, 0);
    if d > 0 && d < |line| && line[d] == '.' then d + 1
    else if |line| > 0 && IsBullet(line[0]) then 1
    else 0
  }

  /** `line.replace(/^(\d+\.|[bullets])\s*\/, "")`: a leading marker and the white space after it go. */
  function StripMarker(line: string): (r: string)
    ensures |r| <= |line| && r == line[|line| - |r|..]
  {
    var m := MarkerLength(line);
    if m == 0 then line else line[m + SpaceRun(line, m)..]
  }

  /** One line of the roadmap after trimming, marker removal and Markdown cleaning. */
  function CleanStep(line: string): (r: string)
    ensures NoEdgeSpace(r) && |r| <= |line|
  {
    CleanMarkdown(Some(StripMarker(Trim(line))))
  }

  /** `.filter((line) => line.length > 3)` */
  function KeepLong(lines: seq<string>): (kept: seq<string>)
    ensures |kept| <= |lines|
    ensures forall k :: 0 <= k < |kept| ==> |kept[k]| > 3 && kept[k] in lines
    ensures forall x :: x in lines && |x| > 3 ==> x in kept
  {
    if lines == [] then []
    else
      var last := lines[|lines| - 1];
      assert lines == lines[..|lines| - 1] + [last];
      KeepLong(lines[..|lines| - 1]) + (if |last| > 3 then [last] else [])
  }

  /**
   * `parseRoadmapText(text)`: nothing for a missing or blank text, otherwise
   * at most one step per line, each longer than three characters and free of
   * edge white space; every line that cleans to more than three characters
   * becomes a step, and every step is the cleaned form of a line.
   */
  function ParseRoadmapText(text: Option<string>): (steps: seq<string>)
    ensures text.None? || AllSpace(text.value) ==> steps == []
    ensures text.Some? ==> |steps| <= CountChar(text.value, '\n') + 1
    ensures forall k :: 0 <= k < |steps| ==> |steps[k]| > 3 && NoEdgeSpace(steps[k])
    ensures text.Some? ==> forall line :: line in Split(text.value, '\n') && |CleanStep(line)| > 3 ==> CleanStep(line) in steps
    ensures text.Some? ==> EachCleanedFrom(steps, Split(text.value, '\n'))
  {
    if text.None? then []
    else if Trim(text.value) == [] then
      BlankLinesCleanToNothing(text.value);
      []
    else
      SplitCount(text.value, '\n');
      LongCleanedLinesKept(Split(text.value, '\n'));
      StepsComeFromLines(Split(text.value, '\n'));
      KeepLong(MapSeq(Split(text.value, '\n'), CleanStep))
  }

  /** Every line that cleans to more than three characters survives the filter. */
  lemma LongCleanedLinesKept(lines: seq<string>)
    ensures forall line :: line in lines && |CleanStep(line)| > 3 ==> CleanStep(line) in KeepLong(MapSeq(lines, CleanStep))
  {
    var mapped := MapSeq(lines, CleanStep);
    CleanedLinesAmongMapped(lines);
    assert forall x :: x in mapped && |x| > 3 ==> x in KeepLong(mapped);
  }

  /** Every line kept after a per-line rewrite is the rewrite of one of the lines. */
  lemma KeptComeFromLines(lines: seq<string>, f: string -> string)
    ensures forall k :: 0 <= k < |KeepLong(MapSeq(lines, f))| ==>
      exists line :: line in lines && KeepLong(MapSeq(lines, f))[k] == f(line)
  {
    var mapped := MapSeq(lines, f);
    var kept := KeepLong(mapped);
    forall k | 0 <= k < |kept| ensures exists line :: line in lines && kept[k] == f(line) {
      assert kept[k] in mapped;
      var j :| 0 <= j < |mapped| && mapped[j] == kept[k];
      assert lines[j] in lines;
    }
  }

  /** Every step is the cleaned form of one of the lines. */
  ghost predicate EachCleanedFrom(steps: seq<string>, lines: seq<string>) {
    forall k :: 0 <= k < |steps| ==> exists line :: line in lines && steps[k] == CleanStep(line)
  }

  /** Every step kept is the cleaned form of one of the lines. */
  lemma StepsComeFromLines(lines: seq<string>)
    ensures EachCleanedFrom(KeepLong(MapSeq(lines, CleanStep)), lines)
  {
    KeptComeFromLines(lines, CleanStep);
  }

  /** Every line of a blank text cleans to the empty string. */
  lemma BlankLinesCleanToNothing(text: string)
    requires AllSpace(text)
    ensures forall line :: line in Split(text, '\n') ==> CleanStep(line) == ""
  {
    SplitAllSpace(text, '\n');
    forall line | line in Split(text, '\n') ensures CleanStep(line) == "" {
      assert Trim(line) == [];
      assert StripMarker([]) == [];
    }
  }

  /** The cleaned form of each line is among the cleaned lines. */
  lemma CleanedLinesAmongMapped(lines: seq<string>)
    ensures forall line :: line in lines ==> CleanStep(line) in MapSeq(lines, CleanStep)
  {
    forall line | line in lines ensures CleanStep(line) in MapSeq(lines, CleanStep) {
      var k :| 0 <= k < |lines| && lines[k] == line;
      assert MapSeq(lines, CleanStep)[k] == CleanStep(line);
    }
  }

  /** Filtering keeps order: on a concatenation it works piece by piece. */
  lemma {:induction false} KeepLongAppend(a: seq<string>, b: seq<string>)
    ensures KeepLong(a + b) == KeepLong(a) + KeepLong(b)
    decreases |b|
  {
    if b == [] {
      assert a + b == a;
    } else {
      assert (a + b)[..|a + b| - 1] == a + b[..|b| - 1];
      KeepLongAppend(a, b[..|b| - 1]);
    }
  }

  /** Mapping then filtering keeps order: the steps of `a + b` are those of `a`, then those of `b`. */
  lemma StepsAppend(a: seq<string>, b: seq<string>, clean: string -> string)
    ensures KeepLong(MapSeq(a + b, clean)) == KeepLong(MapSeq(a, clean)) + KeepLong(MapSeq(b, clean))
  {
    assert MapSeq(a + b, clean) == MapSeq(a, clean) + MapSeq(b, clean);
    KeepLongAppend(MapSeq(a, clean), MapSeq(b, clean));
  }

  /** A numbered item `12. text` loses its number, the dot and the white space after it. */
  lemma StripNumbered(digits: string, gap: string, x: string)
    requires digits != [] && forall k :: 0 <= k < |digits| ==> IsDigit(digits[k])
    requires AllSpace(gap) && (x == [] || !IsSpace(x[0]))
    ensures StripMarker(digits + "." + gap + x) == x
  {
    var line := digits + "." + gap + x;
    var m := |digits| + 1;
    assert line[|digits|] == '.';
    assert forall k :: 0 <= k < |digits| ==> line[k] == digits[k];
    DigitRunIs(line, 0, |digits|);
    assert forall k :: m <= k < m + |gap| ==> line[k] == gap[k - m];
    assert x != [] ==> line[m + |gap|] == x[0];
    SpaceRunIs(line, m, |gap|);
    assert MarkerLength(line) == m;
    assert StripMarker(line) == line[m + |gap|..];
    assert line[m + |gap|..] == x;
  }

  /** A bulleted item loses its bullet and the white space after it. */
  lemma StripBullet(b: char, gap: string, x: string)
    requires IsBullet(b) && AllSpace(gap) && (x == [] || !IsSpace(x[0]))
    ensures StripMarker([b] + gap + x) == x
  {
    var line := [b] + gap + x;
    assert !IsDigit(b);
    assert DigitRun(line, 0) == 0;
    assert forall k :: 1 <= k < 1 + |gap| ==> line[k] == gap[k - 1];
    assert x != [] ==> line[1 + |gap|] == x[0];
    SpaceRunIs(line, 1, |gap|);
    assert line[1 + |gap|..] == x;
  }

  /** A line that starts with neither a digit nor a bullet is left as it is. */
  lemma UnmarkedKept(line: string)
    requires line != [] && !IsDigit(line[0]) && !IsBullet(line[0])
    ensures StripMarker(line) == line
  {
    assert DigitRun(line, 0) == 0;
  }

  /** A numbered line of plain text (no `*`, backtick or `[`) becomes exactly its text. */
  lemma NumberedPlainStep(line: string, n: char, x: string)
    requires IsDigit(n) && NoEdgeSpace(x) && x != []
    requires '*' !in x && '`' !in x && '[' !in x
    requires line == [n] + ". " + x
    ensures CleanStep(line) == x
  {
    assert line == [n] + "." + " " + x;
    assert line[0] == n && line[|line| - 1] == x[|x| - 1];
    TrimNoEdgeSpace(line);
    StripNumbered([n], " ", x);
    PlainTextOnlyTrimmed(x);
    TrimNoEdgeSpace(x);
  }

  /** The two lines of a two-item list. */
  lemma TwoLines(first: string, second: string)
    requires '\n' !in first && '\n' !in second
    ensures Split(first + "\n" + second, '\n') == [first, second]
  {
    assert first + "\n" + second == first + ['\n'] + second;
    SplitFirstPiece(first, '\n', second);
    SplitNoSeparator(second, '\n');
  }

  /** A numbered line `n. x` has no line break when its text has none. */
  lemma NumberedLineUnbroken(n: char, x: string)
    requires IsDigit(n) && '\n' !in x
    ensures '\n' !in [n] + ". " + x
  {
    var line := [n] + ". " + x;
    assert forall k :: 3 <= k < |line| ==> line[k] == x[k - 3];
  }

  /** Mapping over two lines. */
  lemma MapTwo(first: string, second: string, clean: string -> string)
    ensures MapSeq([first, second], clean) == [clean(first), clean(second)]
  {
  }

  /** Two long lines both stay. */
  lemma KeepTwo(a: string, b: string)
    requires |a| > 3 && |b| > 3
    ensures KeepLong([a, b]) == [a, b]
  {
    assert [a, b][..1] == [a];
    assert [a][..0] == [];
  }

  /** Both lines of the list clean to their texts, and both texts are long enough to stay. */
  lemma TwoCleanLines(n1: char, a: string, n2: char, b: string)
    requires IsDigit(n1) && NoEdgeSpace(a) && |a| > 3 && '*' !in a && '`' !in a && '[' !in a
    requires IsDigit(n2) && NoEdgeSpace(b) && |b| > 3 && '*' !in b && '`' !in b && '[' !in b
    ensures KeepLong(MapSeq([[n1] + ". " + a, [n2] + ". " + b], CleanStep)) == [a, b]
  {
    var first, second := [n1] + ". " + a, [n2] + ". " + b;
    NumberedPlainStep(first, n1, a);
    NumberedPlainStep(second, n2, b);
    MapTwo(first, second, CleanStep);
    KeepTwo(a, b);
  }

  /**
   * A two-item numbered list of plain texts longer than three characters
   * yields exactly those two steps.
   */
  lemma TwoNumberedSteps(n1: char, a: string, n2: char, b: string)
    requires IsDigit(n1) && NoEdgeSpace(a) && |a| > 3 && '\n' !in a && '*' !in a && '`' !in a && '[' !in a
    requires IsDigit(n2) && NoEdgeSpace(b) && |b| > 3 && '\n' !in b && '*' !in b && '`' !in b && '[' !in b
    ensures ParseRoadmapText(Some([n1] + ". " + a + "\n" + [n2] + ". " + b)) == [a, b]
  {
    var first := [n1] + ". " + a;
    var second := [n2] + ". " + b;
    var text := [n1] + ". " + a + "\n" + [n2] + ". " + b;
    assert text == first + "\n" + second;
    assert Trim(text) != [] by {
      assert !IsSpace(text[0]);
    }
    NumberedLineUnbroken(n1, a);
    NumberedLineUnbroken(n2, b);
    TwoLines(first, second);
    TwoCleanLines(n1, a, n2, b);
  }
}
