/**
 * `parseAiJsonResponse`: turns the AI's loosely formatted reply into
 * recommendation records. The text is trimmed, unwrapped from a fenced code
 * block, cut down to its first balanced bracketed region unless it already is
 * one, handed to `JSON.parse`, and the parsed array is filtered and
 * normalised item by item. Every failure ends in the empty list, never in an
 * exception.
 */
module AiResponse {
  import opened Optional
  import opened Text
  import opened Json
  import opened Markdown
  import opened SurveyTypes

  // ---------------------------------------------------------------------------
  // Unwrapping a fenced block: the first match of /^```(?:json)?\s*([\s\S]*?)\s*```$/m
  // ---------------------------------------------------------------------------

  /** `^` in multiline mode: the start of the text or just after a line terminator. */
  predicate LineStart(s: string, p: nat) {
    p == 0 || (p <= |s| && IsLineTerminator(s[p - 1]))
  }

  /** `$` in multiline mode: the end of the text or just before a line terminator. */
  predicate LineEnd(s: string, p: nat) {
    p == |s| || (p < |s| && IsLineTerminator(s[p]))
  }

  /**
   * The tail `\s*```$` matches from index `e`. A greedy `\s*` can only be
   * followed by a backtick after its longest run, so the run is the whole of
   * the white space at `e`.
   */
  predicate ClosesAt(s: string, e: nat)
    requires e <= |s|
  {
    var m := e + SpaceRun(s, e);
    OccursAt(s, "```", m) && LineEnd(s, m + 3)
  }

  /**
   * Where the capture group starts for a fence opening at `p`: after the three
   * backticks, an optional `json` and the longest white-space run. (Giving up
   * `json` or part of the run never lets a match succeed that failed before:
   * the group would then start at a letter of `json` or inside the run, and
   * the first place the tail could match is the same.)
   */
  function BodyStart(s: string, p: nat): (b: nat)
    requires OccursAt(s, "```", p)
    ensures p + 3 <= b <= |s|
  {
    var q := if OccursAt(s, "json", p + 3) then p + 7 else p + 3;
    q + SpaceRun(s, q)
  }

  /** The lazy group `([\s\S]*?)` ends at the first index from which the tail matches. */
  function FirstClose(s: string, from: nat): (e: Option<nat>)
    requires from <= |s|
    ensures e.Some? ==> from <= e.value <= |s| && ClosesAt(s, e.value)
    ensures e.Some? ==> forall k :: from <= k < e.value ==> !ClosesAt(s, k)
    ensures e.None? ==> forall k :: from <= k <= |s| ==> !ClosesAt(s, k)
    decreases |s| - from
  {
    if ClosesAt(s, from) then Some(from)
    else if from == |s| then None
    else FirstClose(s, from + 1)
  }

  /** The capture group of the leftmost match that starts at or after `p`. */
  function FenceBody(s: string, p: nat): (g: Option<string>)
    requires p <= |s|
    decreases |s| - p
  {
    if LineStart(s, p) && OccursAt(s, "```", p) && FirstClose(s, BodyStart(s, p)).Some? then
      Some(s[BodyStart(s, p)..FirstClose(s, BodyStart(s, p)).value])
    else if p == |s| then None
    else FenceBody(s, p + 1)
  }

  /** Replace the text by the trimmed capture group of its first fenced block when that group is non-empty. */
  function UnwrapFence(s: string): string {
    match FenceBody(s, 0)
    case Some(g) => if g != "" then Trim(g) else s
    case None => s
  }

  // ---------------------------------------------------------------------------
  // Cutting out the first balanced bracketed region
  // ---------------------------------------------------------------------------

  /** The text already starts with `[` and ends with `]`, or starts with `{` and ends with `}`. */
  predicate IsBracketed(s: string) {
    s != [] && ((s[0] == '[' && s[|s| - 1] == ']') || (s[0] == '{' && s[|s| - 1] == '}'))
  }

  /** `s.indexOf(c)` */
  function IndexOf(s: string, c: char): (r: int)
    ensures -1 <= r < |s|
    ensures r == -1 <==> c !in s
    ensures r >= 0 ==> s[r] == c && forall k :: 0 <= k < r ==> s[k] != c
  {
    if s == [] then -1
    else if s[0] == c then 0
    else
      var r := IndexOf(s[1..], c);
      assert forall k :: 1 <= k < |s| ==> s[k] == s[1..][k - 1];
      if r == -1 then -1 else r + 1
  }

  predicate IsOpener(c: char) {
    c == '[' || c == '{'
  }

  function CloserOf(open: char): char {
    if open == '[' then ']' else '}'
  }

  datatype Opener = Opener(start: nat, open: char, close: char)

  /** The earlier of the first `[` and the first `{`, with its closing character. */
  function ChooseOpener(s: string): (o: Option<Opener>)
    ensures o.Some? ==> o.value.start < |s| && s[o.value.start] == o.value.open
    ensures o.Some? ==> IsOpener(o.value.open) && o.value.close == CloserOf(o.value.open)
    ensures o.Some? ==> forall k :: 0 <= k < o.value.start ==> !IsOpener(s[k])
    ensures o.None? <==> forall k :: 0 <= k < |s| ==> !IsOpener(s[k])
  {
    var firstBracket := IndexOf(s, '[');
    var firstBrace := IndexOf(s, '{');
    if firstBracket != -1 && (firstBrace == -1 || firstBracket < firstBrace) then Some(Opener(firstBracket, '[', ']'))
    else if firstBrace != -1 then Some(Opener(firstBrace, '{', '}'))
    else None
  }

  /** Occurrences of `open` minus occurrences of `close` in `t`. */
  function Balance(t: string, open: char, close: char): int {
    if t == [] then 0
    else Balance(t[..|t| - 1], open, close) + (if t[|t| - 1] == open then 1 else 0) - (if t[|t| - 1] == close then 1 else 0)
  }

  /** The count over `s[start..k+1]`, the text scanned once index `k` has been read. */
  function CountThrough(s: string, start: nat, open: char, close: char, k: nat): int
    requires start <= k < |s|
  {
    Balance(s[start..k + 1], open, close)
  }

  /** One more character read: the count moves by one for an opener or a closer. */
  lemma CountStep(s: string, start: nat, open: char, close: char, k: nat)
    requires start <= k < |s|
    ensures CountThrough(s, start, open, close, k)
         == Balance(s[start..k], open, close) + (if s[k] == open then 1 else 0) - (if s[k] == close then 1 else 0)
  {
    assert s[start..k + 1][..k - start] == s[start..k];
  }

  /** The first index `e >= i` at which the count of `s[start..e+1]` is back to zero. */
  function FirstBalanced(s: string, start: nat, open: char, close: char, i: nat): (e: Option<nat>)
    requires start <= i <= |s|
    ensures e.Some? ==> i <= e.value < |s|
    decreases |s| - i
  {
    if i == |s| then None
    else if CountThrough(s, start, open, close, i) == 0 then Some(i)
    else FirstBalanced(s, start, open, close, i + 1)
  }

  /** The index found is the first one, from `i` on, where the count is zero; none means it never is. */
  lemma {:induction false} FirstBalancedSpec(s: string, start: nat, open: char, close: char, i: nat)
    requires start <= i <= |s|
    ensures var e := FirstBalanced(s, start, open, close, i);
      && (e.Some? ==> CountThrough(s, start, open, close, e.value) == 0)
      && (e.Some? ==> forall k :: i <= k < e.value ==> CountThrough(s, start, open, close, k) != 0)
      && (e.None? ==> forall k :: i <= k < |s| ==> CountThrough(s, start, open, close, k) != 0)
    decreases |s| - i
  {
    if i < |s| && CountThrough(s, start, open, close, i) != 0 {
      FirstBalancedSpec(s, start, open, close, i + 1);
    }
  }

  /** What the bracket-extraction step leaves of the (already unwrapped) text. */
  function Candidate(s: string): string {
    if IsBracketed(s) then s
    else
      match ChooseOpener(s)
      case None => s
      case Some(o) => CutAt(s, o, FirstBalanced(s, o.start, o.open, o.close, o.start))
  }

  /** The trimmed region from the opener to the end index of the scan; the text itself when the scan found none. */
  function CutAt(s: string, o: Opener, end: Option<nat>): string
    requires end.Some? ==> o.start <= end.value < |s|
  {
    match end
    case None => s
    case Some(e) => Trim(s[o.start..e + 1])
  }

  /**
   * The scan from the chosen opener: count openers up and closers down and
   * stop at the first index where the count is zero; -1 when it never is.
   */
  method ScanBalanced(text: string, startIndex: nat, openChar: char, closeChar: char) returns (endIndex: int)
    requires startIndex <= |text|
    ensures endIndex == match FirstBalanced(text, startIndex, openChar, closeChar, startIndex)
                        case None => -1
                        case Some(e) => e
    ensures endIndex == -1 || startIndex <= endIndex < |text|
  {
    var balance := 0;
    endIndex := -1;
    var i := startIndex;
    while i < |text|
      invariant startIndex <= i <= |text|
      invariant balance == Balance(text[startIndex..i], openChar, closeChar)
      invariant FirstBalanced(text, startIndex, openChar, closeChar, startIndex)
             == FirstBalanced(text, startIndex, openChar, closeChar, i)
      invariant endIndex == -1
    {
      CountStep(text, startIndex, openChar, closeChar, i);
      if text[i] == openChar { balance := balance + 1; }
      if text[i] == closeChar { balance := balance - 1; }
      if balance == 0 {
        endIndex := i;
        break;
      }
      i := i + 1;
    }
  }

  /** The extraction step: unless already bracketed, cut the text at the first balanced region. */
  method ExtractJsonCandidate(text: string) returns (candidate: string)
    ensures candidate == Candidate(text)
  {
    candidate := text;
    if !IsBracketed(text) {
      var opener := ChooseOpener(text);
      if opener.Some? {
        candidate := CutBalanced(text, opener.value);
      }
    }
  }

  /** Scan from the opener; on success keep the trimmed region, otherwise keep the text. */
  method CutBalanced(text: string, o: Opener) returns (cut: string)
    requires o.start <= |text|
    ensures cut == CutAt(text, o, FirstBalanced(text, o.start, o.open, o.close, o.start))
  {
    cut := text;
    var endIndex := ScanBalanced(text, o.start, o.open, o.close);
    if endIndex != -1 {
      cut := Trim(text[o.start..endIndex + 1]);
    }
  }

  // ---------------------------------------------------------------------------
  // Filtering and normalising the parsed items
  // ---------------------------------------------------------------------------

  /** `item && typeof item === "object" && item.professionName && item.justification` */
  predicate WellFormedItem(item: Json) {
    item.JObject? && TruthyProp(Get(item, "professionName")) && TruthyProp(Get(item, "justification"))
  }

  /** `items.filter(...)` with the predicate above. */
  function KeepWellFormed(items: seq<Json>): (kept: seq<Json>)
    ensures |kept| <= |items|
    ensures forall x :: x in kept ==> x in items && WellFormedItem(x)
    ensures forall x :: x in items && WellFormedItem(x) ==> x in kept
  {
    if items == [] then []
    else
      var last := items[|items| - 1];
      assert items == items[..|items| - 1] + [last];
      KeepWellFormed(items[..|items| - 1]) + (if WellFormedItem(last) then [last] else [])
  }

  /**
   * `cleanMarkdown(v as string)` on a property value. A falsy value gives `""`;
   * a truthy value that is not a string has no `replace` method, so the call
   * throws (`None`).
   */
  function CleanTextField(v: Option<Json>): (r: Option<string>)
    ensures r.None? <==> TruthyProp(v) && !v.value.JString?
    ensures v.Some? && v.value.JString? ==> r == Some(CleanMarkdown(Some(v.value.s)))
    ensures !TruthyProp(v) ==> r == Some("")
  {
    if !TruthyProp(v) then Some("")
    else if v.value.JString? then Some(CleanMarkdown(Some(v.value.s)))
    else None
  }

  /** `matchScore` is kept only when it is a number in [0, 100]. */
  function ScoreOf(item: Json): (r: Option<real>)
    ensures r.Some? ==> 0.0 <= r.value <= 100.0 && Get(item, "matchScore") == Some(JNumber(r.value))
    ensures r.None? ==> forall n :: Get(item, "matchScore") == Some(JNumber(n)) ==> n < 0.0 || n > 100.0
  {
    var p := Get(item, "matchScore");
    if p.Some? && p.value.JNumber? && 0.0 <= p.value.n && p.value.n <= 100.0 then Some(p.value.n) else None
  }

  /** `list.map((x) => cleanMarkdown(String(x)))` */
  function CleanEach(list: seq<Json>, numberText: real -> string): (r: seq<string>)
    ensures |r| == |list|
  {
    seq(|list|, i requires 0 <= i < |list| => CleanMarkdown(Some(ToJsString(list[i], numberText))))
  }

  /** All three of `skills`, `interests` and `preferences` are arrays. */
  predicate HasFactorLists(f: Json) {
    IsArrayProp(f, "skills") && IsArrayProp(f, "interests") && IsArrayProp(f, "preferences")
  }

  /** `matchingFactors` is built only when its three lists are all arrays; each list keeps its length. */
  function FactorsOf(item: Json, numberText: real -> string): (r: Option<MatchingFactors>)
    ensures r.Some? <==> Get(item, "matchingFactors").Some? && HasFactorLists(Get(item, "matchingFactors").value)
    ensures r.Some? ==>
      var f := Get(item, "matchingFactors").value;
      && |r.value.skills| == |f.fields["skills"].items|
      && |r.value.interests| == |f.fields["interests"].items|
      && |r.value.preferences| == |f.fields["preferences"].items|
  {
    var p := Get(item, "matchingFactors");
    if p.Some? && HasFactorLists(p.value) then
      var f := p.value;
      Some(MatchingFactors(
        CleanEach(f.fields["skills"].items, numberText),
        CleanEach(f.fields["interests"].items, numberText),
        CleanEach(f.fields["preferences"].items, numberText)))
    else None
  }

  /** The `map` callback on one accepted item; `None` when it throws. */
  function ConvertItem(item: Json, numberText: real -> string): (r: Option<ParsedRecommendation>)
    ensures r.None? <==> CleanTextField(Get(item, "professionName")).None? || CleanTextField(Get(item, "justification")).None?
    ensures r.Some? ==> r.value.professionName == CleanTextField(Get(item, "professionName")).value
    ensures r.Some? ==> r.value.justification == CleanTextField(Get(item, "justification")).value
    ensures r.Some? ==> r.value.matchScore == ScoreOf(item) && r.value.matchingFactors == FactorsOf(item, numberText)
  {
    var name := CleanTextField(Get(item, "professionName"));
    var justification := CleanTextField(Get(item, "justification"));
    if name.None? || justification.None? then None
    else Some(ParsedRecommendation(name.value, ScoreOf(item), justification.value, FactorsOf(item, numberText)))
  }

  /** `kept.map(...)`: all the converted items, or `None` when any conversion throws. */
  function ConvertAll(kept: seq<Json>, numberText: real -> string): (r: Option<seq<ParsedRecommendation>>)
    ensures r.Some? ==> |r.value| == |kept|
    ensures r.Some? ==> forall k :: 0 <= k < |kept| ==> ConvertItem(kept[k], numberText) == Some(r.value[k])
    ensures r.None? <==> exists k :: 0 <= k < |kept| && ConvertItem(kept[k], numberText).None?
  {
    if forall k :: 0 <= k < |kept| ==> ConvertItem(kept[k], numberText).Some? then
      Some(seq(|kept|, k requires 0 <= k < |kept| => ConvertItem(kept[k], numberText).value))
    else None
  }

  /** The filter-then-map stage on a parsed array. */
  function ParseItems(items: seq<Json>, numberText: real -> string): Option<seq<ParsedRecommendation>> {
    ConvertAll(KeepWellFormed(items), numberText)
  }

  /** The text that is handed to `JSON.parse`. */
  function TextToParse(jsonString: string): string {
    Candidate(UnwrapFence(Trim(jsonString)))
  }

  /**
   * `parseAiJsonResponse(jsonString)`. `JSON.parse` is the parameter `parse`
   * (`None` where it throws); `numberText` prints numbers for `String(x)`.
   * The result is `[]` when the extracted text is empty, does not parse, is not
   * an array, or when normalising an accepted item throws; otherwise it is the
   * normalised well-formed items in order, each with a score in [0, 100] if any.
   */
  method ParseAiJsonResponse(jsonString: string, parse: string -> Option<Json>, numberText: real -> string)
    returns (recs: seq<ParsedRecommendation>)
    ensures var c := TextToParse(jsonString);
      c == "" || parse(c).None? || !parse(c).value.JArray? ==> recs == []
    ensures var c := TextToParse(jsonString);
      c != "" && parse(c).Some? && parse(c).value.JArray? ==>
        recs == ParseItems(parse(c).value.items, numberText).GetOr([])
    ensures forall k :: 0 <= k < |recs| ==> recs[k].matchScore.Some? ==> 0.0 <= recs[k].matchScore.value <= 100.0
  {
    var jsonDataToParse := Trim(jsonString);
    jsonDataToParse := UnwrapFence(jsonDataToParse);
    jsonDataToParse := ExtractJsonCandidate(jsonDataToParse);
    if jsonDataToParse == "" {
      return [];
    }
    var parsedData := parse(jsonDataToParse);
    if parsedData.None? || !parsedData.value.JArray? {
      return [];
    }
    var converted := ParseItems(parsedData.value.items, numberText);
    recs := converted.GetOr([]);
    if converted.Some? {
      forall k | 0 <= k < |recs| ensures recs[k].matchScore.Some? ==> 0.0 <= recs[k].matchScore.value <= 100.0 {
        assert ConvertItem(KeepWellFormed(parsedData.value.items)[k], numberText) == Some(recs[k]);
      }
    }
  }

  // ---------------------------------------------------------------------------
  // Properties
  // ---------------------------------------------------------------------------

  /** `FirstClose` finds `e` when the tail matches there and nowhere between `from` and `e`. */
  lemma {:induction false} FirstCloseIs(s: string, from: nat, e: nat)
    requires from <= e <= |s| && ClosesAt(s, e)
    requires forall k :: from <= k < e ==> !ClosesAt(s, k)
    ensures FirstClose(s, from) == Some(e)
    decreases e - from
  {
    if from < e {
      FirstCloseIs(s, from + 1, e);
    }
  }

  /** Inside a text that ends in a non-space character, a white-space run stops before that character. */
  lemma SpaceRunStopsBefore(s: string, k: nat, last: nat)
    requires k <= last < |s| && !IsSpace(s[last])
    ensures k + SpaceRun(s, k) <= last
  {
  }

  /** A reply wrapped in a fence, optionally tagged with a language. */
  function Fenced(lang: string, body: string): (s: string)
    ensures |s| == 8 + |lang| + |body|
  {
    "```" + lang + "\n" + body + "\n```"
  }

  /** The opening of a fence tagged `json` or untagged is skipped up to the first body character. */
  lemma FenceOpening(lang: string, body: string)
    requires lang == "json" || lang == ""
    requires body != [] && !IsSpace(body[0])
    ensures OccursAt(Fenced(lang, body), "```", 0)
    ensures BodyStart(Fenced(lang, body), 0) == 4 + |lang|
  {
    var s := Fenced(lang, body);
    var b := 4 + |lang|;
    assert s[..3] == "```";
    if lang == "" {
      assert !OccursAt(s, "json", 3) by { assert s[3] == '\n'; }
    } else {
      assert s[3..7] == "json";
    }
    assert s[3 + |lang|] == '\n' && s[b] == body[0];
    assert SpaceRun(s, 3 + |lang|) == 1;
  }

  /** The closing line of a fence matches the tail of the pattern right after the body. */
  lemma FenceClosing(lang: string, body: string)
    ensures ClosesAt(Fenced(lang, body), 4 + |lang| + |body|)
  {
    var s := Fenced(lang, body);
    var close := 4 + |lang| + |body|;
    assert s[close] == '\n' && s[close + 1] == '`';
    assert SpaceRun(s, close) == 1;
    assert s[close + 1..close + 4] == "```";
  }

  /** No index inside a body without backticks and ending in a non-space character closes the fence. */
  lemma NoCloseInsideBody(lang: string, body: string)
    requires body != [] && !IsSpace(body[|body| - 1]) && '`' !in body
    ensures forall k :: 4 + |lang| <= k < 4 + |lang| + |body| ==> !ClosesAt(Fenced(lang, body), k)
  {
    var s := Fenced(lang, body);
    var b := 4 + |lang|;
    var close := b + |body|;
    forall k | b <= k < close ensures !ClosesAt(s, k) {
      assert s[close - 1] == body[|body| - 1];
      SpaceRunStopsBefore(s, k, close - 1);
      var m := k + SpaceRun(s, k);
      assert s[m] == body[m - b];
    }
  }

  /**
   * A reply wrapped in a fence (optionally tagged `json`) is unwrapped to
   * exactly its body, when the body has no backtick and no edge white space.
   */
  lemma UnwrapFencedBody(lang: string, body: string)
    requires lang == "json" || lang == ""
    requires body != [] && NoEdgeSpace(body) && '`' !in body
    ensures UnwrapFence(Fenced(lang, body)) == body
  {
    var s := Fenced(lang, body);
    var b := 4 + |lang|;
    var close := b + |body|;
    FenceOpening(lang, body);
    FenceClosing(lang, body);
    NoCloseInsideBody(lang, body);
    FirstCloseIs(s, b, close);
    assert s[b..close] == body;
    assert FenceBody(s, 0) == Some(body);
    TrimNoEdgeSpace(body);
  }

  /** A fenced JSON array or object reaches the parser unchanged. */
  lemma FencedJsonReachesParser(lang: string, body: string)
    requires lang == "json" || lang == ""
    requires IsBracketed(body) && '`' !in body
    ensures TextToParse(Fenced(lang, body)) == body
  {
    var s := Fenced(lang, body);
    assert s[0] == '`' && s[|s| - 1] == '`';
    TrimNoEdgeSpace(s);
    assert NoEdgeSpace(body) by {
      assert body[0] == '[' || body[0] == '{';
      assert body[|body| - 1] == ']' || body[|body| - 1] == '}';
    }
    UnwrapFencedBody(lang, body);
  }

  /** Before the first return to zero, the count stays at least one. */
  lemma {:induction false} CountStaysPositive(s: string, start: nat, open: char, close: char, e: nat)
    requires start < e < |s| && s[start] == open && open != close
    requires forall k :: start <= k < e ==> CountThrough(s, start, open, close, k) != 0
    ensures CountThrough(s, start, open, close, e - 1) >= 1
    decreases e - start
  {
    CountStep(s, start, open, close, e - 1);
    if e - 1 == start {
      assert s[start..start] == [];
    } else {
      CountStaysPositive(s, start, open, close, e - 1);
      assert s[start..e - 1] == s[start..(e - 2) + 1];
    }
  }

  /** The first return to zero happens after the opener, on a closing character. */
  lemma BalancedEndsWithCloser(s: string, start: nat, open: char, close: char, e: nat)
    requires start < |s| && s[start] == open && open != close
    requires FirstBalanced(s, start, open, close, start) == Some(e)
    ensures start < e && s[e] == close
  {
    FirstBalancedSpec(s, start, open, close, start);
    CountStep(s, start, open, close, start);
    assert s[start..start] == [];
    CountStaysPositive(s, start, open, close, e);
    CountStep(s, start, open, close, e);
    assert s[start..e] == s[start..(e - 1) + 1];
  }

  /** A slice from an opener to its matching closer is bracketed and has no edge white space. */
  lemma OpenerToCloserBracketed(s: string, a: nat, b: nat, open: char)
    requires a < b < |s| && IsOpener(open)
    requires s[a] == open && s[b] == CloserOf(open)
    ensures Trim(s[a..b + 1]) == s[a..b + 1] && IsBracketed(s[a..b + 1])
  {
    var region := s[a..b + 1];
    assert region[0] == open && region[|region| - 1] == CloserOf(open);
    TrimNoEdgeSpace(region);
  }

  /**
   * A region cut from an opener to a matching closer is itself bracketed and
   * needs no trimming.
   */
  lemma CutRegionIsBracketed(s: string, o: Opener, e: nat)
    requires o.start < e < |s| && IsOpener(o.open)
    requires s[o.start] == o.open && s[e] == CloserOf(o.open)
    ensures CutAt(s, o, Some(e)) == s[o.start..e + 1] && IsBracketed(CutAt(s, o, Some(e)))
  {
    OpenerToCloserBracketed(s, o.start, e, o.open);
  }

  /**
   * Extraction either leaves the text alone or yields a strictly shorter
   * bracketed slice of it; applying it again changes nothing.
   */
  lemma CandidateShape(s: string)
    ensures Candidate(s) == s || (IsBracketed(Candidate(s)) && |Candidate(s)| < |s|)
    ensures Candidate(Candidate(s)) == Candidate(s)
  {
    if !IsBracketed(s) && ChooseOpener(s).Some? {
      var o := ChooseOpener(s).value;
      var scan := FirstBalanced(s, o.start, o.open, o.close, o.start);
      if scan.Some? {
        BalancedEndsWithCloser(s, o.start, o.open, o.close, scan.value);
        CutRegionIsBracketed(s, o, scan.value);
      }
    }
  }

  /** Filtering keeps order: it works on a concatenation piece by piece. */
  lemma {:induction false} KeepWellFormedAppend(a: seq<Json>, b: seq<Json>)
    ensures KeepWellFormed(a + b) == KeepWellFormed(a) + KeepWellFormed(b)
    decreases |b|
  {
    if b == [] {
      assert a + b == a;
    } else {
      var last := b[|b| - 1];
      var keepLast := if WellFormedItem(last) then [last] else [];
      assert (a + b)[..|a + b| - 1] == a + b[..|b| - 1];
      assert (a + b)[|a + b| - 1] == last;
      assert KeepWellFormed(a + b) == KeepWellFormed(a + b[..|b| - 1]) + keepLast;
      assert KeepWellFormed(b) == KeepWellFormed(b[..|b| - 1]) + keepLast;
      KeepWellFormedAppend(a, b[..|b| - 1]);
    }
  }

  /** Normalising keeps order, and a throw anywhere makes the whole stage throw. */
  lemma ConvertAllAppend(a: seq<Json>, b: seq<Json>, numberText: real -> string)
    ensures ConvertAll(a + b, numberText).Some? <==> ConvertAll(a, numberText).Some? && ConvertAll(b, numberText).Some?
    ensures ConvertAll(a + b, numberText).Some? ==>
      ConvertAll(a + b, numberText).value == ConvertAll(a, numberText).value + ConvertAll(b, numberText).value
  {
    if ConvertAll(a, numberText).None? {
      var k :| 0 <= k < |a| && ConvertItem(a[k], numberText).None?;
      assert (a + b)[k] == a[k];
    } else if ConvertAll(b, numberText).None? {
      var k :| 0 <= k < |b| && ConvertItem(b[k], numberText).None?;
      assert (a + b)[|a| + k] == b[k];
    } else {
      var ra, rb := ConvertAll(a, numberText).value, ConvertAll(b, numberText).value;
      forall k | 0 <= k < |a + b| ensures ConvertItem((a + b)[k], numberText) == Some((ra + rb)[k]) {
        if k < |a| {
          assert ConvertItem(a[k], numberText) == Some(ra[k]);
        } else {
          assert ConvertItem(b[k - |a|], numberText) == Some(rb[k - |a|]);
        }
      }
    }
  }

  /**
   * The item stage is compositional: the records of a concatenated array are
   * the records of its two parts, in order, and it fails if either part fails.
   */
  lemma ParseItemsAppend(a: seq<Json>, b: seq<Json>, numberText: real -> string)
    ensures ParseItems(a + b, numberText).Some? <==> ParseItems(a, numberText).Some? && ParseItems(b, numberText).Some?
    ensures ParseItems(a + b, numberText).Some? ==>
      ParseItems(a + b, numberText).value == ParseItems(a, numberText).value + ParseItems(b, numberText).value
  {
    KeepWellFormedAppend(a, b);
    ConvertAllAppend(KeepWellFormed(a), KeepWellFormed(b), numberText);
  }

  /** A single well-formed item with string fields becomes exactly one record, built from its cleaned fields. */
  lemma SingleItem(item: Json, name: string, justification: string, numberText: real -> string)
    requires item.JObject?
    requires Get(item, "professionName") == Some(JString(name)) && name != ""
    requires Get(item, "justification") == Some(JString(justification)) && justification != ""
    ensures ParseItems([item], numberText).Some? && |ParseItems([item], numberText).value| == 1
    ensures var r := ParseItems([item], numberText).value[0];
      && r.professionName == CleanMarkdown(Some(name))
      && r.justification == CleanMarkdown(Some(justification))
      && r.matchScore == ScoreOf(item)
      && r.matchingFactors == FactorsOf(item, numberText)
  {
    assert [item][..0] == [];
    assert WellFormedItem(item);
    assert KeepWellFormed([item]) == [item];
    var converted := ConvertItem(item, numberText);
    assert converted.Some?;
    assert ConvertAll([item], numberText).value[0] == converted.value;
  }

  /** `r` is what normalising some well-formed item of `items` gives. */
  predicate ComesFromItem(r: ParsedRecommendation, items: seq<Json>, numberText: real -> string) {
    exists x :: x in items && WellFormedItem(x) && ConvertItem(x, numberText) == Some(r)
  }

  /**
   * Every record comes from a well-formed item of the array, and
   * there are never more records than items.
   */
  lemma ParsedRecordsProvenance(items: seq<Json>, numberText: real -> string)
    requires ParseItems(items, numberText).Some?
    ensures |ParseItems(items, numberText).value| <= |items|
    ensures forall r :: r in ParseItems(items, numberText).value ==> ComesFromItem(r, items, numberText)
  {
    var kept := KeepWellFormed(items);
    var recs := ParseItems(items, numberText).value;
    forall r | r in recs
      ensures ComesFromItem(r, items, numberText)
    {
      var k :| 0 <= k < |recs| && recs[k] == r;
      assert ConvertItem(kept[k], numberText) == Some(r);
      assert kept[k] in kept;
    }
  }

  /** An item that is not an object, or lacks a truthy name or justification, contributes nothing. */
  lemma IllFormedItemDropped(item: Json, numberText: real -> string)
    requires !WellFormedItem(item)
    ensures ParseItems([item], numberText) == Some([])
  {
    assert [item][..0] == [];
  }
}
