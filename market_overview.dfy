/**
 * The market-overview page's data preparation: skill-name formatting,
 * Russian plural forms, and the aggregation of the profession catalogue
 * into the most required skills and a sample of high-demand professions.
 */
module MarketOverview {

  // ---------------------------------------------------------------------------
  // formatSkillName
  // ---------------------------------------------------------------------------

  /** `\w` in a JavaScript regular expression without the `u` flag: ASCII letters, digits and `_`. */
  predicate IsWordChar(c: char) {
    ('a' <= c <= 'z') || ('A' <= c <= 'Z') || ('0' <= c <= '9') || c == '_'
  }

  predicate IsLowerAscii(c: char) {
    'a' <= c <= 'z'
  }

  /** `toUpperCase` on a character matched by `\w`. */
  function UpperAscii(c: char): (u: char)
    ensures IsWordChar(u) == IsWordChar(c) && !IsLowerAscii(u)
  {
    if IsLowerAscii(c) then (c as int - 32) as char else c
  }

  /** `\b\w` matches at `i`: a word character at the start or after a non-word character. */
  predicate WordStart(s: string, i: nat)
    requires i < |s|
  {
    IsWordChar(s[i]) && (i == 0 || !IsWordChar(s[i - 1]))
  }

  /** `s.replace(/_/g, " ")` */
  function UnderscoresToSpaces(s: string): (r: string)
    ensures |r| == |s| && '_' !in r
  {
    seq(|s|, i requires 0 <= i < |s| => if s[i] == '_' then ' ' else s[i])
  }

  /** `s.replace(/\b\w/g, (l) => l.toUpperCase())`; every match is found in the original text. */
  function CapitalizeWords(s: string): (r: string)
    ensures |r| == |s|
  {
    seq(|s|, i requires 0 <= i < |s| => if WordStart(s, i) then UpperAscii(s[i]) else s[i])
  }

  /** `formatSkillName`: underscores become spaces and every word starts with a capital ASCII letter. */
  function FormatSkillName(skillName: string): (r: string)
    ensures |r| == |skillName| && '_' !in r
  {
    if skillName == "" then "" else CapitalizeWords(UnderscoresToSpaces(skillName))
  }

  /** Capitalisation keeps word boundaries where they are. */
  lemma CapitalizeKeepsWordStarts(s: string)
    ensures forall i :: 0 <= i < |s| ==> (WordStart(CapitalizeWords(s), i) <==> WordStart(s, i))
  {
    var r := CapitalizeWords(s);
    assert forall i :: 0 <= i < |s| ==> IsWordChar(r[i]) == IsWordChar(s[i]);
  }

  /**
   * What formatting does character by character: a word start becomes its
   * upper case, an underscore becomes a space, anything else stays.
   */
  lemma FormatCharacters(skillName: string)
    ensures var r := FormatSkillName(skillName);
      forall i :: 0 <= i < |skillName| ==>
        && (WordStart(r, i) ==> r[i] == UpperAscii(skillName[i]))
        && (!WordStart(r, i) ==> r[i] == if skillName[i] == '_' then ' ' else skillName[i])
  {
    if skillName != "" {
      CapitalizeKeepsWordStarts(UnderscoresToSpaces(skillName));
    }
  }

  /** Formatting an already formatted name changes nothing. */
  lemma FormatIdempotent(skillName: string)
    ensures FormatSkillName(FormatSkillName(skillName)) == FormatSkillName(skillName)
  {
    var r := FormatSkillName(skillName);
    if r != "" {
      assert UnderscoresToSpaces(r) == r;
      CapitalizeKeepsWordStarts(UnderscoresToSpaces(skillName));
      FormatCharacters(skillName);
      assert CapitalizeWords(r) == r;
    }
  }

  // ---------------------------------------------------------------------------
  // pluralize
  // ---------------------------------------------------------------------------

  /** JavaScript's `%` on integers: the remainder takes the sign of the dividend. */
  function JsRem(a: int, b: int): (r: int)
    requires b > 0
    ensures a >= 0 ==> 0 <= r < b && r == a % b
    ensures a < 0 ==> -b < r <= 0
    ensures (a - r) % b == 0
  {
    if a >= 0 then
      assert a - a % b == (a / b) * b;
      MultipleHasNoRemainder(a / b, b);
      a % b
    else
      assert a + (-a) % b == -((-a) / b) * b;
      MultipleHasNoRemainder(-((-a) / b), b);
      -((-a) % b)
  }

  /** A whole multiple of `b` leaves no remainder. */
  lemma MultipleHasNoRemainder(q: int, b: int)
    requires b > 0
    ensures (q * b) % b == 0
  {
    var d := (q * b) / b;
    assert (q - d) * b == (q * b) % b;
    if q - d >= 1 {
      assert false;
    } else if q - d <= -1 {
      assert false;
    }
  }

  /** `pluralize(number, one, few, many)`: the Russian plural form for a count. */
  function Pluralize(number: int, one: string, few: string, many: string): (r: string)
    ensures r == one || r == few || r == many
  {
    var mod10 := JsRem(number, 10);
    var mod100 := JsRem(number, 100);
    if mod10 == 1 && mod100 != 11 then one
    else if 2 <= mod10 <= 4 && (mod100 < 10 || mod100 >= 20) then few
    else many
  }

  /** For a count, the form depends only on its last two digits. */
  lemma PluralizePeriodic(n: nat, one: string, few: string, many: string)
    ensures Pluralize(n + 100, one, few, many) == Pluralize(n, one, few, many)
  {
    assert (n + 100) % 100 == n % 100;
    assert (n + 100) % 10 == n % 10;
  }

  /**
   * The Russian rule: "one" for 1, 21, 31, ... but not 11; "few" for 2-4,
   * 22-24, ... but not 12-14; "many" for everything else.
   */
  lemma PluralizeRule(n: nat, one: string, few: string, many: string)
    requires one != few && few != many && one != many
    ensures Pluralize(n, one, few, many) == one <==> n % 10 == 1 && n % 100 != 11
    ensures Pluralize(n, one, few, many) == few <==> 2 <= n % 10 <= 4 && !(12 <= n % 100 <= 14)
    ensures Pluralize(n, one, few, many) == many <==> !(n % 10 == 1 && n % 100 != 11) && !(2 <= n % 10 <= 4 && !(12 <= n % 100 <= 14))
  {
    assert n % 10 == (n % 100) % 10;
  }

  /** A negative count always takes the "many" form, because its remainders are never positive. */
  lemma PluralizeNegative(n: int, one: string, few: string, many: string)
    requires n < 0
    ensures Pluralize(n, one, few, many) == many
  {
  }

  // ---------------------------------------------------------------------------
  // getMarketOverviewData
  // ---------------------------------------------------------------------------

  datatype Demand = High | Medium | Low

  /** The catalogue fields the overview reads. */
  datatype Profession = Profession(id: string, nameRu: string, requiredSkills: seq<string>, demand: Demand)

  datatype SkillCount = SkillCount(name: string, count: nat)

  datatype MarketOverviewData = MarketOverviewData(
    topSkills: seq<SkillCount>,
    topHighDemandProfessions: seq<Profession>,
    highDemandCount: nat,
    mediumDemandCount: nat,
    totalProfessions: nat)

  const TopSkillsCount := 25
  const TopHighDemandProfessionsCount := 3

  /** Every required skill of every profession, in catalogue order. */
  function AllSkills(professions: seq<Profession>): seq<string> {
    if professions == [] then []
    else AllSkills(professions[..|professions| - 1]) + professions[|professions| - 1].requiredSkills
  }

  /** The professions with the given demand, in catalogue order. */
  function WithDemand(professions: seq<Profession>, demand: Demand): (r: seq<Profession>)
    ensures |r| <= |professions|
  {
    if professions == [] then []
    else
      var last := professions[|professions| - 1];
      WithDemand(professions[..|professions| - 1], demand) + (if last.demand == demand then [last] else [])
  }

  /** The list holds exactly the professions of the catalogue with the given demand. */
  lemma {:induction false} WithDemandMembers(professions: seq<Profession>, demand: Demand)
    ensures forall p :: p in WithDemand(professions, demand) <==> p in professions && p.demand == demand
  {
    if professions != [] {
      var init := professions[..|professions| - 1];
      var last := professions[|professions| - 1];
      WithDemandMembers(init, demand);
      assert professions == init + [last];
    }
  }

  /** The `skillCounts` object: counts by name, and the names in the order they were first added. */
  datatype SkillTally = SkillTally(counts: map<string, nat>, order: seq<string>)

  predicate Distinct(names: seq<string>) {
    forall i, j :: 0 <= i < j < |names| ==> names[i] != names[j]
  }

  /** `skillCounts[skill] = (skillCounts[skill] || 0) + 1` */
  function AddSkill(t: SkillTally, skill: string): SkillTally {
    if skill in t.counts then SkillTally(t.counts[skill := t.counts[skill] + 1], t.order)
    else SkillTally(t.counts[skill := 1], t.order + [skill])
  }

  /** The tally of a list of skill occurrences, taken one occurrence at a time. */
  function Tally(skills: seq<string>): SkillTally {
    if skills == [] then SkillTally(map[], [])
    else AddSkill(Tally(skills[..|skills| - 1]), skills[|skills| - 1])
  }

  /**
   * The tally counts each skill exactly as often as it occurs, knows no
   * other names, and lists each of its names exactly once.
   */
  lemma {:induction false} TallyCounts(skills: seq<string>)
    ensures var t := Tally(skills);
      && (forall x :: x in t.counts <==> x in skills)
      && (forall x :: x in t.counts ==> t.counts[x] == multiset(skills)[x])
      && (forall x :: x in t.order <==> x in t.counts)
      && Distinct(t.order)
  {
    if skills != [] {
      var prefix := skills[..|skills| - 1];
      var last := skills[|skills| - 1];
      assert skills == prefix + [last];
      TallyCounts(prefix);
    }
  }

  /** `Object.entries(skillCounts).map(([name, count]) => ({ name, count }))` */
  function Entries(t: SkillTally): (entries: seq<SkillCount>)
    ensures |entries| == |t.order|
  {
    seq(|t.order|, k requires 0 <= k < |t.order| =>
      SkillCount(t.order[k], if t.order[k] in t.counts then t.counts[t.order[k]] else 0))
  }

  predicate SortedByCountDesc(s: seq<SkillCount>) {
    forall i, j :: 0 <= i < j < |s| ==> s[i].count >= s[j].count
  }

  /** Insert `x` after every element whose count is at least its own, so equal counts keep their order. */
  function InsertByCount(x: SkillCount, sorted: seq<SkillCount>): (r: seq<SkillCount>)
    ensures |r| == |sorted| + 1
  {
    if sorted == [] then [x]
    else if sorted[0].count >= x.count then [sorted[0]] + InsertByCount(x, sorted[1..])
    else [x] + sorted
  }

  /** Insertion adds exactly `x` and keeps a sorted list sorted. */
  lemma {:induction false} InsertByCountSorted(x: SkillCount, sorted: seq<SkillCount>)
    ensures multiset(InsertByCount(x, sorted)) == multiset(sorted) + multiset{x}
    ensures SortedByCountDesc(sorted) ==> SortedByCountDesc(InsertByCount(x, sorted))
  {
    if sorted == [] {
    } else if sorted[0].count >= x.count {
      var head := sorted[0];
      var rest := InsertByCount(x, sorted[1..]);
      InsertByCountSorted(x, sorted[1..]);
      assert sorted == [head] + sorted[1..];
      assert InsertByCount(x, sorted) == [head] + rest;
      if SortedByCountDesc(sorted) {
        forall k | 0 <= k < |rest| ensures rest[k].count <= head.count {
          assert rest[k] in multiset(rest);
          if rest[k] != x {
            var m :| 0 <= m < |sorted[1..]| && sorted[1..][m] == rest[k];
            assert sorted[m + 1] == rest[k];
          }
        }
        SortedCons(head, rest);
      }
    } else {
      assert InsertByCount(x, sorted) == [x] + sorted;
      if SortedByCountDesc(sorted) {
        SortedCons(x, sorted);
      }
    }
  }

  /** A sorted list stays sorted behind an element whose count is at least that of every element. */
  lemma SortedCons(head: SkillCount, rest: seq<SkillCount>)
    requires SortedByCountDesc(rest)
    requires forall k :: 0 <= k < |rest| ==> rest[k].count <= head.count
    ensures SortedByCountDesc([head] + rest)
  {
    var r := [head] + rest;
    forall i, j | 0 <= i < j < |r| ensures r[i].count >= r[j].count {
      assert r[j] == rest[j - 1];
      if i > 0 { assert r[i] == rest[i - 1]; }
    }
  }

  /** `.sort((a, b) => b.count - a.count)`: a stable sort by descending count. */
  function SortByCountDesc(s: seq<SkillCount>): (r: seq<SkillCount>)
    ensures |r| == |s|
  {
    if s == [] then [] else InsertByCount(s[|s| - 1], SortByCountDesc(s[..|s| - 1]))
  }

  /** Sorting yields a list in descending order of count. */
  lemma {:induction false} SortByCountDescSorted(s: seq<SkillCount>)
    ensures SortedByCountDesc(SortByCountDesc(s))
  {
    if s != [] {
      var init := s[..|s| - 1];
      SortByCountDescSorted(init);
      InsertByCountSorted(s[|s| - 1], SortByCountDesc(init));
    }
  }

  /** Sorting yields a permutation of its input. */
  lemma {:induction false} SortByCountDescPermutes(s: seq<SkillCount>)
    ensures multiset(SortByCountDesc(s)) == multiset(s)
  {
    if s != [] {
      var init := s[..|s| - 1];
      SortByCountDescPermutes(init);
      InsertByCountSorted(s[|s| - 1], SortByCountDesc(init));
      assert s == init + [s[|s| - 1]];
    }
  }

  function Min(a: int, b: int): int {
    if a <= b then a else b
  }

  /** `.slice(0, end)`: a negative end counts back from the end of the list. */
  function SliceTo<T>(s: seq<T>, end: int): (r: seq<T>)
    ensures |r| <= |s| && r == s[..|r|]
    ensures end >= 0 ==> |r| == Min(end, |s|)
  {
    var stop := if end < 0 then (if |s| + end < 0 then 0 else |s| + end) else (if end <= |s| then end else |s|);
    s[..stop]
  }

  /** The skill counts of the whole catalogue, sorted by descending count. */
  function RankedSkills(professions: seq<Profession>): seq<SkillCount> {
    SortByCountDesc(Entries(Tally(AllSkills(professions))))
  }

  // ---------------------------------------------------------------------------
  // Demonstration counts
  // ---------------------------------------------------------------------------

  /** A value of `Math.random()`: at least 0 and below 1. */
  type UnitInterval = x: real | 0.0 <= x < 1.0 witness 0.0

  const MinDemoCount := 20
  const MaxDemoCount := 100

  /** `Math.floor(Math.random() * (max - min + 1)) + min`: a whole number from 20 to 100. */
  function DemoCount(u: UnitInterval): (n: nat)
    ensures MinDemoCount <= n <= MaxDemoCount
  {
    (u * (MaxDemoCount - MinDemoCount + 1) as real).Floor + MinDemoCount
  }

  predicate SortedDesc(s: seq<nat>) {
    forall i, j :: 0 <= i < j < |s| ==> s[i] >= s[j]
  }

  /** Insert `x` after every element at least as large. */
  function InsertDesc(x: nat, sorted: seq<nat>): (r: seq<nat>)
    ensures |r| == |sorted| + 1
  {
    if sorted == [] then [x]
    else if sorted[0] >= x then [sorted[0]] + InsertDesc(x, sorted[1..])
    else [x] + sorted
  }

  /** `.sort((a, b) => b - a)` on whole numbers. */
  function SortDesc(s: seq<nat>): (r: seq<nat>)
    ensures |r| == |s|
  {
    if s == [] then [] else InsertDesc(s[|s| - 1], SortDesc(s[..|s| - 1]))
  }

  /** Insertion adds exactly `x`. */
  lemma {:induction false} InsertDescPermutes(x: nat, sorted: seq<nat>)
    ensures multiset(InsertDesc(x, sorted)) == multiset(sorted) + multiset{x}
  {
    if sorted != [] && sorted[0] >= x {
      InsertDescPermutes(x, sorted[1..]);
      assert sorted == [sorted[0]] + sorted[1..];
    }
  }

  /** A descending list stays descending behind an element at least as large as all of it. */
  lemma SortedDescCons(head: nat, rest: seq<nat>)
    requires SortedDesc(rest)
    requires forall k :: 0 <= k < |rest| ==> rest[k] <= head
    ensures SortedDesc([head] + rest)
  {
    var r := [head] + rest;
    forall i, j | 0 <= i < j < |r| ensures r[i] >= r[j] {
      assert r[j] == rest[j - 1];
      if i > 0 { assert r[i] == rest[i - 1]; }
    }
  }

  /** Insertion keeps a descending list descending. */
  lemma {:induction false} InsertDescSorted(x: nat, sorted: seq<nat>)
    requires SortedDesc(sorted)
    ensures SortedDesc(InsertDesc(x, sorted))
  {
    if sorted == [] {
    } else if sorted[0] >= x {
      var head := sorted[0];
      var tail := sorted[1..];
      var rest := InsertDesc(x, tail);
      assert SortedDesc(tail) by {
        forall i, j | 0 <= i < j < |tail| ensures tail[i] >= tail[j] {
          assert tail[i] == sorted[i + 1] && tail[j] == sorted[j + 1];
        }
      }
      InsertDescSorted(x, tail);
      InsertDescPermutes(x, tail);
      forall k | 0 <= k < |rest| ensures rest[k] <= head {
        assert rest[k] in multiset(tail) + multiset{x};
        if rest[k] != x {
          var m :| 0 <= m < |tail| && tail[m] == rest[k];
          assert sorted[m + 1] == rest[k];
        }
      }
      assert InsertDesc(x, sorted) == [head] + rest;
      SortedDescCons(head, rest);
    } else {
      assert InsertDesc(x, sorted) == [x] + sorted;
      SortedDescCons(x, sorted);
    }
  }

  /** Sorting whole numbers yields a descending list. */
  lemma {:induction false} SortDescSorted(s: seq<nat>)
    ensures SortedDesc(SortDesc(s))
  {
    if s != [] {
      var init := s[..|s| - 1];
      SortDescSorted(init);
      InsertDescSorted(s[|s| - 1], SortDesc(init));
    }
  }

  /** Sorting whole numbers yields a permutation of them. */
  lemma {:induction false} SortDescPermutes(s: seq<nat>)
    ensures multiset(SortDesc(s)) == multiset(s)
  {
    if s != [] {
      var init := s[..|s| - 1];
      SortDescPermutes(init);
      InsertDescPermutes(s[|s| - 1], SortDesc(init));
      assert s == init + [s[|s| - 1]];
    }
  }

  /** `Array.from({ length: n }, ...)`: the `n` drawn counts, in drawing order. */
  function Draws(n: nat, random: nat -> UnitInterval): (r: seq<nat>)
    ensures |r| == n
    ensures forall i :: 0 <= i < n ==> MinDemoCount <= r[i] <= MaxDemoCount
  {
    if n == 0 then [] else Draws(n - 1, random) + [DemoCount(random(n - 1))]
  }

  /** The `n` demonstration counts, drawn from `random` and sorted in descending order. */
  function DemoCounts(n: nat, random: nat -> UnitInterval): (r: seq<nat>)
    ensures |r| == n
  {
    SortDesc(Draws(n, random))
  }

  /** `sortedSkills.map((skill, index) => ...)`: each skill takes the count at its index, when there is one. */
  function WithDemoCounts(skills: seq<SkillCount>, demoCounts: seq<nat>): (r: seq<SkillCount>)
    ensures |r| == |skills|
    ensures forall i :: 0 <= i < |r| ==> r[i].name == skills[i].name
  {
    seq(|skills|, i requires 0 <= i < |skills| =>
      SkillCount(skills[i].name, if i < |demoCounts| then demoCounts[i] else skills[i].count))
  }

  /** The `topSkills` list: the true top counts, overwritten by demonstration counts in demonstration mode. */
  function TopSkillsOf(professions: seq<Profession>, topSkillsCount: int, isDemoModeSkills: bool,
                       random: nat -> UnitInterval): (r: seq<SkillCount>)
    ensures |r| <= |RankedSkills(professions)|
    ensures forall i :: 0 <= i < |r| ==> r[i].name == RankedSkills(professions)[i].name
  {
    var sortedSkills := SliceTo(RankedSkills(professions), topSkillsCount);
    if isDemoModeSkills && |sortedSkills| > 0 then WithDemoCounts(sortedSkills, DemoCounts(|sortedSkills|, random))
    else sortedSkills
  }

  /**
   * `getMarketOverviewData(professions, topSkillsCount, topProfessionsCount,
   * isDemoModeSkills)`; `random` stands for the successive values of
   * `Math.random()` drawn for the demonstration counts and `shuffle` for the
   * random reordering of the high-demand list.
   */
  function MarketOverviewOf(professions: seq<Profession>, topSkillsCount: int, topProfessionsCount: int,
                            isDemoModeSkills: bool, random: nat -> UnitInterval,
                            shuffle: seq<Profession> -> seq<Profession>): (r: MarketOverviewData)
    ensures r.totalProfessions == |professions|
    ensures r.highDemandCount <= |professions| && r.mediumDemandCount <= |professions|
    ensures |r.topSkills| <= |RankedSkills(professions)|
  {
    MarketOverviewData(
      TopSkillsOf(professions, topSkillsCount, isDemoModeSkills, random),
      SliceTo(shuffle(WithDemand(professions, High)), topProfessionsCount),
      |WithDemand(professions, High)|,
      |WithDemand(professions, Medium)|,
      |professions|)
  }

  /** The prefix of the catalogue grows by one profession. */
  lemma AllSkillsStep(professions: seq<Profession>, i: nat)
    requires i < |professions|
    ensures AllSkills(professions[..i + 1]) == AllSkills(professions[..i]) + professions[i].requiredSkills
  {
    assert professions[..i + 1][..i] == professions[..i];
  }

  /** The tally of a list grows by one occurrence. */
  lemma TallyStep(skills: seq<string>, skill: string)
    ensures Tally(skills + [skill]) == AddSkill(Tally(skills), skill)
  {
    assert (skills + [skill])[..|skills|] == skills;
  }

  /** `prof.requiredSkills.forEach(...)`: the inner loop adds one profession's skills to the tally. */
  method CountSkills(skillCounts: SkillTally, ghost seen: seq<string>, skills: seq<string>) returns (updated: SkillTally)
    requires skillCounts == Tally(seen)
    ensures updated == Tally(seen + skills)
  {
    updated := skillCounts;
    assert seen + skills[..0] == seen;
    for j := 0 to |skills|
      invariant updated == Tally(seen + skills[..j])
    {
      var skill := skills[j];
      TallyStep(seen + skills[..j], skill);
      assert seen + skills[..j + 1] == seen + skills[..j] + [skill];
      if skill in updated.counts {
        updated := SkillTally(updated.counts[skill := updated.counts[skill] + 1], updated.order);
      } else {
        updated := SkillTally(updated.counts[skill := 1], updated.order + [skill]);
      }
    }
    assert skills[..|skills|] == skills;
  }

  /**
   * The aggregation as the source performs it: one pass over the catalogue
   * that counts every required skill and collects the high- and
   * medium-demand professions, then sorting, slicing and shuffling.
   */
  method GetMarketOverviewData(professions: seq<Profession>, topSkillsCount: int, topProfessionsCount: int,
                               isDemoModeSkills: bool, random: nat -> UnitInterval,
                               shuffle: seq<Profession> -> seq<Profession>)
    returns (data: MarketOverviewData)
    ensures data == MarketOverviewOf(professions, topSkillsCount, topProfessionsCount, isDemoModeSkills, random, shuffle)
  {
    var skillCounts := SkillTally(map[], []);
    var highDemandProfessions: seq<Profession> := [];
    var mediumDemandProfessions: seq<Profession> := [];
    for i := 0 to |professions|
      invariant skillCounts == Tally(AllSkills(professions[..i]))
      invariant highDemandProfessions == WithDemand(professions[..i], High)
      invariant mediumDemandProfessions == WithDemand(professions[..i], Medium)
    {
      var prof := professions[i];
      AllSkillsStep(professions, i);
      assert professions[..i + 1] == professions[..i] + [prof];
      skillCounts := CountSkills(skillCounts, AllSkills(professions[..i]), prof.requiredSkills);
      if prof.demand == High {
        highDemandProfessions := highDemandProfessions + [prof];
      } else if prof.demand == Medium {
        mediumDemandProfessions := mediumDemandProfessions + [prof];
      }
    }
    assert professions[..|professions|] == professions;
    var sortedSkills := SliceTo(SortByCountDesc(Entries(skillCounts)), topSkillsCount);
    if isDemoModeSkills && |sortedSkills| > 0 {
      var demoCounts := SortDesc(Draws(|sortedSkills|, random));
      sortedSkills := WithDemoCounts(sortedSkills, demoCounts);
    }
    var shuffledHighDemand := shuffle(highDemandProfessions);
    var topHighDemandProfessions := SliceTo(shuffledHighDemand, topProfessionsCount);
    data := MarketOverviewData(sortedSkills, topHighDemandProfessions, |highDemandProfessions|,
                               |mediumDemandProfessions|, |professions|);
  }

  // ---------------------------------------------------------------------------
  // Properties
  // ---------------------------------------------------------------------------

  /** Every entry of the tally carries a skill that occurs, with its number of occurrences. */
  lemma EntriesAreCounts(skills: seq<string>)
    ensures forall e :: e in Entries(Tally(skills)) ==> e.name in skills && e.count == multiset(skills)[e.name]
    ensures forall x :: x in skills ==> SkillCount(x, multiset(skills)[x]) in Entries(Tally(skills))
  {
    TallyCounts(skills);
    var t := Tally(skills);
    var entries := Entries(t);
    forall x | x in skills ensures SkillCount(x, multiset(skills)[x]) in entries {
      var m :| 0 <= m < |t.order| && t.order[m] == x;
      assert entries[m] == SkillCount(x, multiset(skills)[x]);
    }
  }

  /** The ranked list holds exactly one entry per required skill, with its number of occurrences, sorted. */
  lemma RankedSkillsFacts(professions: seq<Profession>)
    ensures var ranked := RankedSkills(professions);
      var all := AllSkills(professions);
      && (forall e :: e in ranked ==> e.name in all && e.count == multiset(all)[e.name])
      && (forall x :: x in all ==> SkillCount(x, multiset(all)[x]) in ranked)
      && SortedByCountDesc(ranked)
      && |ranked| == |Tally(all).order|
  {
    var all := AllSkills(professions);
    var entries := Entries(Tally(all));
    SortByCountDescSorted(entries);
    SortByCountDescPermutes(entries);
    EntriesAreCounts(all);
    var ranked := RankedSkills(professions);
    forall e | e in ranked ensures e in entries {
      assert e in multiset(ranked);
    }
    forall x | x in all ensures SkillCount(x, multiset(all)[x]) in ranked {
      assert SkillCount(x, multiset(all)[x]) in multiset(entries);
    }
  }

  /** In a list sorted by descending count, no entry past a prefix outranks an entry of the prefix. */
  lemma PrefixDominates(ranked: seq<SkillCount>, n: nat, e: SkillCount)
    requires SortedByCountDesc(ranked) && n <= |ranked|
    requires e in ranked && e !in ranked[..n]
    ensures forall i :: 0 <= i < n ==> e.count <= ranked[i].count
  {
    var p :| 0 <= p < |ranked| && ranked[p] == e;
    assert forall q :: 0 <= q < n ==> ranked[..n][q] == ranked[q];
  }

  /**
   * The top skills are the most required ones: each comes with its true
   * number of occurrences in the catalogue, they are listed in descending
   * order of count, and no skill left out is required more often than any
   * skill shown. With a non-negative limit, as many are shown as the limit
   * and the number of distinct skills allow.
   */
  lemma TopSkillsAreMostRequired(professions: seq<Profession>, topSkillsCount: int, random: nat -> UnitInterval,
                                 shuffle: seq<Profession> -> seq<Profession>)
    ensures var top := MarketOverviewOf(professions, topSkillsCount, 0, false, random, shuffle).topSkills;
      var all := AllSkills(professions);
      && (forall i :: 0 <= i < |top| ==> top[i].name in all && top[i].count == multiset(all)[top[i].name])
      && SortedByCountDesc(top)
      && (forall x, i :: x in all && 0 <= i < |top| && (forall j :: 0 <= j < |top| ==> top[j].name != x)
                         ==> multiset(all)[x] <= top[i].count)
      && (topSkillsCount >= 0 ==> |top| == Min(topSkillsCount, |Tally(all).order|))
  {
    var all := AllSkills(professions);
    var ranked := RankedSkills(professions);
    var top := MarketOverviewOf(professions, topSkillsCount, 0, false, random, shuffle).topSkills;
    assert top == SliceTo(ranked, topSkillsCount);
    RankedSkillsFacts(professions);
    forall i | 0 <= i < |top| ensures top[i].name in all && top[i].count == multiset(all)[top[i].name] {
      assert top[i] in ranked;
    }
    forall x, i | x in all && 0 <= i < |top| && (forall j :: 0 <= j < |top| ==> top[j].name != x)
      ensures multiset(all)[x] <= top[i].count
    {
      var e := SkillCount(x, multiset(all)[x]);
      assert e !in top;
      PrefixDominates(ranked, |top|, e);
    }
  }

  /** High- and medium-demand professions together are at most the whole catalogue. */
  lemma {:induction false} DemandCountsBounded(professions: seq<Profession>)
    ensures |WithDemand(professions, High)| + |WithDemand(professions, Medium)| <= |professions|
  {
    if professions != [] {
      DemandCountsBounded(professions[..|professions| - 1]);
    }
  }

  /**
   * The sample of high-demand professions holds only high-demand professions
   * of the catalogue, as many as the limit and their number allow, and the
   * demand counts fit within the catalogue size.
   */
  lemma HighDemandSample(professions: seq<Profession>, topProfessionsCount: int, isDemoModeSkills: bool,
                         random: nat -> UnitInterval, shuffle: seq<Profession> -> seq<Profession>)
    requires forall list :: multiset(shuffle(list)) == multiset(list)
    ensures var data := MarketOverviewOf(professions, 0, topProfessionsCount, isDemoModeSkills, random, shuffle);
      && (forall p :: p in data.topHighDemandProfessions ==> p in professions && p.demand == High)
      && (topProfessionsCount >= 0 ==> |data.topHighDemandProfessions| == Min(topProfessionsCount, data.highDemandCount))
      && data.highDemandCount + data.mediumDemandCount <= data.totalProfessions
      && data.totalProfessions == |professions|
  {
    var high := WithDemand(professions, High);
    WithDemandMembers(professions, High);
    var shuffled := shuffle(high);
    assert multiset(shuffled) == multiset(high);
    assert |shuffled| == |multiset(shuffled)| == |high|;
    forall p | p in SliceTo(shuffled, topProfessionsCount) ensures p in professions && p.demand == High {
      assert p in multiset(shuffled);
    }
    DemandCountsBounded(professions);
  }

  /**
   * In demonstration mode the top skills are the same skills in the same
   * order as without it, but each count is replaced by a demonstration count
   * from 20 to 100, and the counts still descend.
   */
  lemma DemoTopSkills(professions: seq<Profession>, topSkillsCount: int, random: nat -> UnitInterval)
    ensures var plain := TopSkillsOf(professions, topSkillsCount, false, random);
      var demo := TopSkillsOf(professions, topSkillsCount, true, random);
      && |demo| == |plain|
      && (forall i :: 0 <= i < |demo| ==> demo[i].name == plain[i].name)
      && (forall i :: 0 <= i < |demo| ==> MinDemoCount <= demo[i].count <= MaxDemoCount)
      && SortedByCountDesc(demo)
  {
    var plain := TopSkillsOf(professions, topSkillsCount, false, random);
    if |plain| > 0 {
      var n := |plain|;
      var draws := Draws(n, random);
      var counts := DemoCounts(n, random);
      SortDescSorted(draws);
      SortDescPermutes(draws);
      forall i | 0 <= i < n ensures MinDemoCount <= counts[i] <= MaxDemoCount {
        assert counts[i] in multiset(draws);
        var j :| 0 <= j < n && draws[j] == counts[i];
      }
      DemoCountsOverlay(plain, counts);
    }
  }

  /** Overwriting the counts of a list with a descending list of the same length keeps the names and sorts the list. */
  lemma DemoCountsOverlay(skills: seq<SkillCount>, counts: seq<nat>)
    requires |counts| == |skills| && SortedDesc(counts)
    ensures var r := WithDemoCounts(skills, counts);
      && (forall i :: 0 <= i < |r| ==> r[i] == SkillCount(skills[i].name, counts[i]))
      && SortedByCountDesc(r)
  {
  }

  /** Filtering by demand keeps catalogue order: on a concatenation it works piece by piece. */
  lemma {:induction false} WithDemandAppend(a: seq<Profession>, b: seq<Profession>, demand: Demand)
    ensures WithDemand(a + b, demand) == WithDemand(a, demand) + WithDemand(b, demand)
    decreases |b|
  {
    if b == [] {
      assert a + b == a;
    } else {
      var last := b[|b| - 1];
      var keepLast := if last.demand == demand then [last] else [];
      assert (a + b)[..|a + b| - 1] == a + b[..|b| - 1];
      assert (a + b)[|a + b| - 1] == last;
      assert WithDemand(a + b, demand) == WithDemand(a + b[..|b| - 1], demand) + keepLast;
      assert WithDemand(b, demand) == WithDemand(b[..|b| - 1], demand) + keepLast;
      WithDemandAppend(a, b[..|b| - 1], demand);
      assert WithDemand(a, demand) + WithDemand(b[..|b| - 1], demand) + keepLast
          == WithDemand(a, demand) + (WithDemand(b[..|b| - 1], demand) + keepLast);
    }
  }
}
