/**
 * `applyHumanLogicToRecommendations`: heuristic rules run on each parsed
 * recommendation. They adjust the AI's match score, attach insights and
 * guess the profession type from keywords in the profession name.
 */
module RecommendationLogic {
  import opened Optional
  import opened Text
  import opened Markdown
  import opened SurveyTypes
  import opened Seqs

  // ---------------------------------------------------------------------------
  // The profession-type keyword table
  // ---------------------------------------------------------------------------

  /** The types in the order the keyword table declares them; the first match wins. */
  const TypeOrder: seq<ProfessionType> := [Technical, Analytical, Creative, Managerial, Social, Marketing]

  /** Position of a type in the table. */
  function Rank(t: ProfessionType): (i: nat)
    ensures i < |TypeOrder| && TypeOrder[i] == t
  {
    match t
    case Technical => 0
    case Analytical => 1
    case Creative => 2
    case Managerial => 3
    case Social => 4
    case Marketing => 5
  }

  /** The keywords of each type, all lower case. */
  function KeywordsOf(t: ProfessionType): seq<string> {
    match t
    case Technical => ["разработчик", "инженер", "программист", "developer", "software engineer", "data scientist",
                       "аналитик данных", "data analyst", "machine learning", "ai specialist", "devops", "тестировщик",
                       "qa engineer", "системный администратор"]
    case Analytical => ["аналитик", "analyst", "бизнес-аналитик", "системный аналитик", "финансовый аналитик",
                        "маркетинговый аналитик"]
    case Creative => ["дизайнер", "designer", "ui/ux", "graphic designer", "web designer", "художник", "иллюстратор",
                      "писатель", "копирайтер", "редактор", "сценарист", "музыкант", "content creator", "animator",
                      "фотограф", "видеограф"]
    case Managerial => ["менеджер", "manager", "product manager", "project manager", "руководитель", "директор",
                        "координатор", "администратор", "team lead", "scrum master", "продюсер"]
    case Social => ["учитель", "преподаватель", "тренер", "коуч", "врач", "доктор", "медсестра", "психолог",
                    "консультант", "юрист", "адвокат", "hr", "human resources", "рекрутер", "customer support",
                    "service", "специалист по работе с клиентами", "социальный работник", "event manager"]
    case Marketing => ["маркетолог", "marketing", "seo", "smm", "pr", "public relations", "таргетолог",
                       "специалист по рекламе", "brand manager", "ppc"]
  }

  /** The keyword the source singles out when it considers skipping the analytical type. */
  const DataAnalystKeyword := "аналитик данных"

  /** `keywords.some((kw) => name.includes(kw))` */
  predicate MentionsAny(name: string, keywords: seq<string>) {
    exists i :: 0 <= i < |keywords| && Contains(name, keywords[i])
  }

  /**
   * The guard of the analytical skip: some technical keyword that occurs in
   * the name itself contains the data-analyst keyword.
   */
  predicate TechnicalDataAnalystHit(nameLower: string) {
    exists i :: 0 <= i < |KeywordsOf(Technical)| && Contains(nameLower, KeywordsOf(Technical)[i])
                 && Contains(KeywordsOf(Technical)[i], DataAnalystKeyword)
  }

  /** The first type at or after position `from` of the table whose keywords occur in `nameLower`. */
  function FirstMatchingType(nameLower: string, from: nat): (t: Option<ProfessionType>)
    requires from <= |TypeOrder|
    ensures t.Some? ==> from <= Rank(t.value) && MentionsAny(nameLower, KeywordsOf(t.value))
    ensures t.Some? ==> forall u :: from <= Rank(u) < Rank(t.value) ==> !MentionsAny(nameLower, KeywordsOf(u))
    ensures t.None? ==> forall u :: from <= Rank(u) ==> !MentionsAny(nameLower, KeywordsOf(u))
    decreases |TypeOrder| - from
  {
    if from == |TypeOrder| then None
    else
      RankOfPosition(from);
      if MentionsAny(nameLower, KeywordsOf(TypeOrder[from])) then Some(TypeOrder[from])
      else FirstMatchingType(nameLower, from + 1)
  }

  /** The table lists each type once, so a position is the rank of the type found there. */
  lemma RankOfPosition(i: nat)
    requires i < |TypeOrder|
    ensures Rank(TypeOrder[i]) == i
  {
    if i == 0 {} else if i == 1 {} else if i == 2 {} else if i == 3 {} else if i == 4 {} else {}
  }

  /** The guessed type of a profession: the first type in table order with a keyword in its lower-cased name. */
  function GuessType(professionName: string): Option<ProfessionType> {
    FirstMatchingType(Lower(professionName), 0)
  }

  // ---------------------------------------------------------------------------
  // Score arithmetic
  // ---------------------------------------------------------------------------

  function RealMin(a: real, b: real): real { if a <= b then a else b }
  function RealMax(a: real, b: real): real { if a >= b then a else b }

  /** `Math.round`: halves round up. */
  function Round(x: real): int {
    (x + 0.5).Floor
  }

  /** `Math.max(0, Math.min(100, Math.round(x)))` */
  function ClampRound(x: real): (r: int)
    ensures 0 <= r <= 100
  {
    var n := Round(x);
    if n < 0 then 0 else if n > 100 then 100 else n
  }

  /** The starting score: the AI's score, or 70 when it gave none. */
  function Seed(rec: ParsedRecommendation): real {
    rec.matchScore.GetOr(70.0)
  }

  /** A recommendation whose score, if any, lies in [0, 100], as the parser guarantees. */
  predicate ValidScore(rec: ParsedRecommendation) {
    rec.matchScore.Some? ==> 0.0 <= rec.matchScore.value <= 100.0
  }

  // ---------------------------------------------------------------------------
  // The rules
  // ---------------------------------------------------------------------------

  /** `cleanMarkdown(criticalSkillInput.trim().toLowerCase())`: what skill names are searched for. */
  function CriticalSkillKey(criticalSkillInput: string): string {
    CleanMarkdown(Some(Lower(Trim(criticalSkillInput))))
  }

  /** Some listed skill, cleaned and lower-cased, contains the key; false when there are no factors. */
  predicate HasCriticalSkill(rec: ParsedRecommendation, key: string) {
    rec.matchingFactors.Some? &&
    exists i :: 0 <= i < |rec.matchingFactors.value.skills| &&
      Contains(Lower(CleanMarkdown(Some(rec.matchingFactors.value.skills[i]))), key)
  }

  const JustificationLengthThreshold := 80
  const TotalFactorsThreshold := 2

  /** The AI gave little detail: a short justification, and fewer than two factors when factors were given. */
  predicate LowInfo(rec: ParsedRecommendation) {
    match rec.matchingFactors
    case Some(f) => |f.skills| + |f.interests| + |f.preferences| < TotalFactorsThreshold
                    && |rec.justification| < JustificationLengthThreshold
    case None => |rec.justification| < JustificationLengthThreshold
  }

  /** More than four skills and interests match. */
  predicate ManyMatches(rec: ParsedRecommendation) {
    rec.matchingFactors.Some? && |rec.matchingFactors.value.skills| + |rec.matchingFactors.value.interests| > 4
  }

  /** The insight about the critical skill, present exactly when a key was given. */
  function CriticalInsights(rec: ParsedRecommendation, key: string): seq<Insight> {
    if key == "" then []
    else if HasCriticalSkill(rec, key) then [Insight(Info, CriticalSkillUsed)]
    else [Insight(Warning, CriticalSkillNotEvidenced)]
  }

  /** The score after the critical-skill rule: up 10 (at most 100) on a match, down 15 (at least 0) otherwise. */
  function CriticalScore(rec: ParsedRecommendation, key: string, score: real): real {
    if key == "" then score
    else if HasCriticalSkill(rec, key) then RealMin(100.0, score + 10.0)
    else RealMax(0.0, score - 15.0)
  }

  function TypeInsight(guess: Option<ProfessionType>): Insight {
    match guess
    case Some(t) => Insight(Info, TypeGuess(t))
    case None => Insight(Info, TypeUndetermined)
  }

  /** The low-information penalty: 7 points off, only when the score is above 40. */
  function LowInfoScore(rec: ParsedRecommendation, score: real): real {
    if LowInfo(rec) && score > 40.0 then RealMax(0.0, score - 7.0) else score
  }

  function RichScore(rec: ParsedRecommendation, score: real): real {
    if ManyMatches(rec) then RealMin(100.0, score + 5.0) else score
  }

  /** What the rules make of one recommendation once its type guess is known. */
  function EnrichWith(rec: ParsedRecommendation, key: string, guess: Option<ProfessionType>): (e: EnrichedRecommendation)
    ensures e.rec == rec
    ensures 0 <= e.adjustedMatchScore <= 100
  {
    var insights :=
      CriticalInsights(rec, key)
      + [TypeInsight(guess)]
      + (if LowInfo(rec) then [Insight(Warning, LimitedDetail)] else [])
      + (if ManyMatches(rec) then [Insight(Info, RichOverlap)] else []);
    var score := RichScore(rec, LowInfoScore(rec, CriticalScore(rec, key, Seed(rec))));
    EnrichedRecommendation(rec, insights, ClampRound(score), guess)
  }

  /** What the rules make of one recommendation. */
  function Enrich(rec: ParsedRecommendation, key: string): (e: EnrichedRecommendation)
    ensures e.rec == rec
    ensures 0 <= e.adjustedMatchScore <= 100
  {
    EnrichWith(rec, key, GuessType(rec.professionName))
  }

  /**
   * The `for (const type in PROFESSION_TYPE_KEYWORDS)` scan: the first type
   * whose keywords occur in the name, except that the analytical type is
   * passed over when a technical keyword containing the data-analyst
   * keyword occurs. That exception never fires: the technical type comes
   * first, so any such name has already been classified as technical.
   */
  method GuessProfessionType(nameLower: string) returns (professionTypeGuess: Option<ProfessionType>)
    ensures professionTypeGuess == FirstMatchingType(nameLower, 0)
  {
    professionTypeGuess := None;
    var i := 0;
    while i < |TypeOrder|
      invariant 0 <= i <= |TypeOrder|
      invariant professionTypeGuess.None?
      invariant FirstMatchingType(nameLower, 0) == FirstMatchingType(nameLower, i)
    {
      var t := TypeOrder[i];
      RankOfPosition(i);
      if MentionsAny(nameLower, KeywordsOf(t)) {
        if t == Analytical && TechnicalDataAnalystHit(nameLower) {
          // the source leaves the analytical type aside here and goes on;
          // the technical type was tried first and did not match, so this
          // branch is never taken
          DataAnalystHitIsTechnical(nameLower);
          assert false;
        } else {
          professionTypeGuess := Some(t);
          break;
        }
      }
      i := i + 1;
    }
  }

  /** A technical keyword that occurs in the name is a technical match. */
  lemma DataAnalystHitIsTechnical(nameLower: string)
    requires TechnicalDataAnalystHit(nameLower)
    ensures MentionsAny(nameLower, KeywordsOf(Technical))
  {
    var i :| 0 <= i < |KeywordsOf(Technical)| && Contains(nameLower, KeywordsOf(Technical)[i])
             && Contains(KeywordsOf(Technical)[i], DataAnalystKeyword);
  }

  /**
   * The callback of `recommendationsFromAI.map(...)` as the source writes it:
   * a record updated step by step, and a scan of the keyword table that
   * stops at the first type whose keywords occur in the name.
   */
  method EnrichRecommendation(rec: ParsedRecommendation, criticalSkill: string) returns (enriched: EnrichedRecommendation)
    ensures enriched == Enrich(rec, criticalSkill)
  {
    var professionTypeGuess := GuessProfessionType(Lower(rec.professionName));
    enriched := EnrichFromGuess(rec, criticalSkill, professionTypeGuess);
  }

  /** The critical-skill rule: the first insight and the score it leaves, starting from the seed. */
  method CriticalSkillRule(rec: ParsedRecommendation, criticalSkill: string)
    returns (customInsights: seq<Insight>, adjustedMatchScore: real)
    ensures customInsights == CriticalInsights(rec, criticalSkill)
    ensures adjustedMatchScore == CriticalScore(rec, criticalSkill, Seed(rec))
  {
    customInsights := [];
    adjustedMatchScore := if rec.matchScore.Some? then rec.matchScore.value else 70.0;
    if criticalSkill != "" {
      if HasCriticalSkill(rec, criticalSkill) {
        customInsights := customInsights + [Insight(Info, CriticalSkillUsed)];
        adjustedMatchScore := RealMin(100.0, adjustedMatchScore + 10.0);
      } else {
        customInsights := customInsights + [Insight(Warning, CriticalSkillNotEvidenced)];
        adjustedMatchScore := RealMax(0.0, adjustedMatchScore - 15.0);
      }
    }
  }

  /** The low-information test, with and without matching factors. */
  method LowInfoCheck(rec: ParsedRecommendation) returns (lowInfoWarning: bool)
    ensures lowInfoWarning == LowInfo(rec)
  {
    lowInfoWarning := false;
    match rec.matchingFactors {
      case Some(factors) =>
        var totalFactorItems := |factors.skills| + |factors.interests| + |factors.preferences|;
        if totalFactorItems < TotalFactorsThreshold && |rec.justification| < JustificationLengthThreshold {
          lowInfoWarning := true;
        }
      case None =>
        if |rec.justification| < JustificationLengthThreshold {
          lowInfoWarning := true;
        }
    }
  }

  /** The record updates that follow the type scan, as the source performs them. */
  method EnrichFromGuess(rec: ParsedRecommendation, criticalSkill: string, professionTypeGuess: Option<ProfessionType>)
    returns (enriched: EnrichedRecommendation)
    ensures enriched == EnrichWith(rec, criticalSkill, professionTypeGuess)
  {
    var customInsights, adjustedMatchScore := CriticalSkillRule(rec, criticalSkill);
    ghost var afterSkill := adjustedMatchScore;
    customInsights := customInsights + [TypeInsight(professionTypeGuess)];
    var lowInfoWarning := LowInfoCheck(rec);
    if lowInfoWarning {
      customInsights := customInsights + [Insight(Warning, LimitedDetail)];
      if adjustedMatchScore > 40.0 {
        adjustedMatchScore := RealMax(0.0, adjustedMatchScore - 7.0);
      }
    }
    assert adjustedMatchScore == LowInfoScore(rec, afterSkill);
    ghost var afterInfo := adjustedMatchScore;
    if rec.matchingFactors.Some? && |rec.matchingFactors.value.skills| + |rec.matchingFactors.value.interests| > 4 {
      customInsights := customInsights + [Insight(Info, RichOverlap)];
      adjustedMatchScore := RealMin(100.0, adjustedMatchScore + 5.0);
    }
    assert adjustedMatchScore == RichScore(rec, afterInfo);
    enriched := EnrichedRecommendation(rec, customInsights, ClampRound(adjustedMatchScore), professionTypeGuess);
  }

  /** `applyHumanLogicToRecommendations`: every recommendation enriched, in order, with the same key. */
  method ApplyHumanLogicToRecommendations(recommendationsFromAI: seq<ParsedRecommendation>, criticalSkillInput: string)
    returns (enriched: seq<EnrichedRecommendation>)
    ensures |enriched| == |recommendationsFromAI|
    ensures forall k :: 0 <= k < |enriched| ==> enriched[k] == Enrich(recommendationsFromAI[k], CriticalSkillKey(criticalSkillInput))
  {
    var criticalSkill := CriticalSkillKey(criticalSkillInput);
    ghost var enrich := (r: ParsedRecommendation) => Enrich(r, criticalSkill);
    enriched := [];
    for k := 0 to |recommendationsFromAI|
      invariant enriched == MapSeq(recommendationsFromAI[..k], enrich)
    {
      var e := EnrichRecommendation(recommendationsFromAI[k], criticalSkill);
      MapSeqSnoc(recommendationsFromAI, k, enrich);
      enriched := enriched + [e];
    }
    assert recommendationsFromAI[..|recommendationsFromAI|] == recommendationsFromAI;
  }

  // ---------------------------------------------------------------------------
  // Properties
  // ---------------------------------------------------------------------------

  /** The guess is `t` exactly when a keyword of `t` occurs and no keyword of an earlier type does. */
  lemma GuessTypeCharacterized(professionName: string, t: ProfessionType)
    ensures GuessType(professionName) == Some(t) <==>
      MentionsAny(Lower(professionName), KeywordsOf(t))
      && forall u :: Rank(u) < Rank(t) ==> !MentionsAny(Lower(professionName), KeywordsOf(u))
  {
    var g := GuessType(professionName);
    if MentionsAny(Lower(professionName), KeywordsOf(t)) && forall u :: Rank(u) < Rank(t) ==> !MentionsAny(Lower(professionName), KeywordsOf(u)) {
      assert g.Some?;
      assert !(Rank(g.value) < Rank(t));
      assert !(Rank(t) < Rank(g.value));
    }
  }

  /** No guess exactly when no keyword of any type occurs in the lower-cased name. */
  lemma GuessTypeNone(professionName: string)
    ensures GuessType(professionName).None? <==> forall u :: !MentionsAny(Lower(professionName), KeywordsOf(u))
  {
    if GuessType(professionName).Some? {
      var t := GuessType(professionName).value;
      assert MentionsAny(Lower(professionName), KeywordsOf(t));
    }
  }

  /** A name mentioning a data analyst is technical, since the technical keywords come first and include it. */
  lemma DataAnalystIsTechnical(professionName: string)
    requires Contains(Lower(professionName), DataAnalystKeyword)
    ensures GuessType(professionName) == Some(Technical)
  {
    assert KeywordsOf(Technical)[6] == DataAnalystKeyword;
    assert MentionsAny(Lower(professionName), KeywordsOf(Technical));
    GuessTypeCharacterized(professionName, Technical);
  }

  /**
   * The analytical skip can never fire: whenever its guard holds, the
   * technical type has already matched.
   */
  lemma AnalyticalSkipUnreachable(nameLower: string)
    requires TechnicalDataAnalystHit(nameLower)
    ensures FirstMatchingType(nameLower, 0) == Some(Technical)
  {
    var i :| 0 <= i < |KeywordsOf(Technical)| && Contains(nameLower, KeywordsOf(Technical)[i])
             && Contains(KeywordsOf(Technical)[i], DataAnalystKeyword);
    assert MentionsAny(nameLower, KeywordsOf(Technical));
    var g := FirstMatchingType(nameLower, 0);
    assert g.Some?;
    assert !(Rank(Technical) < Rank(g.value));
  }

  /**
   * The insights come in a fixed layout: the critical-skill insight first
   * when a key was given, then the type insight, then the low-information
   * warning exactly when the reply was terse, then the overlap insight
   * exactly when many skills and interests matched.
   */
  lemma InsightLayout(rec: ParsedRecommendation, key: string)
    ensures var e := Enrich(rec, key);
      var off := if key == "" then 0 else 1;
      && |e.customInsights| == off + 1 + (if LowInfo(rec) then 1 else 0) + (if ManyMatches(rec) then 1 else 0)
      && e.customInsights[off] == TypeInsight(e.professionTypeGuess)
      && (key != "" ==> (e.customInsights[0] == Insight(Info, CriticalSkillUsed) <==> HasCriticalSkill(rec, key)))
      && (key != "" ==> (e.customInsights[0] == Insight(Warning, CriticalSkillNotEvidenced) <==> !HasCriticalSkill(rec, key)))
      && (Insight(Warning, LimitedDetail) in e.customInsights <==> LowInfo(rec))
      && (Insight(Info, RichOverlap) in e.customInsights <==> ManyMatches(rec))
      && (LowInfo(rec) ==> e.customInsights[off + 1] == Insight(Warning, LimitedDetail))
      && (ManyMatches(rec) ==> e.customInsights[|e.customInsights| - 1] == Insight(Info, RichOverlap))
  {
    InsightLayoutWith(rec, key, GuessType(rec.professionName));
  }

  /** The layout for any type guess. */
  lemma InsightLayoutWith(rec: ParsedRecommendation, key: string, guess: Option<ProfessionType>)
    ensures var e := EnrichWith(rec, key, guess);
      var off := if key == "" then 0 else 1;
      && |e.customInsights| == off + 1 + (if LowInfo(rec) then 1 else 0) + (if ManyMatches(rec) then 1 else 0)
      && e.customInsights[off] == TypeInsight(guess)
      && (key != "" ==> (e.customInsights[0] == Insight(Info, CriticalSkillUsed) <==> HasCriticalSkill(rec, key)))
      && (key != "" ==> (e.customInsights[0] == Insight(Warning, CriticalSkillNotEvidenced) <==> !HasCriticalSkill(rec, key)))
      && (Insight(Warning, LimitedDetail) in e.customInsights <==> LowInfo(rec))
      && (Insight(Info, RichOverlap) in e.customInsights <==> ManyMatches(rec))
      && (LowInfo(rec) ==> e.customInsights[off + 1] == Insight(Warning, LimitedDetail))
      && (ManyMatches(rec) ==> e.customInsights[|e.customInsights| - 1] == Insight(Info, RichOverlap))
  {
    var e := EnrichWith(rec, key, guess);
    var crit := CriticalInsights(rec, key);
    var ti := TypeInsight(guess);
    var head := crit + [ti];
    var low := if LowInfo(rec) then [Insight(Warning, LimitedDetail)] else [];
    var rich := if ManyMatches(rec) then [Insight(Info, RichOverlap)] else [];
    assert e.customInsights == head + low + rich;
    assert ti.tag != LimitedDetail && ti.tag != RichOverlap by {
      match guess { case Some(_) => case None => }
    }
    if key == "" {
      assert head == [ti];
    } else {
      assert head == [crit[0], ti];
    }
    TailMembership(head, low, rich, Insight(Warning, LimitedDetail), Insight(Info, RichOverlap));
  }

  /** Two optional trailing insights are found exactly when present, if the head holds neither tag. */
  lemma TailMembership(head: seq<Insight>, low: seq<Insight>, rich: seq<Insight>, a: Insight, b: Insight)
    requires forall i :: 0 <= i < |head| ==> head[i].tag != a.tag && head[i].tag != b.tag
    requires a.tag != b.tag
    requires low == [] || low == [a]
    requires rich == [] || rich == [b]
    ensures a in head + low + rich <==> low == [a]
    ensures b in head + low + rich <==> rich == [b]
  {
    var all := head + low + rich;
    if a in all {
      var i :| 0 <= i < |all| && all[i] == a;
      assert i >= |head|;
    }
    if b in all {
      var i :| 0 <= i < |all| && all[i] == b;
      assert i >= |head|;
    }
    if low == [a] {
      assert all[|head|] == a;
    }
    if rich == [b] {
      assert all[|all| - 1] == b;
    }
  }

  /** `Round` never decreases when its argument grows. */
  lemma RoundMonotone(x: real, y: real)
    requires x <= y
    ensures Round(x) <= Round(y)
  {
  }

  /**
   * Naming a critical skill that the recommendation uses never lowers the
   * final score compared with naming no skill at all.
   */
  lemma CriticalSkillMatchNeverLowers(rec: ParsedRecommendation, key: string)
    requires ValidScore(rec) && key != "" && HasCriticalSkill(rec, key)
    ensures Enrich(rec, key).adjustedMatchScore >= Enrich(rec, "").adjustedMatchScore
  {
    var s := Seed(rec);
    var with := RichScore(rec, LowInfoScore(rec, CriticalScore(rec, key, s)));
    var without := RichScore(rec, LowInfoScore(rec, CriticalScore(rec, "", s)));
    assert with >= without;
    RoundMonotone(without, with);
  }

  /**
   * Naming a critical skill that the recommendation does not show never
   * raises the final score compared with naming no skill at all.
   */
  lemma CriticalSkillMissNeverRaises(rec: ParsedRecommendation, key: string)
    requires ValidScore(rec) && key != "" && !HasCriticalSkill(rec, key)
    ensures Enrich(rec, key).adjustedMatchScore <= Enrich(rec, "").adjustedMatchScore
  {
    var s := Seed(rec);
    var with := RichScore(rec, LowInfoScore(rec, CriticalScore(rec, key, s)));
    var without := RichScore(rec, LowInfoScore(rec, CriticalScore(rec, "", s)));
    assert with <= without;
    RoundMonotone(with, without);
  }

  /**
   * All rules together move the seed by at most +15 (+10 skill, +5 overlap)
   * and at most -22 (-15 skill, -7 terse reply) before the final rounding.
   */
  lemma ScoreWithinRuleDeltas(rec: ParsedRecommendation, key: string)
    requires ValidScore(rec)
    ensures ClampRound(Seed(rec) - 22.0) <= Enrich(rec, key).adjustedMatchScore <= ClampRound(Seed(rec) + 15.0)
  {
    var s := Seed(rec);
    var afterSkill := CriticalScore(rec, key, s);
    assert s - 15.0 <= afterSkill <= s + 10.0;
    var afterInfo := LowInfoScore(rec, afterSkill);
    assert afterSkill - 7.0 <= afterInfo <= afterSkill;
    var score := RichScore(rec, afterInfo);
    assert afterInfo <= score <= afterInfo + 5.0;
    RoundMonotone(s - 22.0, score);
    RoundMonotone(score, s + 15.0);
  }

  /**
   * A reply scored 80 that lists the critical skill as its only factor and
   * gives a short justification: +10 for the skill, then -7 for the terse
   * reply, so 83.
   */
  lemma TerseReplyWithCriticalSkill(rec: ParsedRecommendation, key: string)
    requires rec.matchScore == Some(80.0) && key != "" && HasCriticalSkill(rec, key)
    requires rec.matchingFactors.Some? && |rec.matchingFactors.value.skills| == 1
    requires rec.matchingFactors.value.interests == [] && rec.matchingFactors.value.preferences == []
    requires |rec.justification| < JustificationLengthThreshold
    ensures Enrich(rec, key).adjustedMatchScore == 83
  {
    assert LowInfo(rec) && !ManyMatches(rec);
    assert Round(83.0) == 83;
  }

  /** The same reply when the critical skill is not among its skills: -15, then -7, so 58. */
  lemma TerseReplyWithoutCriticalSkill(rec: ParsedRecommendation, key: string)
    requires rec.matchScore == Some(80.0) && key != "" && !HasCriticalSkill(rec, key)
    requires rec.matchingFactors.Some? && |rec.matchingFactors.value.skills| == 1
    requires rec.matchingFactors.value.interests == [] && rec.matchingFactors.value.preferences == []
    requires |rec.justification| < JustificationLengthThreshold
    ensures Enrich(rec, key).adjustedMatchScore == 58
  {
    assert LowInfo(rec) && !ManyMatches(rec);
    assert Round(58.0) == 58;
  }
}
