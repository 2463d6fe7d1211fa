/**
 * `applyHumanLogicToRoadmap`: classifies each roadmap step by keywords,
 * attaches insights, marks major milestones and gives the first and last
 * steps their encouragement.
 */
module RoadmapLogic {
  import opened Optional
  import opened Text
  import opened SurveyTypes
  import opened Seqs

  /** The step types in the order the keyword table declares them; the first match wins. */
  const StepOrder: seq<StepType> := [Learning, Practice, PortfolioResume, Networking, CareerMilestone, GeneralTip, Default]

  /** Position of a step type in the table. */
  function StepRank(t: StepType): (i: nat)
    ensures i < |StepOrder| && StepOrder[i] == t
  {
    match t
    case Learning => 0
    case Practice => 1
    case PortfolioResume => 2
    case Networking => 3
    case CareerMilestone => 4
    case GeneralTip => 5
    case Default => 6
  }

  /** The keywords of each step type, all lower case; the general-tip and default types have none. */
  function StepKeywords(t: StepType): seq<string> {
    match t
    case Learning => ["изучить", "курс", "книг", "документац", "learn", "course", "book", "documentation", "tutorial",
                      "освоить", "урок", "лекци", "семинар", "вебинар", "прочитать", "исследовать", "понять",
                      "разобраться", "теория", "основы"]
    case Practice => ["практика", "проект", "задач", "создать", "practice", "project", "task", "build", "develop",
                      "написать", "реализовать", "применить", "упражнени", "лабораторн", "кодить", "пет-проект"]
    case PortfolioResume => ["портфолио", "github", "резюме", "cv", "portfolio", "resume", "профил",
                             "проекты для резюме", "сопроводительное письмо", "cover letter"]
    case Networking => ["сообществ", "конференци", "митап", "networking", "community", "conference", "meetup", "связи",
                        "знакомств", "форум", "общаться", "linkedin", "профессиональная сеть"]
    case CareerMilestone => ["сертификац", "экзамен", "certification", "exam", "работ", "job", "фриланс", "freelance",
                             "стажировк", "internship", "собеседован", "interview", "ваканси", "перв[ао][ея]",
                             "устроитьс", "найти работу", "получить должность", "оффер"]
    case GeneralTip => []
    case Default => []
  }

  /** `keywords.some((kw) => text.includes(kw))` */
  predicate MentionsAny(text: string, keywords: seq<string>) {
    exists i :: 0 <= i < |keywords| && Contains(text, keywords[i])
  }

  /** The first step type at or after position `from` whose keywords occur in `stepLower`. */
  function FirstMatchingStep(stepLower: string, from: nat): (t: Option<StepType>)
    requires from <= |StepOrder|
    ensures t.Some? ==> from <= StepRank(t.value) && MentionsAny(stepLower, StepKeywords(t.value))
    ensures t.Some? ==> forall u :: from <= StepRank(u) < StepRank(t.value) ==> !MentionsAny(stepLower, StepKeywords(u))
    ensures t.None? ==> forall u :: from <= StepRank(u) ==> !MentionsAny(stepLower, StepKeywords(u))
    decreases |StepOrder| - from
  {
    if from == |StepOrder| then None
    else
      StepRankOfPosition(from);
      if MentionsAny(stepLower, StepKeywords(StepOrder[from])) then Some(StepOrder[from])
      else FirstMatchingStep(stepLower, from + 1)
  }

  /** The table lists each step type once, so a position is the rank of the type found there. */
  lemma StepRankOfPosition(i: nat)
    requires i < |StepOrder|
    ensures StepRank(StepOrder[i]) == i
  {
    if i == 0 {} else if i == 1 {} else if i == 2 {} else if i == 3 {} else if i == 4 {} else if i == 5 {} else {}
  }

  /** The type a lower-cased step text is classified as: the first matching type, or the default. */
  function ClassifyLower(stepLower: string): StepType {
    match FirstMatchingStep(stepLower, 0)
    case Some(t) => t
    case None => Default
  }

  /** The type a step's text is classified as. */
  function Classify(stepText: string): StepType {
    ClassifyLower(Lower(stepText))
  }

  /** The insight each type of step receives; the default and general-tip types receive none. */
  function TypeInsights(t: StepType): seq<Insight> {
    match t
    case Learning => [Insight(Info, ActiveLearning)]
    case Practice => [Insight(Info, ApplyingKnowledge)]
    case PortfolioResume => [Insight(Tip, UpdatePortfolio)]
    case Networking => [Insight(Tip, JoinCommunities)]
    case CareerMilestone => [Insight(Info, ImportantMilestone)]
    case GeneralTip => []
    case Default => []
  }

  /** Portfolio and career steps are major milestones. */
  predicate IsMajorType(t: StepType) {
    t == PortfolioResume || t == CareerMilestone
  }

  /** A default step becomes a general tip; any other type stays. */
  function Promote(t: StepType): StepType {
    if t == Default then GeneralTip else t
  }

  const TerseStepLength := 25

  predicate HasTip(insights: seq<Insight>) {
    exists i :: 0 <= i < |insights| && insights[i].kind == Tip
  }

  /** The last of more than one step. */
  predicate IsClosingStep(index: nat, total: nat) {
    index == total - 1 && total > 1
  }

  /** What the rules make of the step at position `index` of `total` steps. */
  function StepFor(stepText: string, index: nat, total: nat): (step: EnrichedRoadmapStep)
    ensures step.text == stepText
  {
    StepWithType(stepText, index, total, Classify(stepText))
  }

  /** What the rules make of a step once its text is classified as `t0`. */
  function StepWithType(stepText: string, index: nat, total: nat, t0: StepType): (step: EnrichedRoadmapStep)
    ensures step.text == stepText
  {
    var major := IsMajorType(t0);
    var insights1 := if index == 0 then [Insight(Tip, StartWithEnthusiasm)] + TypeInsights(t0) else TypeInsights(t0);
    var t1 := if index == 0 then Promote(t0) else t0;
    var insights2 := if IsClosingStep(index, total) then insights1 + [Insight(Tip, KeepGrowing)] else insights1;
    var t2 := if IsClosingStep(index, total) then Promote(t1) else t1;
    var insights3 := if |stepText| < TerseStepLength && t2 == Default && !major then insights2 + [Insight(Warning, TooTerse)] else insights2;
    var t3 := if t2 == Default && HasTip(insights3) then GeneralTip else t2;
    EnrichedRoadmapStep(stepText, insights3, t3, major)
  }

  /** The `for (const type in ROADMAP_STEP_KEYWORDS)` scan: the first type whose keywords occur, else the default. */
  method ClassifyStep(stepLower: string) returns (stepType: StepType)
    ensures stepType == ClassifyLower(stepLower)
  {
    stepType := Default;
    var i := 0;
    while i < |StepOrder|
      invariant 0 <= i <= |StepOrder|
      invariant stepType == Default
      invariant FirstMatchingStep(stepLower, 0) == FirstMatchingStep(stepLower, i)
    {
      if MentionsAny(stepLower, StepKeywords(StepOrder[i])) {
        stepType := StepOrder[i];
        break;
      }
      i := i + 1;
    }
  }

  /** The callback of `parsedSteps.map(...)`: a step record built up in place, as the source does it. */
  method EnrichStep(stepText: string, index: nat, total: nat) returns (step: EnrichedRoadmapStep)
    ensures step == StepFor(stepText, index, total)
  {
    var stepType := ClassifyStep(Lower(stepText));
    step := AnnotateStep(stepText, index, total, stepType);
  }

  /** The record updates that follow the classification scan. */
  method AnnotateStep(stepText: string, index: nat, total: nat, classified: StepType) returns (step: EnrichedRoadmapStep)
    ensures step == StepWithType(stepText, index, total, classified)
  {
    var stepType := classified;
    var insights: seq<Insight> := [];
    var isMajorMilestone := false;
    match stepType {
      case Learning => insights := insights + [Insight(Info, ActiveLearning)];
      case Practice => insights := insights + [Insight(Info, ApplyingKnowledge)];
      case PortfolioResume =>
        insights := insights + [Insight(Tip, UpdatePortfolio)];
        isMajorMilestone := true;
      case Networking => insights := insights + [Insight(Tip, JoinCommunities)];
      case CareerMilestone =>
        insights := insights + [Insight(Info, ImportantMilestone)];
        isMajorMilestone := true;
      case GeneralTip =>
      case Default =>
    }
    if index == 0 {
      insights := [Insight(Tip, StartWithEnthusiasm)] + insights;
      if stepType == Default { stepType := GeneralTip; }
    }
    if index == total - 1 && total > 1 {
      insights := insights + [Insight(Tip, KeepGrowing)];
      if stepType == Default { stepType := GeneralTip; }
    }
    if |stepText| < TerseStepLength && stepType == Default && !isMajorMilestone {
      insights := insights + [Insight(Warning, TooTerse)];
    }
    if stepType == Default && exists i :: 0 <= i < |insights| && insights[i].kind == Tip {
      stepType := GeneralTip;
    }
    step := EnrichedRoadmapStep(stepText, insights, stepType, isMajorMilestone);
  }

  /** `applyHumanLogicToRoadmap`: every step enriched with its position, in order; nothing for no steps. */
  method ApplyHumanLogicToRoadmap(parsedSteps: seq<string>) returns (steps: seq<EnrichedRoadmapStep>)
    ensures |steps| == |parsedSteps|
    ensures forall k :: 0 <= k < |steps| ==> steps[k] == StepFor(parsedSteps[k], k, |parsedSteps|)
  {
    if |parsedSteps| == 0 {
      return [];
    }
    ghost var annotate := (stepText: string, index: nat) => StepFor(stepText, index, |parsedSteps|);
    steps := [];
    for index := 0 to |parsedSteps|
      invariant steps == MapIndexed(parsedSteps[..index], annotate)
    {
      var step := EnrichStep(parsedSteps[index], index, |parsedSteps|);
      MapIndexedSnoc(parsedSteps, index, annotate);
      steps := steps + [step];
    }
    assert parsedSteps[..|parsedSteps|] == parsedSteps;
  }

  // ---------------------------------------------------------------------------
  // Properties
  // ---------------------------------------------------------------------------

  /**
   * Classification picks `t` exactly when a keyword of `t` occurs and none of
   * an earlier type does; it never yields the general-tip type, whose
   * keyword list is empty.
   */
  lemma ClassifyCharacterized(stepText: string, t: StepType)
    requires t != Default
    ensures Classify(stepText) == t <==>
      MentionsAny(Lower(stepText), StepKeywords(t))
      && forall u :: StepRank(u) < StepRank(t) ==> !MentionsAny(Lower(stepText), StepKeywords(u))
    ensures Classify(stepText) != GeneralTip
  {
    var f := FirstMatchingStep(Lower(stepText), 0);
    if f.Some? {
      assert StepKeywords(f.value) != [];
    }
    if MentionsAny(Lower(stepText), StepKeywords(t)) && forall u :: StepRank(u) < StepRank(t) ==> !MentionsAny(Lower(stepText), StepKeywords(u)) {
      assert f.Some?;
      assert !(StepRank(f.value) < StepRank(t));
      assert !(StepRank(t) < StepRank(f.value));
    }
  }

  /** A step is a major milestone exactly when its final type is portfolio/resume or career milestone. */
  lemma MajorIffMilestoneType(stepText: string, index: nat, total: nat)
    ensures StepFor(stepText, index, total).isMajorMilestone <==> IsMajorType(StepFor(stepText, index, total).stepType)
  {
  }

  /**
   * The final type is the classified type, promoted from default to general
   * tip on the first and on the closing step. In particular the source's
   * last rule (a default step holding a tip becomes a general tip) never
   * changes anything: by then a step with a tip is no longer default.
   */
  lemma FinalType(stepText: string, index: nat, total: nat)
    ensures StepFor(stepText, index, total).stepType ==
      if index == 0 || IsClosingStep(index, total) then Promote(Classify(stepText)) else Classify(stepText)
  {
    var t0 := Classify(stepText);
    if t0 == Default && index != 0 && !IsClosingStep(index, total) {
      var insights := StepFor(stepText, index, total).insights;
      assert forall i :: 0 <= i < |insights| ==> insights[i].kind != Tip;
    }
  }

  /** The first step opens with the encouragement tip and is never left as a default step. */
  lemma FirstStepOpensWithTip(stepText: string, total: nat)
    ensures |StepFor(stepText, 0, total).insights| > 0
    ensures StepFor(stepText, 0, total).insights[0] == Insight(Tip, StartWithEnthusiasm)
    ensures StepFor(stepText, 0, total).stepType != Default
  {
    FinalType(stepText, 0, total);
  }

  /** The last of several steps closes with the keep-growing tip and is never left as a default step. */
  lemma ClosingStepEndsWithTip(stepText: string, index: nat, total: nat)
    requires IsClosingStep(index, total)
    ensures var step := StepFor(stepText, index, total);
      |step.insights| > 0 && step.insights[|step.insights| - 1] == Insight(Tip, KeepGrowing) && step.stepType != Default
  {
    FinalType(stepText, index, total);
  }

  /** No step that carries a tip is left as a default step. */
  lemma TipMeansTyped(stepText: string, index: nat, total: nat)
    requires HasTip(StepFor(stepText, index, total).insights)
    ensures StepFor(stepText, index, total).stepType != Default
  {
  }

  /**
   * The terseness warning is given exactly to a short, unclassified step
   * that is neither the first nor the closing step.
   */
  lemma TerseWarningIff(stepText: string, index: nat, total: nat)
    ensures Insight(Warning, TooTerse) in StepFor(stepText, index, total).insights <==>
      |stepText| < TerseStepLength && Classify(stepText) == Default && index != 0 && !IsClosingStep(index, total)
  {
    var t0 := Classify(stepText);
    assert Insight(Warning, TooTerse) !in TypeInsights(t0);
  }
}
