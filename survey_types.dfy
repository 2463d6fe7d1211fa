/** The records the survey pipeline passes between its stages. */
module SurveyTypes {
  import opened Optional

  /** The three lists of matching factors the AI may report for a recommendation. */
  datatype MatchingFactors = MatchingFactors(skills: seq<string>, interests: seq<string>, preferences: seq<string>)

  /** One recommendation as accepted from the AI's JSON. */
  datatype ParsedRecommendation = ParsedRecommendation(
    professionName: string,
    matchScore: Option<real>,
    justification: string,
    matchingFactors: Option<MatchingFactors>)

  datatype InsightKind = Warning | Info | Tip

  /** The six profession-type categories, in the order the keyword table lists them. */
  datatype ProfessionType = Technical | Analytical | Creative | Managerial | Social | Marketing

  /** What an insight says; the user-facing text is fixed per tag. */
  datatype InsightTag =
    | CriticalSkillUsed
    | CriticalSkillNotEvidenced
    | TypeGuess(guess: ProfessionType)
    | TypeUndetermined
    | LimitedDetail
    | RichOverlap
    | ActiveLearning
    | ApplyingKnowledge
    | UpdatePortfolio
    | JoinCommunities
    | ImportantMilestone
    | StartWithEnthusiasm
    | KeepGrowing
    | TooTerse

  datatype Insight = Insight(kind: InsightKind, tag: InsightTag)

  /** A recommendation after the heuristic rules ran on it. */
  datatype EnrichedRecommendation = EnrichedRecommendation(
    rec: ParsedRecommendation,
    customInsights: seq<Insight>,
    adjustedMatchScore: int,
    professionTypeGuess: Option<ProfessionType>)

  datatype StepType = Learning | Practice | Networking | PortfolioResume | CareerMilestone | GeneralTip | Default

  /** One roadmap step after classification and annotation. */
  datatype EnrichedRoadmapStep = EnrichedRoadmapStep(
    text: string,
    insights: seq<Insight>,
    stepType: StepType,
    isMajorMilestone: bool)
}
