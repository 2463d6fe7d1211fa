# Talent-Track-KZ career pipeline — a Dafny model

Talent-Track-KZ is a Next.js web application that helps people in Kazakhstan
choose a profession. This project models the logic under its pages, not the
pages themselves:

* the **survey** page (`src/app/survey/page.tsx`): cleaning Markdown from AI
  text (`cleanMarkdown`), pulling a JSON array of profession recommendations
  out of a free-form AI reply (`parseAiJsonResponse`), splitting an AI roadmap
  into steps (`parseRoadmapText`), and the rule-based "human logic" that
  re-scores recommendations and annotates roadmap steps
  (`applyHumanLogicToRecommendations`, `applyHumanLogicToRoadmap`) with the two
  keyword tables they use;
* the **market overview** page (`src/app/market-overview/page.tsx`):
  `formatSkillName`, the Russian `pluralize` rule and the skill and demand
  statistics of `getMarketOverviewData`, both with the demonstration skill
  counts that the page itself asks for (`src/app/market-overview/page.tsx:328`)
  and without them;
* the **professions** page (`src/app/professions/page.tsx`): the recursive
  role filter `filterRolesRecursive`, the category filter `processedCategories`
  and the "load more" pagination (`categoriesToDisplay`, `hasMoreToLoad`), over
  the hh.ru role tree `HHRole` / `HHCategory` of `src/lib/hhApi.ts`.

Modules, one per concern:

| file | module | contents |
|---|---|---|
| `optional.dfy` | `Optional` | `Option` with `GetOr` (JavaScript `x ?? d`) |
| `seqs.dfy` | `Seqs` | element-wise maps over sequences, the specifications of the `map` loops |
| `text.dfy` | `Text` | JavaScript `trim`, `toLowerCase`, `includes`, `split("\n")` |
| `markdown.dfy` | `Markdown` | `cleanMarkdown` as its four rewrites plus `trim` |
| `json.dfy` | `Json` | parsed JSON values, JavaScript truthiness, `String(x)` |
| `survey_types.dfy` | `SurveyTypes` | parsed and enriched recommendations, roadmap steps, insights |
| `ai_response.dfy` | `AiResponse` | `parseAiJsonResponse` |
| `roadmap_text.dfy` | `RoadmapText` | `parseRoadmapText` |
| `recommendation_logic.dfy` | `RecommendationLogic` | profession keyword table, `applyHumanLogicToRecommendations` |
| `roadmap_logic.dfy` | `RoadmapLogic` | step keyword table, `applyHumanLogicToRoadmap` |
| `market_overview.dfy` | `MarketOverview` | `formatSkillName`, `pluralize`, `getMarketOverviewData` |
| `professions.dfy` | `Professions` | role and category filtering, pagination |

Code that changes state step by step in the source is a `method` with loops
(the bracket scan with its `break`, the `for…in` keyword loops with `break`,
the insight lists built with `push`/`unshift`, the skill dictionary filled in
place, the `filtered` arrays built with `push`), each proved equal to a
specification function; the properties are proved about those functions.
Expression-only code (`cleanMarkdown`, `parseRoadmapText`, `pluralize`,
`formatSkillName`, `categoriesToDisplay`, `hasMoreToLoad`) is a function.

Modelling choices:

* JavaScript numbers are `real`; `Math.round` is `floor(x + 1/2)`; `%` is
  modelled with JavaScript's sign rule (`JsRem`).
* `pluralize` takes an `int`: its only callers pass `skill.count`
  (`src/app/market-overview/page.tsx:163`, `:171`), which is always a whole
  number, either a tally of occurrences or a demonstration count.
* `JSON.parse` is a parameter `parse: string -> Option<Json>` (`None` where it
  throws); printing a number for `String(x)` is a parameter `numberText`.
* The values of `Math.random()` drawn for the demonstration skill counts are a
  parameter `random: nat -> UnitInterval` (the i-th draw, in [0, 1)).
* The shuffle of high-demand professions (`sort(() => 0.5 - Math.random())`)
  is a parameter; the lemma about it asks only that it permute its input.
* Lower-casing is a fixed per-character map covering ASCII and the basic
  Cyrillic alphabet (including Ё); `\w` and `\b` are ASCII-only, as in
  JavaScript regular expressions without the `u` flag.
* Insights are a kind (`Info`, `Warning`, `Tip`) and a tag naming which rule
  produced them, instead of the Russian message texts.
* An optional `roles` list of an `HHRole` is `Children = Absent | Present(items)`.

Two consequences of the rule order:

* A reply scored 80 whose only factor is the critical skill and whose
  justification is short ends at **83**: the low-information rule
  (`src/app/survey/page.tsx:135-138`) also fires and takes 7 points off after
  the +10. Without the critical skill the same reply ends at 58
  (`TerseReplyWithCriticalSkill`, `TerseReplyWithoutCriticalSkill`).
* `cleanMarkdown` can change its own output when applied again, even on text
  without the glitch pattern: `"*```\n```a*"` cleans to `"*a*"`, which cleans
  to `"a"`, because the code block is removed only after the emphasis
  rewrites (`CleanNotIdempotent`).

Two branches of the source can never be taken, and the model proves it:

* the special case that keeps looking when a name matches the analytical
  keywords and also an IT data-analyst keyword (`src/app/survey/page.tsx:129`)
  is unreachable, because the IT row comes first in the table and already
  contains those keywords (`AnalyticalSkipUnreachable`);
* the last roadmap rule, which turns a `default` step holding a tip into a
  `general_tip` step (`src/app/survey/page.tsx:159`), never fires: a step
  holds a tip only if it is the first or the closing step (both promoted out
  of `default` at lines 156-157) or is typed `portfolio_resume` or
  `networking` (lines 152-153), and none of these is `default` by line 159
  (`FinalType`, `TipMeansTyped`).

## Model

| member | source | states |
|---|---|---|
| Text.Trim | src/app/survey/page.tsx:81 | the result has no leading or trailing whitespace, is never longer than the input, and is empty exactly when the input is all whitespace |
| Text.TrimIsSlice | src/app/survey/page.tsx:81 | the result is a slice of the input, and only whitespace is cut, from both ends |
| Text.TrimNoEdgeSpace | src/app/survey/page.tsx:81 | trimming text without edge whitespace changes nothing |
| Text.Lower | src/app/survey/page.tsx:126 | lower-casing keeps the length and maps each character on its own |
| Text.LowerIdempotent | src/app/survey/page.tsx:126 | lower-casing twice is lower-casing once |
| Text.ContainsIffOccurs | src/app/professions/page.tsx:48 | `includes` holds exactly when the needle occurs at some index |
| Text.Split | src/app/survey/page.tsx:115 | `split("\n")` yields at least one piece and no piece contains the separator |
| Text.SplitJoin | src/app/survey/page.tsx:115 | joining the pieces with the separator gives back the text |
| Text.SplitCount | src/app/survey/page.tsx:115 | there is one piece more than there are separators |
| Text.SplitFirstPiece | src/app/survey/page.tsx:115 | text up to the first separator is the first piece, the rest splits on its own |
| Markdown.FindClose | src/app/survey/page.tsx:75 | the lazy `(.*?)` match ends at the first closing delimiter, and without the `s` flag never crosses a line break |
| Markdown.CleanMarkdown | src/app/survey/page.tsx:73-76 | null, undefined or empty text gives ""; the result has no edge whitespace and is never longer than the input |
| Markdown.StripEmphasis | src/app/survey/page.tsx:75 | no contract of its own (it is `ReplacePairs` with the emphasis delimiter); `EmphasisPair`, `ReplacePairsNoMatch` and `ReplacePairsIdentity` state what it replaces |
| Markdown.StripCodeFences | src/app/survey/page.tsx:75 | no contract of its own (it is `ReplacePairs` with the fence delimiter); `CodeFenceRemoved` states what it removes |
| Markdown.StripGlitch | src/app/survey/page.tsx:75 | the glitch-token rewrite never lengthens the text; `StripGlitchIdentity` states when it changes nothing |
| Markdown.ReplacePairs | src/app/survey/page.tsx:75 | one global pair rewrite never lengthens the text; `EmphasisPair`, `CodeFenceRemoved` and `ReplacePairsNoMatch` state what it replaces |
| Markdown.GlitchLength | src/app/survey/page.tsx:75 | a glitch-token match is non-empty, lies within the text and needs a `[` |
| Markdown.PlainTextOnlyTrimmed | src/app/survey/page.tsx:73-76 | text with no `*`, backtick or `[` is only trimmed |
| Markdown.EmphasisPair | src/app/survey/page.tsx:75 | a `**x**` or `*x*` pair on one line is replaced by `x` and the rest is rewritten on its own |
| Markdown.CodeFenceRemoved | src/app/survey/page.tsx:75 | a fenced code block is deleted together with its fences |
| Markdown.ReplacePairsNoMatch | src/app/survey/page.tsx:75 | a rewrite whose delimiter never has a closing partner leaves the text alone |
| Markdown.ReplacePairsIdentity | src/app/survey/page.tsx:75 | a rewrite whose delimiter does not occur leaves the text alone |
| Markdown.StripGlitchIdentity | src/app/survey/page.tsx:75 | the glitch-token rewrite leaves text without `[` alone |
| Markdown.CleanNotIdempotent | src/app/survey/page.tsx:73-76 | cleaning `"*```\n```a*"` gives `"*a*"`, and cleaning that again gives `"a"` |
| AiResponse.FirstClose | src/app/survey/page.tsx:82 | the lazy fence body ends at the first index followed by optional whitespace, three backticks and the end of a line |
| AiResponse.UnwrapFencedBody | src/app/survey/page.tsx:82-83 | a reply wrapped in a ```` ```json ```` (or bare ```` ``` ````) fence yields exactly its body |
| AiResponse.FencedJsonReachesParser | src/app/survey/page.tsx:81-99 | a fenced bracketed body is what reaches `JSON.parse`, untouched by the bracket scan |
| AiResponse.ChooseOpener | src/app/survey/page.tsx:86-88 | the scan starts at the first `[` or `{`, whichever comes first, and pairs it with its own closer; none when neither occurs |
| AiResponse.IndexOf | src/app/survey/page.tsx:86 | `indexOf` gives -1 exactly when the character is absent, and otherwise the first index holding it |
| AiResponse.FirstBalancedSpec | src/app/survey/page.tsx:90-94 | the end index is the first index where openers minus closers since the start is 0; none when the count never returns to 0 |
| AiResponse.FirstBalanced | src/app/survey/page.tsx:90-94 | the balanced index, when there is one, lies at or after the scan's start and inside the text; `FirstBalancedSpec` characterises it |
| AiResponse.BalancedEndsWithCloser | src/app/survey/page.tsx:90-94 | the first balanced index lies after the opener and holds the closing character |
| AiResponse.ScanBalanced | src/app/survey/page.tsx:90-94 | the counting loop with its `break` returns that first balanced index, or -1 |
| AiResponse.CutBalanced | src/app/survey/page.tsx:89-95 | the scan and `substring(...).trim()` cut the text at the first balanced index, and leave it alone when the count never returns to 0 |
| AiResponse.ExtractJsonCandidate | src/app/survey/page.tsx:84-98 | the extraction step leaves bracketed text alone, and otherwise cuts from the chosen opener to its balanced closer, or leaves the text unchanged when there is no opener or no balance |
| AiResponse.CutRegionIsBracketed | src/app/survey/page.tsx:95 | a cut from an opener to a matching closer is exactly that region, untouched by `trim`, and starts and ends with a matching pair |
| AiResponse.CandidateShape | src/app/survey/page.tsx:84-98 | extraction either leaves the text unchanged or gives a strictly shorter bracketed slice, and a second extraction changes nothing |
| AiResponse.KeepWellFormed | src/app/survey/page.tsx:103 | the filter keeps exactly the items that are objects with truthy `professionName` and `justification`, and never adds items |
| AiResponse.KeepWellFormedAppend | src/app/survey/page.tsx:103 | the filter preserves order: it works piece by piece on a concatenation |
| AiResponse.CleanTextField | src/app/survey/page.tsx:105-107 | a string field is cleaned; a missing or falsy field gives ""; a truthy non-string throws (none) |
| AiResponse.ScoreOf | src/app/survey/page.tsx:106 | `matchScore` is kept exactly when it is a number in [0, 100] |
| AiResponse.FactorsOf | src/app/survey/page.tsx:108-109 | `matchingFactors` is kept exactly when it is an object whose three lists are arrays, and each list keeps its length |
| AiResponse.CleanEach | src/app/survey/page.tsx:108 | `list.map((x) => cleanMarkdown(String(x)))` gives one cleaned string per element |
| AiResponse.ConvertItem | src/app/survey/page.tsx:104-110 | a record is built from the cleaned name and justification, the checked score and the checked factors, and fails exactly when a text field throws |
| AiResponse.ConvertAll | src/app/survey/page.tsx:104-111 | the map succeeds exactly when no item throws, and then gives one record per item in order |
| AiResponse.ParseItemsAppend | src/app/survey/page.tsx:103-110 | filter-then-map works piece by piece on a concatenation, so order is preserved |
| AiResponse.ParsedRecordsProvenance | src/app/survey/page.tsx:103-110 | there are never more records than array items, and each record is the normalisation of a well-formed item |
| AiResponse.SingleItem | src/app/survey/page.tsx:103-110 | one well-formed item gives one record with the cleaned name and justification and the checked score and factors |
| AiResponse.IllFormedItemDropped | src/app/survey/page.tsx:103 | an item that is not an object with truthy name and justification contributes nothing |
| AiResponse.ParseAiJsonResponse | src/app/survey/page.tsx:80-112 | the result is [] when the extracted text is empty, does not parse or is not an array; otherwise it is the normalised well-formed items, or [] when normalising throws; every kept score lies in [0, 100] |
| RoadmapText.MarkerLength | src/app/survey/page.tsx:115 | the stripped marker is nothing, one bullet character, or digits followed by a dot |
| RoadmapText.StripMarker | src/app/survey/page.tsx:115 | stripping the marker leaves a suffix of the line |
| RoadmapText.StripNumbered | src/app/survey/page.tsx:115 | a `12.` number and the whitespace after it are removed |
| RoadmapText.StripBullet | src/app/survey/page.tsx:115 | a bullet (`*`, `-`, `•`, `✓`, `✔`, `✖`, `✗`) and the whitespace after it are removed |
| RoadmapText.UnmarkedKept | src/app/survey/page.tsx:115 | a line starting with neither a digit nor a bullet keeps its text |
| RoadmapText.CleanStep | src/app/survey/page.tsx:115 | a cleaned line has no edge whitespace and is no longer than the line |
| RoadmapText.NumberedPlainStep | src/app/survey/page.tsx:115 | a numbered line of plain text cleans to its text |
| RoadmapText.KeepLong | src/app/survey/page.tsx:115 | exactly the lines longer than 3 are kept, and never more lines than given |
| RoadmapText.StepsAppend | src/app/survey/page.tsx:115 | clean-then-filter works piece by piece on a concatenation, so line order is preserved |
| RoadmapText.ParseRoadmapText | src/app/survey/page.tsx:113-116 | null or blank text gives []; there are at most as many steps as lines; every step is longer than 3 and has no edge whitespace; every line that cleans to more than 3 characters becomes a step, and every step is the cleaned form of some line |
| RoadmapText.BlankLinesCleanToNothing | src/app/survey/page.tsx:114-115 | every line of a blank text cleans to "", so the early return loses no step |
| RoadmapText.LongCleanedLinesKept | src/app/survey/page.tsx:115 | every line whose cleaned form is longer than 3 reaches the result |
| RoadmapText.StepsComeFromLines | src/app/survey/page.tsx:114-115 | every step that survives the filter is the cleaned form of one of the lines |
| RoadmapText.TwoNumberedSteps | src/app/survey/page.tsx:113-116 | a two-line numbered plan of plain text gives exactly its two step texts |
| RecommendationLogic.FirstMatchingType | src/app/survey/page.tsx:55-62 | the guess is the first row of the profession table that has a keyword contained in the name |
| RecommendationLogic.GuessProfessionType | src/app/survey/page.tsx:126-132 | the `for…in` loop with `break` returns that first matching row |
| RecommendationLogic.GuessTypeCharacterized | src/app/survey/page.tsx:126-132 | the guess is `t` exactly when `t` has a keyword in the lower-cased name and no earlier row does |
| RecommendationLogic.GuessTypeNone | src/app/survey/page.tsx:126-134 | no guess exactly when no row has a keyword in the name |
| RecommendationLogic.DataAnalystIsTechnical | src/app/survey/page.tsx:56-57 | a name containing "аналитик данных" is classified as IT |
| RecommendationLogic.AnalyticalSkipUnreachable | src/app/survey/page.tsx:128-130 | whenever the analytical-skip condition holds, the IT row has already matched |
| RecommendationLogic.ClampRound | src/app/survey/page.tsx:140 | the final score is rounded and clamped into [0, 100] |
| RecommendationLogic.CriticalSkillRule | src/app/survey/page.tsx:120-125 | starting from the AI score (70 when absent), a named skill found among the listed skills adds an info insight and 10 points capped at 100; a skill not found adds a warning and takes 15 points floored at 0; no skill changes nothing |
| RecommendationLogic.LowInfoCheck | src/app/survey/page.tsx:135-137 | the reply counts as terse exactly when its justification is under 80 characters and, when factors are given, they hold fewer than 2 items |
| RecommendationLogic.EnrichFromGuess | src/app/survey/page.tsx:119-141 | the rule sequence with its `push`es and score reassignments gives the specified enriched record |
| RecommendationLogic.EnrichWith | src/app/survey/page.tsx:120-140 | for a known type guess, the rules keep the recommendation unchanged and end with a score in [0, 100]; `InsightLayoutWith` states the insight layout |
| RecommendationLogic.EnrichRecommendation | src/app/survey/page.tsx:119-141 | guessing the type and then running the rules gives the specified enriched record for one recommendation |
| RecommendationLogic.Enrich | src/app/survey/page.tsx:119-141 | the enriched record carries the recommendation unchanged and a score in [0, 100] |
| RecommendationLogic.ApplyHumanLogicToRecommendations | src/app/survey/page.tsx:117-143 | one enriched record per input, in input order, each enriched with the cleaned lower-cased critical skill |
| RecommendationLogic.InsightLayout | src/app/survey/page.tsx:121-139 | a critical-skill insight first exactly when a skill was named (info when a listed skill contains it, warning otherwise), then exactly one type insight, then the low-information warning exactly when the reply is terse, right after the type insight, then the overlap insight exactly when more than four skills and interests match, as the last insight |
| RecommendationLogic.InsightLayoutWith | src/app/survey/page.tsx:121-139 | the same insight layout for any type guess |
| RecommendationLogic.RoundMonotone | src/app/survey/page.tsx:140 | rounding is monotone |
| RecommendationLogic.CriticalSkillMatchNeverLowers | src/app/survey/page.tsx:121-140 | naming a skill the recommendation lists never lowers its final score |
| RecommendationLogic.CriticalSkillMissNeverRaises | src/app/survey/page.tsx:121-140 | naming a skill the recommendation does not list never raises its final score |
| RecommendationLogic.ScoreWithinRuleDeltas | src/app/survey/page.tsx:120-140 | the final score lies between the clamped seed minus 22 and the clamped seed plus 15 |
| RecommendationLogic.TerseReplyWithCriticalSkill | src/app/survey/page.tsx:120-140 | score 80, the critical skill as the only factor and a short justification end at 83 |
| RecommendationLogic.TerseReplyWithoutCriticalSkill | src/app/survey/page.tsx:120-140 | the same reply without the critical skill ends at 58 |
| RoadmapLogic.FirstMatchingStep | src/app/survey/page.tsx:63-71 | the step type is the first row of the step table that has a keyword contained in the step |
| RoadmapLogic.ClassifyStep | src/app/survey/page.tsx:147-148 | the `for…in` loop with `break` returns that first matching row, or `default` |
| RoadmapLogic.ClassifyCharacterized | src/app/survey/page.tsx:147-148 | a step is classified `t` exactly when `t` has a keyword in it and no earlier row does; the empty `general_tip` row never matches |
| RoadmapLogic.StepWithType | src/app/survey/page.tsx:147-160 | an annotated step keeps the input text |
| RoadmapLogic.StepFor | src/app/survey/page.tsx:146-160 | the step at a position keeps its text and is the classified step annotated by the rules; `FinalType`, `TerseWarningIff` and `MajorIffMilestoneType` state those rules |
| RoadmapLogic.AnnotateStep | src/app/survey/page.tsx:149-159 | the `switch` and the `unshift`/`push` rules give the specified annotated step |
| RoadmapLogic.EnrichStep | src/app/survey/page.tsx:146-160 | classifying then annotating gives the specified step |
| RoadmapLogic.ApplyHumanLogicToRoadmap | src/app/survey/page.tsx:144-162 | one step per input in order, each the specified annotation of its text at its index; [] for [] |
| RoadmapLogic.MajorIffMilestoneType | src/app/survey/page.tsx:149-157 | a step is a major milestone exactly when its type is `portfolio_resume` or `career_milestone` |
| RoadmapLogic.FinalType | src/app/survey/page.tsx:147-159 | the final type is the classified type, promoted from `default` to `general_tip` on the first and closing steps only |
| RoadmapLogic.FirstStepOpensWithTip | src/app/survey/page.tsx:156 | the first step's insights begin with a tip and its type is never `default` |
| RoadmapLogic.ClosingStepEndsWithTip | src/app/survey/page.tsx:157 | the last of two or more steps ends with a tip and its type is never `default` |
| RoadmapLogic.TipMeansTyped | src/app/survey/page.tsx:156-159 | no step holding a tip ends with type `default` |
| RoadmapLogic.TerseWarningIff | src/app/survey/page.tsx:158 | the terse-step warning appears exactly on unclassified middle steps shorter than 25 characters |
| MarketOverview.UnderscoresToSpaces | src/app/market-overview/page.tsx:37 | every underscore becomes a space and the length is kept |
| MarketOverview.FormatSkillName | src/app/market-overview/page.tsx:35-38 | the result has the input's length and no underscore ("" for "") |
| MarketOverview.CapitalizeKeepsWordStarts | src/app/market-overview/page.tsx:37 | upper-casing word starts does not move any word boundary |
| MarketOverview.FormatCharacters | src/app/market-overview/page.tsx:35-38 | each word start is upper-cased and every other character is the input's, with `_` read as a space |
| MarketOverview.CapitalizeWords | src/app/market-overview/page.tsx:37 | the upper-casing of word starts keeps the length; `FormatCharacters` states which characters change |
| MarketOverview.FormatIdempotent | src/app/market-overview/page.tsx:35-38 | formatting a formatted name changes nothing |
| MarketOverview.JsRem | src/app/market-overview/page.tsx:40 | JavaScript `%`: the mathematical remainder for non-negative numbers, non-positive for negative ones, and in every case the dividend minus the result is a multiple of the divisor |
| MarketOverview.PluralizeRule | src/app/market-overview/page.tsx:39-44 | `one` exactly when n%10 = 1 and n%100 ≠ 11; `few` exactly when n%10 is 2..4 and n%100 is not 12..14; `many` otherwise, so 11..14 give `many` |
| MarketOverview.Pluralize | src/app/market-overview/page.tsx:39-44 | the result is always one of the three given forms; `PluralizeRule` states which one |
| MarketOverview.PluralizePeriodic | src/app/market-overview/page.tsx:39-44 | the chosen form depends on n modulo 100 only |
| MarketOverview.PluralizeNegative | src/app/market-overview/page.tsx:39-44 | negative numbers always take the `many` form |
| MarketOverview.WithDemand | src/app/market-overview/page.tsx:52-53 | a demand list is never longer than the catalogue; `WithDemandMembers` and `WithDemandAppend` state its contents and order |
| MarketOverview.WithDemandMembers | src/app/market-overview/page.tsx:52-53 | the demand lists hold exactly the professions with that demand level |
| MarketOverview.WithDemandAppend | src/app/market-overview/page.tsx:52-53 | the demand filter keeps catalogue order and multiplicity: it works piece by piece on a concatenation |
| MarketOverview.TallyCounts | src/app/market-overview/page.tsx:48-51 | the skill dictionary has a key exactly for each listed skill, with its number of occurrences, in first-seen order |
| MarketOverview.TallyStep | src/app/market-overview/page.tsx:51 | counting one more skill is one dictionary update |
| MarketOverview.CountSkills | src/app/market-overview/page.tsx:51 | the inner `forEach` loop turns the tally of the skills seen so far into the tally including this profession's skills |
| MarketOverview.InsertByCountSorted | src/app/market-overview/page.tsx:56 | inserting into a list sorted by decreasing count keeps it sorted and adds exactly that entry |
| MarketOverview.InsertByCount | src/app/market-overview/page.tsx:56 | inserting into the sorted list adds one entry; `InsertByCountSorted` states order and contents |
| MarketOverview.SortByCountDescSorted | src/app/market-overview/page.tsx:56 | the sort gives a list sorted by decreasing count |
| MarketOverview.SortByCountDesc | src/app/market-overview/page.tsx:56 | the sort keeps the number of entries; `SortByCountDescSorted` and `SortByCountDescPermutes` state order and contents |
| MarketOverview.SortByCountDescPermutes | src/app/market-overview/page.tsx:56 | the sort gives a permutation of its input |
| MarketOverview.SliceTo | src/app/market-overview/page.tsx:56 | `slice(0, n)` gives a prefix of length min(n, length) for n ≥ 0 |
| MarketOverview.EntriesAreCounts | src/app/market-overview/page.tsx:55-56 | the dictionary entries are exactly the skills with their true counts |
| MarketOverview.Entries | src/app/market-overview/page.tsx:55 | `Object.entries(...).map(...)` gives one entry per dictionary key; `EntriesAreCounts` states their counts |
| MarketOverview.RankedSkillsFacts | src/app/market-overview/page.tsx:55-56 | the sorted entries are the true counts of all skills, sorted by decreasing count |
| MarketOverview.PrefixDominates | src/app/market-overview/page.tsx:56 | in a list sorted by decreasing count, an entry outside a prefix counts no more than any entry in it |
| MarketOverview.GetMarketOverviewData | src/app/market-overview/page.tsx:45-65 | the loops that fill the dictionary and the demand lists, and the demonstration overlay when asked for, give the specified overview |
| MarketOverview.MarketOverviewOf | src/app/market-overview/page.tsx:45-65 | the overview reports the catalogue size, demand counts within it, and no more top skills than distinct skills; `TopSkillsAreMostRequired`, `DemoTopSkills` and `HighDemandSample` state the rest |
| MarketOverview.TopSkillsOf | src/app/market-overview/page.tsx:55-61 | the top skills are a prefix of the ranked skills by name, whether or not demonstration counts are laid over them |
| MarketOverview.WithDemoCounts | src/app/market-overview/page.tsx:60 | the overlay keeps the length and every name; `DemoCountsOverlay` states the counts |
| MarketOverview.DemoCount | src/app/market-overview/page.tsx:58-59 | each demonstration count is a whole number from 20 to 100 |
| MarketOverview.Draws | src/app/market-overview/page.tsx:59 | `Array.from({ length: n }, ...)` gives n draws, each in [20, 100] |
| MarketOverview.DemoCounts | src/app/market-overview/page.tsx:59 | there is one demonstration count per top skill; `SortDescSorted` and `SortDescPermutes` state their order |
| MarketOverview.InsertDescSorted | src/app/market-overview/page.tsx:59 | inserting into a descending list of numbers keeps it descending |
| MarketOverview.InsertDescPermutes | src/app/market-overview/page.tsx:59 | inserting adds exactly that number |
| MarketOverview.InsertDesc | src/app/market-overview/page.tsx:59 | inserting adds one number; `InsertDescSorted` and `InsertDescPermutes` state order and contents |
| MarketOverview.SortDesc | src/app/market-overview/page.tsx:59 | the sort keeps the number of counts; `SortDescSorted` and `SortDescPermutes` state order and contents |
| MarketOverview.SortDescSorted | src/app/market-overview/page.tsx:59 | `sort((a, b) => b - a)` gives a descending list |
| MarketOverview.SortDescPermutes | src/app/market-overview/page.tsx:59 | `sort((a, b) => b - a)` gives a permutation of its input |
| MarketOverview.DemoCountsOverlay | src/app/market-overview/page.tsx:60 | the overlay keeps each skill's name and takes the count at its index, so descending counts give a list sorted by count |
| MarketOverview.DemoTopSkills | src/app/market-overview/page.tsx:57-61 | in demonstration mode the top skills are the same names in the same order, each count lies in [20, 100], and the list is still sorted by decreasing count |
| MarketOverview.TopSkillsAreMostRequired | src/app/market-overview/page.tsx:55-56 | without demonstration counts, `topSkills` holds true counts, is sorted by decreasing count, has min(N, distinct skills) entries, and no skill left out is required more often than one kept |
| MarketOverview.DemandCountsBounded | src/app/market-overview/page.tsx:52-53 | high plus medium demand never exceeds the number of professions |
| MarketOverview.HighDemandSample | src/app/market-overview/page.tsx:62-64 | the sample holds only high-demand professions, min(N, high count) of them, and the counts add up within the total |
| Professions.KeepRole | src/app/professions/page.tsx:53-60 | a kept role keeps its id, name and flag |
| Professions.FilterRoles | src/app/professions/page.tsx:45-63 | filtering never adds roles |
| Professions.FilterRolesRecursive | src/app/professions/page.tsx:39-64 | an empty term returns the roles unchanged; otherwise the loop with its recursion gives the specified filtered tree for the lower-cased term |
| Professions.KeepIffMatches | src/app/professions/page.tsx:47-62 | a role is kept exactly when its name or some descendant's name contains the term |
| Professions.FilterNonEmptyIff | src/app/professions/page.tsx:47-62 | the filtered list is non-empty exactly when some role in the tree matches |
| Professions.FilterRolesAppend | src/app/professions/page.tsx:47-62 | filtering works piece by piece on a concatenation, so sibling order is preserved |
| Professions.FilterRolesRelevant | src/app/professions/page.tsx:47-62 | every kept role, at every depth, matches by name or has a non-empty filtered child list |
| Professions.NameMatchKeepsChildren | src/app/professions/page.tsx:55-59 | a matching role with no matching descendants keeps its original children; a non-matching kept role gets its filtered children |
| Professions.FilterCategories | src/app/professions/page.tsx:95-106 | the category filter never adds categories |
| Professions.KeepCategory | src/app/professions/page.tsx:97-104 | a kept category keeps its id and name; `KeepCategoryIff` states when it is kept and with which roles |
| Professions.Processed | src/app/professions/page.tsx:91-107 | the processed list is never longer than the catalogue and is the whole catalogue for a blank term |
| Professions.ProcessedCategories | src/app/professions/page.tsx:91-107 | the loop gives the specified filtered category list |
| Professions.KeepCategoryIff | src/app/professions/page.tsx:96-104 | a category is kept exactly when its name or some role in it matches; a kept one keeps id and name and has relevant roles |
| Professions.BlankSearchKeepsAll | src/app/professions/page.tsx:92-93 | a blank search term returns all categories unchanged |
| Professions.DisplayAgreesWithLoadMore | src/app/professions/page.tsx:109-117 | the shown categories are a prefix; with a search term all are shown; without one, min(count, n) are shown; "load more" is offered exactly when some are hidden |
| Professions.CategoriesToDisplay | src/app/professions/page.tsx:109-112 | the shown categories are a prefix of the processed ones, all of them while searching |
| Professions.HasMoreToLoad | src/app/professions/page.tsx:114-117 | "load more" is offered exactly when fewer categories are shown than were processed |

## Left out

- Rendering, styling, React state, `useMemo`/`useEffect` and the data fetch of the three pages: they hold no logic beyond the functions above, whose inputs become parameters.
- `JSON.parse` and the printing of numbers by `String(x)`: parameters, because they are the JavaScript runtime's.
- Random ids (`generateUniqueId`, `Date.now`, `Math.random`): randomness and time; ids are not part of the records. The random draws of the demonstration counts and of the shuffle are parameters.
- `console.warn` / `console.error` logging and the Russian insight texts: insights are kept as kind plus tag.
- Full Unicode case mapping: `Lower` maps ASCII and the basic Cyrillic alphabet only.
- String lengths count code points, while JavaScript counts UTF-16 units; the two differ only outside the Basic Multilingual Plane.
- `src/lib/hhApi.ts` beyond its `HHRole` / `HHCategory` types is not part of this model.
- MarketOverview.Entries: `Object.entries` puts integer-like keys ("1", "42") first in numeric order; the model keeps first-seen order for every key.
- MarketOverview.SortByCountDesc: stable like `Array.prototype.sort`, but only sortedness and permutation are proved, not stability.
- MarketOverview.HighDemandSample: assumes the shuffle only permutes its input; the random comparator of the source does not guarantee a uniform shuffle and that is not modelled.
- MarketOverview.GetMarketOverviewData: a skill named after an `Object.prototype` member (such as `constructor`) is counted like any other key.
