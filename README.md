# Marketing plan tool — a Dafny model of its core

The marketing plan tool walks a business owner through a questionnaire and
then asks a language model for an analysis and a marketing plan organised in
nine "marketing squares". This project models the four parts of the code
that carry logic, and proves what they promise:

- **The industry catalogue** (`Industries`, over `Lists`): the constant table
  of twelve industries, the lookup by id and the lookup by category. The
  category lookup is modelled twice: once as the code evaluates it, and once
  as intended (see Findings).
- **The questionnaire page** (`Questionnaire`): a class `QuestionnairePage`
  whose fields are the page's state (question index, current square,
  responses, completed squares, the generating flag), with one method per
  event handler. It also holds the pure parts: the business-context
  projection, the completed-squares update, the index moves, and the
  sequence of requests, navigations and alerts of a plan generation.
- **The prompt builder and model-call service** (`Claude`, over `Text`):
  - the analysis and strategy templates, filled by `String.prototype.replace`
    with a string pattern, which replaces the first occurrence only;
  - the square-specific and validation prompts, built by template
    interpolation;
  - how a reply turns into a value, a fixed error or a default.
- **The progress bar** (`ProgressBar`):
  - the completion percentage, as an exact real;
  - the styles of the nine squares;
  - the "Current Section" block.

What the outside world does is not modelled but passed in:
- `JSON.stringify` becomes serialized strings given as parameters;
- `JSON.parse` becomes a `parse` function parameter;
- the model call becomes an `llm` function from prompt to outcome;
- the server's answers to the page's two requests become method parameters;
- the page's requests, navigations and alerts are recorded in its `effects`
  field.

## Model

| member | source | states |
|---|---|---|
| `Lists.FindFirst` | src/constants/industries.ts:103 | `find`: no result exactly when no element matches; a result is an element that matches, with no earlier match |
| `Lists.Filter` | src/constants/industries.ts:117 | `filter`: exactly the matching elements, each kept as often as it occurs, in their original order |
| `Industries.GetIndustryById` | src/constants/industries.ts:102-104 | a found industry is in the table with the requested id; nothing is found exactly when no table id equals it |
| `Industries.GetIndustryByIdExact` | src/constants/industries.ts:3-104 | since the twelve ids are distinct, the lookup returns `x` if and only if `x` is the table's industry with that id |
| `Industries.IdsDistinct` | src/constants/industries.ts:3-100 | the table has twelve industries with pairwise different ids |
| `Industries.TableDistinct` | src/constants/industries.ts:3-100 | no industry occurs twice in the table |
| `Industries.CategoryIds` | src/constants/industries.ts:116 | `categories[category] \|\| []` for an own key or a name the record does not have: no ids for a name that is no category; otherwise distinct ids, each naming an industry of the table |
| `Industries.GetIndustriesByCategory` | src/constants/industries.ts:106-118 | exactly the table's industries whose id the category lists, in table order |
| `Industries.GetIndustriesByCategoryAsWritten` | src/constants/industries.ts:106-118 | the code as evaluated: it fails exactly for a name inherited from `Object.prototype` that is no category, and otherwise agrees with the intended lookup |
| `Industries.UnknownCategoryIsEmpty` | src/constants/industries.ts:116-117 | a name that is no category yields no industries |
| `Industries.CategoriesWellFormed` | src/constants/industries.ts:107-115 | every category lists distinct ids, each naming an industry of the table |
| `Industries.CategoryResultLength` | src/constants/industries.ts:106-118 | a category yields exactly as many industries as it lists ids |
| `Industries.ServiceListOrder` | src/constants/industries.ts:108 | the "service" list names home-services before fitness |
| `Industries.ServiceContainsFitnessAndHomeServices` | src/constants/industries.ts:53-68 | fitness and home-services are the table's 7th and 8th entries, and both are "service" industries |
| `Industries.ServiceFollowsTableOrder` | src/constants/industries.ts:117 | the result follows the table's order, not the category's: "service" yields fitness before home-services |
| `Industries.NonprofitInNoCategory` | src/constants/industries.ts:92-115 | nonprofit is in the table but no category yields it |
| `Industries.InheritedCategoryThrows` | src/constants/industries.ts:116-117 | for "constructor" the intended lookup is empty while the code as written fails |
| `Text.IndexOf` | src/lib/claude.ts:96-97 | the position of the first occurrence of the pattern, or none exactly when the text has no occurrence |
| `Text.ReplaceFirst` | src/lib/claude.ts:96-97 | `replace` with a string pattern: a text without the pattern is unchanged; otherwise its first occurrence, and only it, is replaced |
| `Text.ReplaceKeepsLaterOccurrence` | src/lib/claude.ts:96-97 | an occurrence after the first survives the replacement, shifted by the change in length |
| `Text.IntToString` | src/lib/claude.ts:205 | the decimal rendering of an integer: a minus sign exactly for a negative number |
| `Text.DecimalRoundTrip` | src/lib/claude.ts:205 | reading back the digits of a natural number gives that number |
| `Text.IntToStringInjective` | src/lib/claude.ts:205 | different integers render differently |
| `Claude.KeysArePlaceholders` | src/lib/claude.ts:96-97 | the three placeholder keys start with `{` and span one line |
| `Claude.AnalysisPrompt` | src/lib/claude.ts:95-97 | when the serialized context holds no `{responses}`, the context and the responses land exactly at the template's two placeholders (template text at src/lib/claude.ts:8-26) |
| `Claude.AnalysisPromptCapture` | src/lib/claude.ts:95-97 | when the serialized context holds `{responses}`, the responses replace that occurrence inside the context, and the template's own placeholder stays in the prompt |
| `Claude.StrategyPrompt` | src/lib/claude.ts:128-131 | when no serialization holds a later placeholder, the analysis, context and responses land exactly at the template's three placeholders (template text at src/lib/claude.ts:28-87) |
| `Claude.StrategyPromptCapture` | src/lib/claude.ts:128-131 | when the serialized analysis holds `{responses}` (and no `{business_context}`), the responses are spliced into the analysis and the template's own `{responses}` is left in the prompt |
| `Claude.StrategyPromptContextInAnalysis` | src/lib/claude.ts:128-131 | when the serialized analysis holds `{business_context}` and the analysis with the context spliced in holds no `{responses}`: the context is spliced into the analysis, the template's own `{business_context}` is left in the prompt, and the responses land at the template's `{responses}` |
| `Claude.StrategyPromptResponsesInContext` | src/lib/claude.ts:128-131 | when the serialized context holds `{responses}` (and the analysis no later placeholder), the responses are spliced into the context and the template's own `{responses}` is left in the prompt |
| `Claude.SquareInstruction` | src/lib/claude.ts:163-173 | an instruction exists exactly for squares 1 to 9, and it is one of the nine listed |
| `Claude.SquareInstructionNamesSquare` | src/lib/claude.ts:164-172 | each square's instruction ends with that square's number |
| `Claude.SquareInstructionsDistinct` | src/lib/claude.ts:164-172 | different squares get different instructions |
| `Claude.InstructionText` | src/lib/claude.ts:176 | `${squarePrompts[square]}`: the square's instruction for squares 1 to 9, and `undefined` exactly outside them |
| `Claude.PreviousAnalysis` | src/lib/claude.ts:180 | the analysis section is empty exactly when no analysis is provided |
| `Claude.PreviousAnalysisIffProvided` | src/lib/claude.ts:180 | the prompt with an analysis is the prompt without one, with "Previous Analysis: " and the analysis inserted before the fixed tail |
| `Claude.SquareTemplate` | src/lib/claude.ts:175-185 | the instruction, context, responses and analysis section appear verbatim at fixed places, whatever they contain |
| `Claude.SquarePrompt` | src/lib/claude.ts:175-185 | the prompt opens with the square's instruction line, and the serialized context follows its label |
| `Claude.UnknownSquareIsUndefined` | src/lib/claude.ts:176 | outside squares 1 to 9 the instruction line reads `undefined` |
| `Claude.ValidationPrompt` | src/lib/claude.ts:213-229 | the serialized responses are quoted verbatim right after the fixed request line |
| `Claude.ReplyValue` | src/lib/claude.ts:109-115 | a value comes back exactly when the call succeeded and the first content part exists, is text and parses; it is that parse |
| `Claude.NonTextReplyFails` | src/lib/claude.ts:109-111 | a reply with no first part, or a non-text one, never yields a value |
| `Claude.SquareError` | src/lib/claude.ts:205 | the message holds the square's decimal rendering at a fixed place, between fixed words |
| `Claude.SquareErrorNamesSquare` | src/lib/claude.ts:205 | the square error message names its square: different squares give different messages |
| `Claude.Service` | src/lib/claude.ts:99-119 | success exactly when the reply yields a value, with that value; every failure gives the one fixed message |
| `Claude.AnalyzeBusinessResponses` | src/lib/claude.ts:90-120 | any failure is "Failed to analyze business responses" |
| `Claude.GenerateMarketingPlan` | src/lib/claude.ts:122-154 | any failure is "Failed to generate marketing plan" |
| `Claude.GenerateSquareSpecificContent` | src/lib/claude.ts:156-207 | any failure is "Failed to generate square N content" for the requested N |
| `Claude.FeedbackOrDefault` | src/lib/claude.ts:241-250 | the parsed feedback when the reply yields one, otherwise no suggestions and score 0 |
| `Claude.ValidateAndRefineResponses` | src/lib/claude.ts:209-251 | never fails: the feedback parsed from the reply to the validation prompt when there is one, and otherwise no suggestions and a score of 0 |
| `Questionnaire.BusinessContextOf` | src/app/questionnaire/page.tsx:86-97 | each of the ten fields is the answer stored under its own response key, or undefined |
| `Questionnaire.ContextFieldFromKey` | src/app/questionnaire/page.tsx:86-97 | the ten keys are distinct, and each field of the business context is read from its own one of them |
| `Questionnaire.ContextDependsOnlyOnKeys` | src/app/questionnaire/page.tsx:86-97 | response records that agree on the ten keys give the same business context |
| `Questionnaire.ContextIgnoresOtherKeys` | src/app/questionnaire/page.tsx:86-97 | answering a question outside the ten leaves the business context as it was |
| `Questionnaire.ContextUpdateSetsOneField` | src/app/questionnaire/page.tsx:86-97 | answering one of the ten questions sets that field and no other |
| `Questionnaire.NextIndex` | src/app/questionnaire/page.tsx:67-72 | the index after "next" stays in range; it moves up by one, and stays put exactly at the last question |
| `Questionnaire.PrevIndex` | src/app/questionnaire/page.tsx:75-79 | the index after "previous" stays in range; it moves down by one, and stays put exactly at the first question |
| `Questionnaire.NavigationRoundTrip` | src/app/questionnaire/page.tsx:67-79 | "previous" undoes "next" wherever "next" moves, and the other way round |
| `Questionnaire.WithSquare` | src/app/questionnaire/page.tsx:59-64 | the square is recorded; the list only grows, by at most that square at the end; it is unchanged exactly when the square was there; it stays duplicate-free |
| `Questionnaire.WithSquareIdempotent` | src/app/questionnaire/page.tsx:59-64 | recording a square twice is recording it once |
| `Questionnaire.LeavesSquare` | src/app/questionnaire/page.tsx:57-58 | "next" leaves the square exactly when it moves and the question it moves to lies in another square |
| `Questionnaire.CompletedAfterNext` | src/app/questionnaire/page.tsx:57-65 | the current square is appended exactly when a next question exists, lies in another square, and the square is not yet listed; never on the last question; duplicates never arise |
| `Questionnaire.LeftSquareIsCompleted` | src/app/questionnaire/page.tsx:57-65 | after "next" leaves a square, that square is listed as completed |
| `Questionnaire.PlanRun` | src/app/questionnaire/page.tsx:99-133 | a generation starts with the create request (carrying the business context and all responses), has at most the generate request in between, and ends in exactly one of a navigation or the failure alert |
| `Questionnaire.GenerateOnlyAfterCreate` | src/app/questionnaire/page.tsx:109-118 | the generate request is sent only for a created plan, to that plan's address, after the create request |
| `Questionnaire.NavigatesIffBothSucceed` | src/app/questionnaire/page.tsx:120-127 | the page navigates exactly when both requests succeed, and then to the created plan's page |
| `Questionnaire.AlertsIffSomeStepFails` | src/app/questionnaire/page.tsx:128-130 | the failure alert is shown exactly when some step fails |
| `Questionnaire.GenerateUrl` | src/app/questionnaire/page.tsx:116 | the plan id is readable from a fixed place in the address, between fixed text of 11 and 9 characters |
| `Questionnaire.PlanPath` | src/app/questionnaire/page.tsx:127 | the plan id is what follows the fixed six-character prefix of the page path |
| `Questionnaire.GenerateUrlInjective` | src/app/questionnaire/page.tsx:116 | different plans are generated through different addresses |
| `Questionnaire.PlanPathInjective` | src/app/questionnaire/page.tsx:127 | different plans are shown on different pages |
| `Questionnaire.QuestionnairePage.constructor` | src/app/questionnaire/page.tsx:17-21 | the page starts at the first question, in square 0, with no responses, no completed squares and not generating |
| `Questionnaire.QuestionnairePage.SyncCurrentSquare` | src/app/questionnaire/page.tsx:38-42 | the current square becomes the current question's square; nothing else changes |
| `Questionnaire.QuestionnairePage.HandleResponseChange` | src/app/questionnaire/page.tsx:44-48 | the current question's answer is set to the value; every other stored answer and all other state are unchanged |
| `Questionnaire.QuestionnairePage.HandlePrev` | src/app/questionnaire/page.tsx:75-79 | the index becomes `PrevIndex` of the old one; nothing else changes |
| `Questionnaire.QuestionnairePage.HandleNext` | src/app/questionnaire/page.tsx:55-73 | completed squares as `CompletedAfterNext`, the index as `NextIndex`, and at the last question the effects of one plan generation appended; the index stays in range and the list duplicate-free |
| `Questionnaire.QuestionnairePage.GenerateMarketingPlan` | src/app/questionnaire/page.tsx:81-134 | appends `PlanRun`'s effects for the current responses and the server's answers; the generating flag is down afterwards in every outcome |
| `ProgressBar.ProgressPercentage` | src/components/questionnaire/ProgressBar.tsx:20 | on any question of the list the percentage lies in (0, 100] |
| `ProgressBar.ProgressFullIffLast` | src/components/questionnaire/ProgressBar.tsx:20 | the percentage is 100 exactly at the last question |
| `ProgressBar.ProgressStrictlyIncreasing` | src/components/questionnaire/ProgressBar.tsx:20 | a later question shows strictly more progress |
| `ProgressBar.SquareStyles` | src/components/questionnaire/ProgressBar.tsx:44-51 | completed style iff the id is listed, current style iff it is the current square, neutral style iff neither; every square has a style |
| `ProgressBar.CompletedAndCurrentTogether` | src/components/questionnaire/ProgressBar.tsx:47-48 | for a completed square that is also current, both the completed and the current class conditions hold |
| `ProgressBar.SquareRow` | src/components/questionnaire/ProgressBar.tsx:41-57 | one style set per listed square, in list order, each that square's styles |
| `ProgressBar.CurrentSectionBlock` | src/components/questionnaire/ProgressBar.tsx:61-71 | the block appears exactly when the current square is positive; it shows the first listed square with that id, and none exactly when no square has it |

## Left out

- The model SDK client, model names, `max_tokens` and `temperature` (src/lib/claude.ts:4-6, 99-107 and the other calls): they configure a remote call that is a parameter here. The code's token limits are 4000, 6000, 3000 and 2000.
- Text.ReplaceFirst: `$&`, `$1` and the other special patterns in a replacement string are not interpreted; the replacement is inserted literally. A serialization containing `$` could therefore give a different prompt than the model states.
- `JSON.stringify` and `JSON.parse`: serializations are string parameters and parsing is a function parameter. The shape of what `JSON.parse` returns is not checked, in the code or in the model.
- `console.error` logging throughout: output only.
- Claude.AnalyzeBusinessResponses, Claude.GenerateMarketingPlan and Claude.GenerateSquareSpecificContent: their own contracts state only the failure message. The full success-and-value contract is stated once on `Claude.Service`, through which all three are defined.
- `fetch`, `router.push`, `alert`, `localStorage` and `Date.now` (src/app/questionnaire/page.tsx:22, 50-52, 100-130, 136-146): browser and network effects. The page records the requests, navigation and alert as `effects`, and the server's answers are parameters. Auto-save and restore of responses are left out.
- The server's answer to the create request is one `Option<string>`: the plan id when the status is ok and the body is JSON. The string rendering of `plan.id`, including an `undefined` id, is not modelled.
- React's rendering and the asynchronous state updates: each handler applies its queued updates at once. The effect that syncs the current square is a separate method, `SyncCurrentSquare`, called after the index changes. The spinner shown while generating is not modelled.
- The question list and `MARKETING_SQUARES` (src/constants/questionnaire.ts is not part of this model): they are a constructor parameter and a function parameter. The page's question list is a non-empty constant, so the class requires a non-empty list.
- `QuestionnaireStep`'s props (`canGoNext`, `canGoPrev`, `isFirst`, `isLast`) and the development-only debug panel: display only.
- `Math.round` and the CSS width string of the progress bar (src/components/questionnaire/ProgressBar.tsx:29, 34): floating-point rounding and formatting. The percentage is an exact real, not a double.
- ProgressBar.ProgressPercentage: a total of zero questions, where JavaScript computes Infinity or NaN, is excluded. The page always passes its non-empty question count.
- Square numbers that are not integers: `square` is an `int`.
- Text.IntToString: it writes every integer out in full. JavaScript's `${n}` uses exponent form for magnitudes of 10^21 or more (a square of 1e21 gives "Failed to generate square 1e+21 content"), and numbers beyond 2^53 are not distinct JavaScript numbers, so `Text.IntToStringInjective` speaks of the program only below that bound.
- Claude.PreviousAnalysis: the code tests `existingAnalysis` for truthiness. `None` stands for any falsy value (absent, `null`, `0`, `""`, `false`), which gets no section; `Some(s)` stands for a truthy value serialized to `s`.
- src/app/page.tsx, src/app/layout.tsx, the API routes and the other components: markup, metadata and server code outside this model.

## Findings

| source | as written | input that shows it | evidently intended | confidence | as-written member | corrected member |
|---|---|---|---|---|---|---|
| src/constants/industries.ts:116-117 | `categories[category] \|\| []` also finds names the record inherits from `Object.prototype`; their values are truthy non-arrays, so `.includes` throws a TypeError | `getIndustriesByCategory("constructor")` | a name that is not a category yields no industries | not executed | `Industries.GetIndustriesByCategoryAsWritten` (with `Industries.InheritedCategoryThrows`) | `Industries.GetIndustriesByCategory` (with `Industries.UnknownCategoryIsEmpty`) |
