/** The prompt builder of the Claude client and the result contract of its four
    service calls. Serialization (`JSON.stringify(x, null, 2)`), parsing (`JSON.parse`)
    and the model call itself are parameters: the prompts take already serialized text,
    and each service takes the model as a function from prompt to reply and the parser
    as a partial function from reply text to value. */
module Claude {
  import opened Wrappers
  import opened Text

  const BUSINESS_CONTEXT_KEY: string := "{business_context}"
  const RESPONSES_KEY: string := "{responses}"
  const ANALYSIS_KEY: string := "{analysis}"

  // The two fixed templates, split at their placeholders. Their long lines are written
  // in short literal pieces so that the absence of `{` can be checked piece by piece;
  // the text is unchanged.

  /** The analysis template's first line (the role it gives the model), first part. */
  const ANALYSIS_INTRO_A: string :=
    "You are an expert " + "marketing strategist " + "analyzing a business " + "for comprehensive "

  /** The analysis template's first line, second part. */
  const ANALYSIS_INTRO_B: string :=
    "strategic planning. \n"

  /** The analysis template's second line (the task), first part. */
  const ANALYSIS_TASK_A: string :=
    "Review the following " + "business information " + "and questionnaire " + "responses, then "

  /** The analysis template's second line, second part. */
  const ANALYSIS_TASK_B: string :=
    "provide a thorough " + "analysis.\n"

  /** The analysis template up to its `{business_context}` placeholder. */
  const ANALYSIS_HEAD: string := "\n" + ANALYSIS_INTRO_A + ANALYSIS_INTRO_B + ANALYSIS_TASK_A + ANALYSIS_TASK_B + "\n" + "Business Context: "

  /** The analysis template between its two placeholders. */
  const ANALYSIS_MIDDLE: string := "\n" + "Questionnaire Responses: "

  /** The analysis template after its `{responses}` placeholder. */
  const ANALYSIS_TAIL: string :=
    "\n" +
    "\n" +
    "Provide a comprehensive analysis in JSON format including:\n" +
    "1. businessModelAssessment: Evaluation of the business model strengths and weaknesses\n" +
    "2. marketOpportunity: Analysis of market size, trends, and opportunities\n" +
    "3. competitivePositioning: Assessment of competitive landscape and positioning\n" +
    "4. customerAvatarRefinement: Detailed ideal customer profile based on responses\n" +
    "5. strategicRecommendations: Array of specific, actionable strategic recommendations\n" +
    "6. riskFactors: Array of potential challenges and risks to consider\n" +
    "7. growthPotential: Assessment of growth opportunities and scalability\n" +
    "\n" +
    "Structure your analysis professionally with clear insights and actionable observations.\n" +
    "Return only valid JSON without any markdown formatting or additional text.\n"

  /** The strategy template's first line (the task), first part. */
  const STRATEGY_INTRO_A: string :=
    "Based on the business " + "analysis provided, " + "develop a " + "comprehensive "

  /** The strategy template's first line, second part. */
  const STRATEGY_INTRO_B: string :=
    "marketing strategy " + "that follows the " + "9-square marketing " + "plan framework.\n"

  /** The strategy template up to its `{analysis}` placeholder. */
  const STRATEGY_HEAD: string := "\n" + STRATEGY_INTRO_A + STRATEGY_INTRO_B + "\n" + "Business Analysis: "

  /** The strategy template between `{analysis}` and `{business_context}`. */
  const STRATEGY_MIDDLE1: string := "\n" + "Business Context: "

  /** The strategy template between `{business_context}` and `{responses}`. */
  const STRATEGY_MIDDLE2: string := "\n" + "Questionnaire Responses: "

  /** The strategy template after its `{responses}` placeholder. */
  const STRATEGY_TAIL: string :=
    "\n" +
    "\n" +
    "Generate a complete marketing plan in JSON format with the following structure:\n" +
    "\n" +
    "{\n" +
    "  \"onePagePlan\": {\n" +
    "    \"before\": {\n" +
    "      \"targetMarket\": \"Detailed description of ideal customer avatar\",\n" +
    "      \"message\": \"Clear, compelling unique value proposition\",\n" +
    "      \"media\": [\"Top 3 marketing channels with specific rationale\"]\n" +
    "    },\n" +
    "    \"during\": {\n" +
    "      \"leadCapture\": \"Specific lead capture mechanism and compelling offer\",\n" +
    "      \"leadNurture\": \"Strategic nurturing sequence and content strategy\",\n" +
    "      \"salesConversion\": \"Optimized sales process and key conversion tactics\"\n" +
    "    },\n" +
    "    \"after\": {\n" +
    "      \"deliverExperience\": \"Customer delivery and onboarding strategy\",\n" +
    "      \"lifetimeValue\": \"Retention and customer growth strategies\",\n" +
    "      \"referrals\": \"Systematic referral generation system\"\n" +
    "    }\n" +
    "  },\n" +
    "  \"implementationGuide\": {\n" +
    "    \"executiveSummary\": \"2-3 paragraph overview of the strategy and expected outcomes\",\n" +
    "    \"actionPlans\": {\n" +
    "      \"phase1\": \"First 30 days action items with specific tasks\",\n" +
    "      \"phase2\": \"Days 31-90 action items and initiatives\",\n" +
    "      \"phase3\": \"Days 91-180 scaling and optimization activities\"\n" +
    "    },\n" +
    "    \"timeline\": \"Detailed implementation timeline with milestones\",\n" +
    "    \"resources\": \"Required resources, tools, and budget estimates\",\n" +
    "    \"kpis\": \"Key performance indicators and success metrics to track\",\n" +
    "    \"templates\": \"Specific templates, scripts, and tools needed\"\n" +
    "  },\n" +
    "  \"strategicInsights\": {\n" +
    "    \"strengths\": [\"Key business strengths to leverage\"],\n" +
    "    \"opportunities\": [\"Market opportunities to pursue\"],\n" +
    "    \"positioning\": \"Recommended market positioning strategy\",\n" +
    "    \"competitiveAdvantage\": \"Unique competitive advantages to emphasize\",\n" +
    "    \"growthPotential\": \"Assessment of growth potential and scalability\",\n" +
    "    \"risks\": [\"Key risks and mitigation strategies\"],\n" +
    "    \"investments\": [\"Recommended marketing investments and priorities\"],\n" +
    "    \"roi\": \"Expected return on investment and key metrics\"\n" +
    "  }\n" +
    "}\n" +
    "\n" +
    "Ensure all recommendations are:\n" +
    "- Industry-specific and relevant\n" +
    "- Actionable with clear next steps\n" +
    "- Budget-conscious based on stated constraints\n" +
    "- Measurable with specific KPIs\n" +
    "- Realistic for the business size and maturity\n" +
    "\n" +
    "Return only valid JSON without any markdown formatting or additional text.\n"

  /** The analysis template, with its two placeholders. */
  const ANALYSIS_PROMPT: string := ANALYSIS_HEAD + BUSINESS_CONTEXT_KEY + ANALYSIS_MIDDLE + RESPONSES_KEY + ANALYSIS_TAIL

  /** The strategy template, with its three placeholders. */
  const STRATEGY_PROMPT: string :=
    STRATEGY_HEAD + ANALYSIS_KEY + STRATEGY_MIDDLE1 + BUSINESS_CONTEXT_KEY + STRATEGY_MIDDLE2 + RESPONSES_KEY + STRATEGY_TAIL

  lemma AnalysisIntroALacksBrace()
    ensures '{' !in ANALYSIS_INTRO_A
  {
    assert '{' !in "You are an expert ";
    assert '{' !in "marketing strategist ";
    assert '{' !in "analyzing a business ";
    assert '{' !in "for comprehensive ";
  }

  lemma AnalysisIntroBLacksBrace()
    ensures '{' !in ANALYSIS_INTRO_B
  {
    assert '{' !in "strategic planning. \n";
  }

  lemma AnalysisTaskALacksBrace()
    ensures '{' !in ANALYSIS_TASK_A
  {
    assert '{' !in "Review the following ";
    assert '{' !in "business information ";
    assert '{' !in "and questionnaire ";
    assert '{' !in "responses, then ";
  }

  lemma AnalysisTaskBLacksBrace()
    ensures '{' !in ANALYSIS_TASK_B
  {
    assert '{' !in "provide a thorough ";
    assert '{' !in "analysis.\n";
  }

  lemma AnalysisHeadLacksBrace()
    ensures '{' !in ANALYSIS_HEAD
  {
    AnalysisIntroALacksBrace();
    AnalysisIntroBLacksBrace();
    AnalysisTaskALacksBrace();
    AnalysisTaskBLacksBrace();
    assert '{' !in "\n";
    assert '{' !in "Business Context: ";
  }

  lemma AnalysisMiddleLacksBrace()
    ensures '{' !in ANALYSIS_MIDDLE
  {
    assert '{' !in "\n";
    assert '{' !in "Questionnaire Responses: ";
  }

  lemma StrategyIntroALacksBrace()
    ensures '{' !in STRATEGY_INTRO_A
  {
    assert '{' !in "Based on the business ";
    assert '{' !in "analysis provided, ";
    assert '{' !in "develop a ";
    assert '{' !in "comprehensive ";
  }

  lemma StrategyIntroBLacksBrace()
    ensures '{' !in STRATEGY_INTRO_B
  {
    assert '{' !in "marketing strategy ";
    assert '{' !in "that follows the ";
    assert '{' !in "9-square marketing ";
    assert '{' !in "plan framework.\n";
  }

  lemma StrategyHeadLacksBrace()
    ensures '{' !in STRATEGY_HEAD
  {
    StrategyIntroALacksBrace();
    StrategyIntroBLacksBrace();
    assert '{' !in "\n";
    assert '{' !in "Business Analysis: ";
  }

  lemma StrategyMiddle1LacksBrace()
    ensures '{' !in STRATEGY_MIDDLE1
  {
    assert '{' !in "\n";
    assert '{' !in "Business Context: ";
  }

  lemma StrategyMiddle2LacksBrace()
    ensures '{' !in STRATEGY_MIDDLE2
  {
    assert '{' !in "\n";
    assert '{' !in "Questionnaire Responses: ";
  }

  /** The three placeholder texts open with `{` and stay on one line. */
  lemma KeysArePlaceholders()
    ensures Placeholder(BUSINESS_CONTEXT_KEY) && Placeholder(RESPONSES_KEY) && Placeholder(ANALYSIS_KEY)
  {
    assert '\n' !in "{business_context}";
    assert '\n' !in "{responses}";
    assert '\n' !in "{analysis}";
  }

  /** The analysis prompt: the serialized business context replaces `{business_context}`,
      then the serialized responses replace `{responses}` in what that produced. When the
      serialized context does not itself hold `{responses}`, each serialization lands at
      the template's own placeholder. */
  function AnalysisPrompt(contextJson: string, responsesJson: string): (r: string)
    ensures Clean(contextJson, RESPONSES_KEY)
            ==> r == ANALYSIS_HEAD + contextJson + ANALYSIS_MIDDLE + responsesJson + ANALYSIS_TAIL
  {
    var r := ReplaceFirst(ReplaceFirst(ANALYSIS_PROMPT, BUSINESS_CONTEXT_KEY, contextJson), RESPONSES_KEY, responsesJson);
    if Clean(contextJson, RESPONSES_KEY) then AnalysisPromptLayout(contextJson, responsesJson); r else r
  }

  /** The strategy prompt: analysis, then business context, then responses, each
      replacing the first occurrence of its placeholder in the text so far. When no
      serialization holds a later placeholder, each lands at the template's own
      placeholder. */
  function StrategyPrompt(analysisJson: string, contextJson: string, responsesJson: string): (r: string)
    ensures Clean(analysisJson, BUSINESS_CONTEXT_KEY) && Clean(analysisJson, RESPONSES_KEY)
            && Clean(contextJson, RESPONSES_KEY)
            ==> r == STRATEGY_HEAD + analysisJson + STRATEGY_MIDDLE1 + contextJson + STRATEGY_MIDDLE2 + responsesJson + STRATEGY_TAIL
  {
    StrategyPromptLayout(analysisJson, contextJson, responsesJson);
    ReplaceFirst(
      ReplaceFirst(
        ReplaceFirst(STRATEGY_PROMPT, ANALYSIS_KEY, analysisJson),
        BUSINESS_CONTEXT_KEY, contextJson),
      RESPONSES_KEY, responsesJson)
  }

  /** The layout of the analysis prompt for a context free of `{responses}` (the step
      `AnalysisPrompt`'s contract rests on). */
  lemma AnalysisPromptLayout(contextJson: string, responsesJson: string)
    requires Clean(contextJson, RESPONSES_KEY)
    ensures ReplaceFirst(ReplaceFirst(ANALYSIS_PROMPT, BUSINESS_CONTEXT_KEY, contextJson), RESPONSES_KEY, responsesJson)
         == ANALYSIS_HEAD + contextJson + ANALYSIS_MIDDLE + responsesJson + ANALYSIS_TAIL
  {
    KeysArePlaceholders();
    AnalysisHeadLacksBrace();
    AnalysisMiddleLacksBrace();
    FillTwo(ANALYSIS_HEAD, BUSINESS_CONTEXT_KEY, ANALYSIS_MIDDLE, RESPONSES_KEY, ANALYSIS_TAIL, contextJson, responsesJson);
  }

  /** The layout of the strategy prompt for serializations free of later placeholders
      (the step `StrategyPrompt`'s contract rests on). */
  lemma StrategyPromptLayout(analysisJson: string, contextJson: string, responsesJson: string)
    ensures Clean(analysisJson, BUSINESS_CONTEXT_KEY) && Clean(analysisJson, RESPONSES_KEY)
            && Clean(contextJson, RESPONSES_KEY)
            ==> (ReplaceFirst(
                   ReplaceFirst(
                     ReplaceFirst(STRATEGY_PROMPT, ANALYSIS_KEY, analysisJson),
                     BUSINESS_CONTEXT_KEY, contextJson),
                   RESPONSES_KEY, responsesJson)
                 == STRATEGY_HEAD + analysisJson + STRATEGY_MIDDLE1 + contextJson + STRATEGY_MIDDLE2 + responsesJson
                    + STRATEGY_TAIL)
  {
    if Clean(analysisJson, BUSINESS_CONTEXT_KEY) && Clean(analysisJson, RESPONSES_KEY) && Clean(contextJson, RESPONSES_KEY) {
      KeysArePlaceholders();
      StrategyHeadLacksBrace();
      StrategyMiddle1LacksBrace();
      StrategyMiddle2LacksBrace();
      FillThree(STRATEGY_HEAD, ANALYSIS_KEY, STRATEGY_MIDDLE1, BUSINESS_CONTEXT_KEY, STRATEGY_MIDDLE2, RESPONSES_KEY,
        STRATEGY_TAIL, analysisJson, contextJson, responsesJson);
    }
  }

  /** When the serialized context holds `{responses}`, its first such occurrence captures
      the serialized responses, and the template's own `{responses}` is left in the prompt. */
  lemma AnalysisPromptCapture(contextJson: string, responsesJson: string, k: int)
    requires FirstOccurrence(contextJson, RESPONSES_KEY, k)
    ensures AnalysisPrompt(contextJson, responsesJson)
         == ANALYSIS_HEAD + contextJson[..k] + responsesJson + contextJson[k + |RESPONSES_KEY|..]
            + ANALYSIS_MIDDLE + RESPONSES_KEY + ANALYSIS_TAIL
  {
    KeysArePlaceholders();
    AnalysisHeadLacksBrace();
    CaptureTwo(ANALYSIS_HEAD, BUSINESS_CONTEXT_KEY, ANALYSIS_MIDDLE, RESPONSES_KEY, ANALYSIS_TAIL, contextJson, responsesJson, k);
  }

  /** When the serialized analysis holds `{responses}` (and no `{business_context}`), its
      first such occurrence captures the serialized responses, and the template's own
      `{responses}` is left in the prompt. */
  lemma StrategyPromptCapture(analysisJson: string, contextJson: string, responsesJson: string, k: int)
    requires Clean(analysisJson, BUSINESS_CONTEXT_KEY) && FirstOccurrence(analysisJson, RESPONSES_KEY, k)
    ensures StrategyPrompt(analysisJson, contextJson, responsesJson)
         == STRATEGY_HEAD + analysisJson[..k] + responsesJson + analysisJson[k + |RESPONSES_KEY|..]
            + STRATEGY_MIDDLE1 + contextJson + STRATEGY_MIDDLE2 + RESPONSES_KEY + STRATEGY_TAIL
  {
    KeysArePlaceholders();
    StrategyHeadLacksBrace();
    StrategyMiddle1LacksBrace();
    CaptureThree(STRATEGY_HEAD, ANALYSIS_KEY, STRATEGY_MIDDLE1, BUSINESS_CONTEXT_KEY, STRATEGY_MIDDLE2, RESPONSES_KEY,
      STRATEGY_TAIL, analysisJson, contextJson, responsesJson, k);
  }

  /** `{business_context}` does not contain `{responses}`. */
  lemma ContextKeyLacksResponsesKey()
    ensures Clean(BUSINESS_CONTEXT_KEY, RESPONSES_KEY)
  {
    forall k | 0 <= k <= |BUSINESS_CONTEXT_KEY| ensures !OccursAt(BUSINESS_CONTEXT_KEY, RESPONSES_KEY, k) {
      if 0 < k && k + |RESPONSES_KEY| <= |BUSINESS_CONTEXT_KEY| {
        assert BUSINESS_CONTEXT_KEY[k..k + |RESPONSES_KEY|][0] == BUSINESS_CONTEXT_KEY[k];
      } else if k == 0 {
        assert BUSINESS_CONTEXT_KEY[1] != RESPONSES_KEY[1];
      }
    }
  }

  /** When the serialized analysis holds `{business_context}`, its first such occurrence
      captures the serialized context, and the template's own `{business_context}` is left
      in the prompt; the responses still land at the template's `{responses}` when the
      analysis, with the context spliced in, does not hold `{responses}`. */
  lemma StrategyPromptContextInAnalysis(analysisJson: string, contextJson: string, responsesJson: string, k: int)
    requires FirstOccurrence(analysisJson, BUSINESS_CONTEXT_KEY, k)
    requires Clean(analysisJson[..k] + contextJson + analysisJson[k + |BUSINESS_CONTEXT_KEY|..], RESPONSES_KEY)
    ensures StrategyPrompt(analysisJson, contextJson, responsesJson)
         == STRATEGY_HEAD + (analysisJson[..k] + contextJson + analysisJson[k + |BUSINESS_CONTEXT_KEY|..])
            + STRATEGY_MIDDLE1 + BUSINESS_CONTEXT_KEY + STRATEGY_MIDDLE2 + responsesJson + STRATEGY_TAIL
  {
    KeysArePlaceholders();
    StrategyHeadLacksBrace();
    StrategyMiddle1LacksBrace();
    StrategyMiddle2LacksBrace();
    ContextKeyLacksResponsesKey();
    CaptureSecondOfThree(STRATEGY_HEAD, ANALYSIS_KEY, STRATEGY_MIDDLE1, BUSINESS_CONTEXT_KEY, STRATEGY_MIDDLE2,
      RESPONSES_KEY, STRATEGY_TAIL, analysisJson, contextJson, responsesJson, k);
  }

  /** When the serialized context holds `{responses}` (and the analysis no later
      placeholder), its first such occurrence captures the serialized responses, and the
      template's own `{responses}` is left in the prompt. */
  lemma StrategyPromptResponsesInContext(analysisJson: string, contextJson: string, responsesJson: string, k: int)
    requires Clean(analysisJson, BUSINESS_CONTEXT_KEY) && Clean(analysisJson, RESPONSES_KEY)
    requires FirstOccurrence(contextJson, RESPONSES_KEY, k)
    ensures StrategyPrompt(analysisJson, contextJson, responsesJson)
         == STRATEGY_HEAD + analysisJson + STRATEGY_MIDDLE1 + contextJson[..k] + responsesJson
            + contextJson[k + |RESPONSES_KEY|..] + STRATEGY_MIDDLE2 + RESPONSES_KEY + STRATEGY_TAIL
  {
    KeysArePlaceholders();
    StrategyHeadLacksBrace();
    StrategyMiddle1LacksBrace();
    CaptureThirdInSecond(STRATEGY_HEAD, ANALYSIS_KEY, STRATEGY_MIDDLE1, BUSINESS_CONTEXT_KEY, STRATEGY_MIDDLE2,
      RESPONSES_KEY, STRATEGY_TAIL, analysisJson, contextJson, responsesJson, k);
  }

  /** The `squarePrompts` record: an instruction line for each of the squares 1 to 9. */
  const SQUARE_PROMPTS: map<int, string> := map[
    1 := "Generate detailed target market analysis and customer avatar for marketing square 1",
    2 := "Generate comprehensive value proposition and messaging strategy for marketing square 2",
    3 := "Generate media channel strategy and reach optimization for marketing square 3",
    4 := "Generate lead capture mechanisms and acquisition strategy for marketing square 4",
    5 := "Generate lead nurturing and relationship building strategy for marketing square 5",
    6 := "Generate sales conversion and closing optimization for marketing square 6",
    7 := "Generate customer experience and delivery optimization for marketing square 7",
    8 := "Generate lifetime value and growth strategy for marketing square 8",
    9 := "Generate referral system and advocacy strategy for marketing square 9"]

  /** `squarePrompts[square]`, with `None` for a missing entry. */
  function SquareInstruction(square: int): (r: Option<string>)
    ensures r.Some? <==> 1 <= square <= 9
    ensures r.Some? ==> r.value in SQUARE_PROMPTS.Values
  {
    if square in SQUARE_PROMPTS then Some(SQUARE_PROMPTS[square]) else None
  }

  /** Each instruction ends with the number of its square. */
  lemma SquareInstructionNamesSquare(square: int)
    requires 1 <= square <= 9
    ensures var t := SquareInstruction(square).value; |t| > 0 && t[|t| - 1] == Digit(square)
  {
    var t := SQUARE_PROMPTS[square];
    if square == 1 { assert |t| == 83; }
    else if square == 2 { assert |t| == 86; }
    else if square == 3 { assert |t| == 77; }
    else if square == 4 { assert |t| == 80; }
    else if square == 5 { assert |t| == 81; }
    else if square == 6 { assert |t| == 73; }
    else if square == 7 { assert |t| == 77; }
    else if square == 8 { assert |t| == 66; }
    else { assert |t| == 69; }
  }

  /** Different squares get different instructions. */
  lemma SquareInstructionsDistinct(a: int, b: int)
    requires 1 <= a <= 9 && 1 <= b <= 9 && a != b
    ensures SquareInstruction(a).value != SquareInstruction(b).value
  {
    SquareInstructionNamesSquare(a);
    SquareInstructionNamesSquare(b);
  }

  /** `${squarePrompts[square]}`: a missing entry renders as `undefined`, which no
      instruction reads. */
  function InstructionText(square: int): (r: string)
    ensures r == "undefined" <==> !(1 <= square <= 9)
    ensures 1 <= square <= 9 ==> Some(r) == SquareInstruction(square)
  {
    match SquareInstruction(square)
    case Some(text) => text
    case None => "undefined"
  }

  const SQUARE_INDENT: string := "\n        "
  const SQUARE_CONTEXT_LABEL: string := "\n        \n        Business Context: "
  const SQUARE_RESPONSES_LABEL: string := "\n        Relevant Responses: "
  const SQUARE_PROMPT_TAIL: string :=
    "\n        \n" +
    "        Provide specific, actionable recommendations for this marketing square in JSON format.\n" +
    "        Include implementation steps, success metrics, and industry-specific best practices.\n" +
    "        Return only valid JSON without any markdown formatting or additional text.\n" +
    "      "

  /** The optional analysis section, present only for a provided analysis. The source
      tests `existingAnalysis` for truthiness: `None` stands for any falsy value (absent,
      `null`, `0`, `""`, `false`), and `Some(s)` for a truthy value whose serialization
      is `s`. */
  function PreviousAnalysis(analysisJson: Option<string>): (r: string)
    ensures r == [] <==> analysisJson.None?
  {
    match analysisJson
    case Some(a) => "Previous Analysis: " + a
    case None => ""
  }

  /** The square-specific template literal, for a given instruction line and analysis
      section. Interpolation inserts the instruction and each serialization verbatim at a
      fixed place, whatever they contain: unlike the replace-based prompts, nothing in
      them is substituted. */
  function SquareTemplate(instruction: string, contextJson: string, responsesJson: string, section: string): (r: string)
    ensures var before := SQUARE_INDENT + instruction + SQUARE_CONTEXT_LABEL;
            OccursAt(r, instruction, |SQUARE_INDENT|)
            && OccursAt(r, contextJson, |before|)
            && OccursAt(r, responsesJson, |before| + |contextJson| + |SQUARE_RESPONSES_LABEL|)
            && OccursAt(r, section, |before| + |contextJson| + |SQUARE_RESPONSES_LABEL| + |responsesJson| + |SQUARE_INDENT|)
  {
    OccursInNine(SQUARE_INDENT, instruction, SQUARE_CONTEXT_LABEL, contextJson, SQUARE_RESPONSES_LABEL, responsesJson,
      SQUARE_INDENT, section, SQUARE_PROMPT_TAIL);
    SQUARE_INDENT + instruction + SQUARE_CONTEXT_LABEL + contextJson + SQUARE_RESPONSES_LABEL + responsesJson
      + SQUARE_INDENT + section + SQUARE_PROMPT_TAIL
  }

  /** The square-specific prompt, built by template interpolation: the square's
      instruction line opens it, and the serialized context follows its label. */
  function SquarePrompt(square: int, contextJson: string, responsesJson: string, analysisJson: Option<string>): (r: string)
    ensures OccursAt(r, InstructionText(square), |SQUARE_INDENT|)
    ensures OccursAt(r, contextJson, |SQUARE_INDENT + InstructionText(square) + SQUARE_CONTEXT_LABEL|)
  {
    var instruction := InstructionText(square);
    SquareTemplate(instruction, contextJson, responsesJson, PreviousAnalysis(analysisJson))
  }

  /** The "Previous Analysis" section is there exactly when an analysis is provided: for
      every instruction line, the prompt with an analysis is the prompt without one, with
      the section inserted in front of the fixed tail. */
  lemma PreviousAnalysisIffProvided(instruction: string, contextJson: string, responsesJson: string, analysisJson: string)
    ensures var without := SquareTemplate(instruction, contextJson, responsesJson, PreviousAnalysis(None));
            var k := |without| - |SQUARE_PROMPT_TAIL|;
            0 <= k && SquareTemplate(instruction, contextJson, responsesJson, PreviousAnalysis(Some(analysisJson)))
              == without[..k] + "Previous Analysis: " + analysisJson + without[k..]
  {
    var head := SQUARE_INDENT + instruction + SQUARE_CONTEXT_LABEL + contextJson + SQUARE_RESPONSES_LABEL
      + responsesJson + SQUARE_INDENT;
    var prefix := "Previous Analysis: ";
    var section := prefix + analysisJson;
    var without := head + "" + SQUARE_PROMPT_TAIL;
    var k := |without| - |SQUARE_PROMPT_TAIL|;
    assert SquareTemplate(instruction, contextJson, responsesJson, PreviousAnalysis(None)) == without by {
      assert PreviousAnalysis(None) == "";
    }
    assert SquareTemplate(instruction, contextJson, responsesJson, PreviousAnalysis(Some(analysisJson)))
        == head + section + SQUARE_PROMPT_TAIL;
    InsertBeforeTail(head, section, SQUARE_PROMPT_TAIL);
    assert without[..k] + section == without[..k] + prefix + analysisJson by {
      Assoc(without[..k], prefix, analysisJson);
    }
  }

  /** Outside squares 1 to 9 the instruction line reads `undefined`. */
  lemma UnknownSquareIsUndefined(square: int, contextJson: string, responsesJson: string, analysisJson: Option<string>)
    requires !(1 <= square <= 9)
    ensures OccursAt(SquarePrompt(square, contextJson, responsesJson, analysisJson), "undefined", |SQUARE_INDENT|)
  {
  }

  const VALIDATION_HEAD: string :=
    "\n        Review these marketing questionnaire responses and provide feedback:\n        \n        "

  const VALIDATION_TAIL: string :=
    "\n        \n" +
    "        Analyze the responses and provide:\n" +
    "        1. suggestions: Array of specific suggestions for improving or clarifying responses\n" +
    "        2. completionScore: Numerical score from 0-100 indicating response quality and completeness\n" +
    "        \n" +
    "        Focus on:\n" +
    "        - Completeness of responses\n" +
    "        - Specificity and actionability\n" +
    "        - Clarity of business objectives\n" +
    "        - Market understanding depth\n" +
    "        \n" +
    "        Return only valid JSON without any markdown formatting or additional text.\n" +
    "      "

  /** The validation prompt, built by template interpolation: the serialized responses
      are quoted verbatim right after the fixed request line. */
  function ValidationPrompt(responsesJson: string): (r: string)
    ensures OccursAt(r, VALIDATION_HEAD, 0)
    ensures OccursAt(r, responsesJson, |VALIDATION_HEAD|)
  {
    VALIDATION_HEAD + responsesJson + VALIDATION_TAIL
  }

  /** One part of a model reply. */
  datatype ContentBlock = TextBlock(text: string) | OtherBlock(kind: string)

  /** The result of a model call: the reply's content parts, or a thrown error. */
  datatype CallOutcome = Replied(content: seq<ContentBlock>) | CallFailed(reason: string)

  /** What the `try` block of a service produces: the parse of the first content part,
      when the call succeeded, the first part exists and is text, and the text parses.
      A missing first part makes `content.type` throw, a non-text one throws
      "Unexpected response format", and a parse error throws too. */
  function ReplyValue<V>(outcome: CallOutcome, parse: string -> Option<V>): (r: Option<V>)
    ensures r.Some? <==> outcome.Replied? && |outcome.content| > 0 && outcome.content[0].TextBlock?
                         && parse(outcome.content[0].text).Some?
    ensures r.Some? ==> r == parse(outcome.content[0].text)
  {
    match outcome
    case CallFailed(_) => None
    case Replied(content) =>
      if |content| == 0 then None
      else match content[0]
        case OtherBlock(_) => None
        case TextBlock(text) => parse(text)
  }

  /** A reply whose first part is not text never yields a value, whatever the parser. */
  lemma NonTextReplyFails<V>(outcome: CallOutcome, parse: string -> Option<V>)
    requires outcome.Replied? && (|outcome.content| == 0 || outcome.content[0].OtherBlock?)
    ensures ReplyValue(outcome, parse) == None
  {
  }

  const ANALYZE_ERROR: string := "Failed to analyze business responses"
  const GENERATE_ERROR: string := "Failed to generate marketing plan"

  /** The message of the error `generateSquareSpecificContent` throws. */
  function SquareError(square: int): (r: string)
    ensures |r| == |IntToString(square)| + 34
    ensures OccursAt(r, IntToString(square), 26)
  {
    "Failed to generate square " + IntToString(square) + " content"
  }

  /** The square error names its square: different squares give different messages. */
  lemma SquareErrorNamesSquare(a: int, b: int)
    requires SquareError(a) == SquareError(b)
    ensures a == b
  {
    var p, q := "Failed to generate square ", " content";
    var x, y := IntToString(a), IntToString(b);
    assert |x| == |y|;
    MiddleOf(p, x, q);
    MiddleOf(p, y, q);
    IntToStringInjective(a, b);
  }

  /** A service call: the prompt goes to the model, and a failure of any kind (a thrown
      call, a missing or non-text first part, text that does not parse) turns into the one
      fixed error. */
  function Service<V>(prompt: string, llm: string -> CallOutcome, parse: string -> Option<V>, message: string)
    : (r: Result<V, string>)
    ensures var v := ReplyValue(llm(prompt), parse);
            (r.Success? <==> v.Some?) && (r.Success? ==> r.value == v.value) && (r.Failure? ==> r.error == message)
  {
    match ReplyValue(llm(prompt), parse)
    case Some(v) => Success(v)
    case None => Failure(message)
  }

  /** `analyzeBusinessResponses`: the analysis prompt goes to the model, and any failure
      becomes "Failed to analyze business responses". */
  function AnalyzeBusinessResponses<V>(contextJson: string, responsesJson: string,
                                       llm: string -> CallOutcome, parse: string -> Option<V>): (r: Result<V, string>)
    ensures r.Failure? ==> r.error == ANALYZE_ERROR
  {
    Service(AnalysisPrompt(contextJson, responsesJson), llm, parse, ANALYZE_ERROR)
  }

  /** `generateMarketingPlan`: the strategy prompt goes to the model, and any failure
      becomes "Failed to generate marketing plan". */
  function GenerateMarketingPlan<V>(contextJson: string, responsesJson: string, analysisJson: string,
                                    llm: string -> CallOutcome, parse: string -> Option<V>): (r: Result<V, string>)
    ensures r.Failure? ==> r.error == GENERATE_ERROR
  {
    Service(StrategyPrompt(analysisJson, contextJson, responsesJson), llm, parse, GENERATE_ERROR)
  }

  /** `generateSquareSpecificContent`: the square prompt goes to the model, and any
      failure becomes "Failed to generate square N content". */
  function GenerateSquareSpecificContent<V>(square: int, contextJson: string, responsesJson: string,
                                            analysisJson: Option<string>,
                                            llm: string -> CallOutcome, parse: string -> Option<V>): (r: Result<V, string>)
    ensures r.Failure? ==> r.error == SquareError(square)
  {
    Service(SquarePrompt(square, contextJson, responsesJson, analysisJson), llm, parse, SquareError(square))
  }

  /** The feedback `validateAndRefineResponses` returns. */
  datatype Feedback = Feedback(suggestions: seq<string>, completionScore: real)

  /** A call that never fails: on any failure it returns no suggestions and a score of 0. */
  function FeedbackOrDefault(prompt: string, llm: string -> CallOutcome, parse: string -> Option<Feedback>): (r: Feedback)
    ensures var v := ReplyValue(llm(prompt), parse);
            (v.Some? ==> r == v.value) && (v.None? ==> r == Feedback([], 0.0))
  {
    match ReplyValue(llm(prompt), parse)
    case Some(feedback) => feedback
    case None => Feedback([], 0.0)
  }

  /** `validateAndRefineResponses`: the validation prompt goes to the model; the result is
      the parsed feedback, or the default feedback on any failure. */
  function ValidateAndRefineResponses(responsesJson: string, llm: string -> CallOutcome,
                                      parse: string -> Option<Feedback>): (r: Feedback)
    ensures var v := ReplyValue(llm(ValidationPrompt(responsesJson)), parse);
            (v.Some? ==> r == v.value) && (v.None? ==> r == Feedback([], 0.0))
  {
    FeedbackOrDefault(ValidationPrompt(responsesJson), llm, parse)
  }
}
