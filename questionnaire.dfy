/** The questionnaire page: a cursor over a fixed, non-empty list of questions,
    the answers typed so far, the squares already left behind, and the plan
    generation that the last "next" starts.

    The page's state hooks become the fields of `QuestionnairePage`; each event
    handler becomes a method that applies all of its state updates at once (the
    updates one handler queues are applied together before the next event).
    The browser and the server are not modelled: what the page asks of them
    is recorded, in order, in the field `effects`, and what they answer comes
    in as method parameters. */
module Questionnaire {
  import opened Wrappers
  import opened Lists

  /** One question: its key in the response record and the marketing square
      (1 to 9, or 0 for the business-context questions) it belongs to. */
  datatype Question = Question(id: string, square: int)

  // ---------------------------------------------------------------------
  // The business-context projection
  // ---------------------------------------------------------------------

  /** The ten fields sent as `businessContext` with a new plan; a field is
      `None` when the matching question was never answered. */
  datatype BusinessContext<V> = BusinessContext(
    industry: Option<V>,
    businessModel: Option<V>,
    companySize: Option<V>,
    yearsInOperation: Option<V>,
    geographicScope: Option<V>,
    primaryChallenges: Option<V>,
    marketingMaturity: Option<V>,
    marketingBudget: Option<V>,
    timeAvailability: Option<V>,
    businessGoals: Option<V>)

  /** The response keys the ten fields are read from, in field order. */
  const CONTEXT_KEYS: seq<string> := [
    "industry", "business-model", "company-size", "years-in-operation",
    "geographic-scope", "primary-challenges", "marketing-maturity",
    "marketing-budget", "time-availability", "business-goals"]

  /** `responses[key]`: the stored answer, or undefined. */
  function Lookup<V>(responses: map<string, V>, key: string): Option<V> {
    if key in responses then Some(responses[key]) else None
  }

  /** The `businessContext` object: the `i`-th field is the answer stored under the
      `i`-th of `CONTEXT_KEYS`, or undefined when there is none. */
  function BusinessContextOf<V>(responses: map<string, V>): (r: BusinessContext<V>)
    ensures forall i | 0 <= i < 10 :: ContextField(r, i) == Lookup(responses, CONTEXT_KEYS[i])
  {
    BusinessContext(
      Lookup(responses, "industry"),
      Lookup(responses, "business-model"),
      Lookup(responses, "company-size"),
      Lookup(responses, "years-in-operation"),
      Lookup(responses, "geographic-scope"),
      Lookup(responses, "primary-challenges"),
      Lookup(responses, "marketing-maturity"),
      Lookup(responses, "marketing-budget"),
      Lookup(responses, "time-availability"),
      Lookup(responses, "business-goals"))
  }

  /** The `i`-th field of a context, in declaration order. */
  function ContextField<V>(c: BusinessContext<V>, i: nat): Option<V>
    requires i < 10
  {
    match i
    case 0 => c.industry
    case 1 => c.businessModel
    case 2 => c.companySize
    case 3 => c.yearsInOperation
    case 4 => c.geographicScope
    case 5 => c.primaryChallenges
    case 6 => c.marketingMaturity
    case 7 => c.marketingBudget
    case 8 => c.timeAvailability
    case 9 => c.businessGoals
  }

  /** Two contexts with the same ten fields are the same context. */
  lemma ContextExtensional<V>(c: BusinessContext<V>, d: BusinessContext<V>)
    requires forall i | 0 <= i < 10 :: ContextField(c, i) == ContextField(d, i)
    ensures c == d
  {
    assert ContextField(c, 0) == ContextField(d, 0);
    assert ContextField(c, 1) == ContextField(d, 1);
    assert ContextField(c, 2) == ContextField(d, 2);
    assert ContextField(c, 3) == ContextField(d, 3);
    assert ContextField(c, 4) == ContextField(d, 4);
    assert ContextField(c, 5) == ContextField(d, 5);
    assert ContextField(c, 6) == ContextField(d, 6);
    assert ContextField(c, 7) == ContextField(d, 7);
    assert ContextField(c, 8) == ContextField(d, 8);
    assert ContextField(c, 9) == ContextField(d, 9);
  }

  /** Each field is read from exactly one response key, the `i`-th of
      `CONTEXT_KEYS`, and the ten keys are different. */
  lemma ContextFieldFromKey<V>(responses: map<string, V>, i: nat)
    requires i < 10
    ensures |CONTEXT_KEYS| == 10 && Distinct(CONTEXT_KEYS)
    ensures ContextField(BusinessContextOf(responses), i) == Lookup(responses, CONTEXT_KEYS[i])
  {
  }

  /** The context depends on the ten keys only: two response records that
      agree on them give the same context. */
  lemma ContextDependsOnlyOnKeys<V>(r1: map<string, V>, r2: map<string, V>)
    requires forall key | key in CONTEXT_KEYS :: Lookup(r1, key) == Lookup(r2, key)
    ensures BusinessContextOf(r1) == BusinessContextOf(r2)
  {
    forall i | 0 <= i < 10
      ensures ContextField(BusinessContextOf(r1), i) == ContextField(BusinessContextOf(r2), i)
    {
      ContextFieldFromKey(r1, i);
      ContextFieldFromKey(r2, i);
      assert CONTEXT_KEYS[i] in CONTEXT_KEYS;
    }
    ContextExtensional(BusinessContextOf(r1), BusinessContextOf(r2));
  }

  /** Answering a question outside the ten leaves the context as it was. */
  lemma ContextIgnoresOtherKeys<V>(responses: map<string, V>, key: string, value: V)
    requires key !in CONTEXT_KEYS
    ensures BusinessContextOf(responses[key := value]) == BusinessContextOf(responses)
  {
    forall k | k in CONTEXT_KEYS
      ensures Lookup(responses[key := value], k) == Lookup(responses, k)
    {
      assert k != key;
    }
    ContextDependsOnlyOnKeys(responses[key := value], responses);
  }

  /** Answering the `i`-th context question sets the `i`-th field and no
      other. */
  lemma ContextUpdateSetsOneField<V>(responses: map<string, V>, i: nat, value: V, j: nat)
    requires i < 10 && j < 10
    ensures ContextField(BusinessContextOf(responses[CONTEXT_KEYS[i] := value]), j)
         == if j == i then Some(value) else ContextField(BusinessContextOf(responses), j)
  {
    ContextFieldFromKey(responses[CONTEXT_KEYS[i] := value], j);
    ContextFieldFromKey(responses, j);
    if j != i {
      assert CONTEXT_KEYS[j] != CONTEXT_KEYS[i];
    }
  }

  // ---------------------------------------------------------------------
  // Navigation and completed squares
  // ---------------------------------------------------------------------

  /** The index after "next": one further, except at the last question. */
  function NextIndex(index: int, count: int): (r: int)
    requires 0 <= index < count
    ensures 0 <= r < count
    ensures r == index <==> index == count - 1
    ensures r != index ==> r == index + 1
  {
    if index < count - 1 then index + 1 else index
  }

  /** The index after "previous": one back, except at the first question. */
  function PrevIndex(index: int): (r: int)
    requires 0 <= index
    ensures 0 <= r <= index
    ensures r == index <==> index == 0
    ensures r != index ==> r == index - 1
  {
    if index > 0 then index - 1 else index
  }

  /** "previous" undoes "next" wherever "next" moves, and the other way round. */
  lemma NavigationRoundTrip(index: int, count: int)
    requires 0 <= index < count
    ensures index < count - 1 ==> PrevIndex(NextIndex(index, count)) == index
    ensures 0 < index ==> NextIndex(PrevIndex(index), count) == index
  {
  }

  /** The list of completed squares with `square` recorded: unchanged when it
      is already there, otherwise extended by it at the end. */
  function WithSquare(prev: seq<int>, square: int): (r: seq<int>)
    ensures square in r
    ensures forall x :: x in r <==> x in prev || x == square
    ensures prev <= r
    ensures r == prev <==> square in prev
    ensures |r| <= |prev| + 1
    ensures Distinct(prev) ==> Distinct(r)
  {
    if square in prev then prev else prev + [square]
  }

  /** Recording a square twice is the same as recording it once. */
  lemma WithSquareIdempotent(prev: seq<int>, square: int)
    ensures WithSquare(WithSquare(prev, square), square) == WithSquare(prev, square)
  {
  }

  /** True when the question after `index` exists and lies in another square,
      i.e. when "next" leaves the current square behind. */
  predicate LeavesSquare(questions: seq<Question>, index: int): (r: bool)
    requires 0 <= index < |questions|
    ensures r <==> NextIndex(index, |questions|) != index
                   && questions[NextIndex(index, |questions|)].square != questions[index].square
  {
    index + 1 < |questions| && questions[index + 1].square != questions[index].square
  }

  /** The completed squares after "next" at `index`. */
  function CompletedAfterNext(prev: seq<int>, questions: seq<Question>, index: int): (r: seq<int>)
    requires 0 <= index < |questions|
    ensures prev <= r
    ensures r != prev ==> r == prev + [questions[index].square]
    ensures r != prev <==> LeavesSquare(questions, index) && questions[index].square !in prev
    ensures index == |questions| - 1 ==> r == prev
    ensures Distinct(prev) ==> Distinct(r)
  {
    if LeavesSquare(questions, index) then WithSquare(prev, questions[index].square) else prev
  }

  /** After "next" leaves a square, that square is among the completed ones. */
  lemma LeftSquareIsCompleted(prev: seq<int>, questions: seq<Question>, index: int)
    requires 0 <= index < |questions| && LeavesSquare(questions, index)
    ensures questions[index].square in CompletedAfterNext(prev, questions, index)
  {
  }

  // ---------------------------------------------------------------------
  // Plan generation
  // ---------------------------------------------------------------------

  /** What the page asks of the outside world while generating a plan. */
  datatype Effect<V> =
    | CreatePlanRequest(businessContext: BusinessContext<V>, questionnaireResponses: map<string, V>)
    | GenerateRequest(url: string)
    | Navigate(path: string)
    | FailureAlert(message: string)

  const FAILURE_ALERT := "Failed to generate marketing plan. Please try again."

  /** The address of the generate request: the id sits between a fixed prefix of
      eleven characters and a fixed suffix of nine. */
  function GenerateUrl(planId: string): (r: string)
    ensures |r| == |planId| + 20 && r[11..11 + |planId|] == planId
  {
    "/api/plans/" + planId + "/generate"
  }

  /** The plan's page: the id after a fixed prefix of six characters. */
  function PlanPath(planId: string): (r: string)
    ensures |r| == |planId| + 6 && r[6..] == planId
  {
    "/plan/" + planId
  }

  /** The effects of one plan generation, from the answers so far and what the
      server answers: `created` is the new plan's id when the create request
      returned a success status and a JSON body, and `generated` says whether
      the generate request returned a success status and a JSON body. Every
      failure leads to the same alert. A run always starts with the create
      request, carrying the business context of the answers and the answers
      themselves, and always ends in exactly one of a navigation or the failure
      alert, with only the generate request in between. */
  function PlanRun<V>(responses: map<string, V>, created: Option<string>, generated: bool): (run: seq<Effect<V>>)
    ensures 2 <= |run| <= 3
    ensures run[0] == CreatePlanRequest(BusinessContextOf(responses), responses)
    ensures run[|run| - 1].Navigate? || run[|run| - 1] == FailureAlert(FAILURE_ALERT)
    ensures forall i | 0 < i < |run| - 1 :: run[i].GenerateRequest?
  {
    var create := [CreatePlanRequest(BusinessContextOf(responses), responses)];
    match created
    case None => create + [FailureAlert(FAILURE_ALERT)]
    case Some(id) =>
      create + [GenerateRequest(GenerateUrl(id))]
        + (if generated then [Navigate(PlanPath(id))] else [FailureAlert(FAILURE_ALERT)])
  }

  /** The generate request is sent only for a created plan, for that plan's
      id, and only after the create request. */
  lemma GenerateOnlyAfterCreate<V>(responses: map<string, V>, created: Option<string>, generated: bool, i: int)
    requires 0 <= i < |PlanRun(responses, created, generated)|
    requires PlanRun(responses, created, generated)[i].GenerateRequest?
    ensures created.Some?
    ensures PlanRun(responses, created, generated)[i] == GenerateRequest(GenerateUrl(created.value))
    ensures 0 < i && PlanRun(responses, created, generated)[0].CreatePlanRequest?
  {
  }

  /** The page navigates to the plan's page exactly when both requests
      succeed, and then to the page of the plan it created. */
  lemma NavigatesIffBothSucceed<V>(responses: map<string, V>, created: Option<string>, generated: bool)
    ensures var run := PlanRun(responses, created, generated);
      (exists i | 0 <= i < |run| :: run[i].Navigate?) <==> created.Some? && generated
    ensures var run := PlanRun(responses, created, generated);
      forall i | 0 <= i < |run| && run[i].Navigate? :: created.Some? && run[i].path == PlanPath(created.value)
  {
    var run := PlanRun(responses, created, generated);
    if created.Some? && generated {
      assert run[2].Navigate?;
    }
  }

  /** The alert is shown exactly when some step fails. */
  lemma AlertsIffSomeStepFails<V>(responses: map<string, V>, created: Option<string>, generated: bool)
    ensures var run := PlanRun(responses, created, generated);
      (exists i | 0 <= i < |run| :: run[i].FailureAlert?) <==> !(created.Some? && generated)
  {
    var run := PlanRun(responses, created, generated);
    if created.None? {
      assert run[1].FailureAlert?;
    } else if !generated {
      assert run[2].FailureAlert?;
    }
  }

  /** Different plans are generated through different addresses. */
  lemma GenerateUrlInjective(a: string, b: string)
    requires GenerateUrl(a) == GenerateUrl(b)
    ensures a == b
  {
    var prefix := "/api/plans/";
    assert |a| == |b|;
    assert a == GenerateUrl(a)[|prefix|..|prefix| + |a|];
    assert b == GenerateUrl(b)[|prefix|..|prefix| + |b|];
  }

  /** Different plans are shown on different pages. */
  lemma PlanPathInjective(a: string, b: string)
    requires PlanPath(a) == PlanPath(b)
    ensures a == b
  {
    assert a == PlanPath(a)[6..];
    assert b == PlanPath(b)[6..];
  }

  // ---------------------------------------------------------------------
  // The page
  // ---------------------------------------------------------------------

  class QuestionnairePage<V> {
    /** The business-context questions followed by the nine squares' ones. */
    const questions: seq<Question>
    var currentQuestionIndex: int
    var currentSquare: int
    var responses: map<string, V>
    var completedSquares: seq<int>
    var isGenerating: bool
    /** Requests, navigations and alerts issued so far, oldest first. */
    var effects: seq<Effect<V>>

    ghost predicate Valid()
      reads this
    {
      && |questions| > 0
      && 0 <= currentQuestionIndex < |questions|
      && Distinct(completedSquares)
      && !isGenerating
    }

    /** The page as first rendered: the first question, no square yet. */
    constructor(questions: seq<Question>)
      requires |questions| > 0
      ensures Valid()
      ensures this.questions == questions
      ensures currentQuestionIndex == 0 && currentSquare == 0
      ensures responses == map[] && completedSquares == []
      ensures !isGenerating && effects == []
    {
      this.questions := questions;
      currentQuestionIndex := 0;
      currentSquare := 0;
      responses := map[];
      completedSquares := [];
      isGenerating := false;
      effects := [];
    }

    /** The effect that follows the current question: the current square
        becomes the square of the question shown. */
    method SyncCurrentSquare()
      requires Valid()
      modifies this
      ensures Valid()
      ensures currentSquare == questions[currentQuestionIndex].square
      ensures currentQuestionIndex == old(currentQuestionIndex)
      ensures responses == old(responses) && completedSquares == old(completedSquares)
      ensures isGenerating == old(isGenerating) && effects == old(effects)
    {
      currentSquare := questions[currentQuestionIndex].square;
    }

    /** Records `value` as the answer to the current question. */
    method HandleResponseChange(value: V)
      requires Valid()
      modifies this
      ensures Valid()
      ensures responses == old(responses)[questions[currentQuestionIndex].id := value]
      ensures forall key | key != questions[currentQuestionIndex].id ::
        (key in responses <==> key in old(responses))
        && (key in responses ==> responses[key] == old(responses)[key])
      ensures currentQuestionIndex == old(currentQuestionIndex) && currentSquare == old(currentSquare)
      ensures completedSquares == old(completedSquares)
      ensures isGenerating == old(isGenerating) && effects == old(effects)
    {
      responses := responses[questions[currentQuestionIndex].id := value];
    }

    /** Goes back one question, if there is one. */
    method HandlePrev()
      requires Valid()
      modifies this
      ensures Valid()
      ensures currentQuestionIndex == PrevIndex(old(currentQuestionIndex))
      ensures currentSquare == old(currentSquare) && responses == old(responses)
      ensures completedSquares == old(completedSquares)
      ensures isGenerating == old(isGenerating) && effects == old(effects)
    {
      if currentQuestionIndex > 0 {
        currentQuestionIndex := currentQuestionIndex - 1;
      }
    }

    /** Marks the current square completed when the next question lies in
        another one, then moves on; at the last question it generates the
        plan instead, with `created` and `generated` the server's answers. */
    method HandleNext(created: Option<string>, generated: bool)
      requires Valid()
      modifies this
      ensures Valid()
      ensures currentQuestionIndex == NextIndex(old(currentQuestionIndex), |questions|)
      ensures completedSquares == CompletedAfterNext(old(completedSquares), questions, old(currentQuestionIndex))
      ensures effects == old(effects)
        + if old(currentQuestionIndex) == |questions| - 1 then PlanRun(old(responses), created, generated) else []
      ensures currentSquare == old(currentSquare) && responses == old(responses)
    {
      completedSquares := CompletedAfterNext(completedSquares, questions, currentQuestionIndex);
      if currentQuestionIndex < |questions| - 1 {
        currentQuestionIndex := currentQuestionIndex + 1;
      } else {
        GenerateMarketingPlan(created, generated);
      }
    }

    /** Sends the plan to be created and generated, then either navigates to
        it or shows the failure alert; the generating flag is raised for the
        duration and lowered in every outcome. */
    method GenerateMarketingPlan(created: Option<string>, generated: bool)
      modifies this
      ensures effects == old(effects) + PlanRun(old(responses), created, generated)
      ensures !isGenerating
      ensures currentQuestionIndex == old(currentQuestionIndex) && currentSquare == old(currentSquare)
      ensures responses == old(responses) && completedSquares == old(completedSquares)
    {
      isGenerating := true;
      effects := effects + [CreatePlanRequest(BusinessContextOf(responses), responses)];
      match created {
        case None =>
          effects := effects + [FailureAlert(FAILURE_ALERT)];
        case Some(id) =>
          effects := effects + [GenerateRequest(GenerateUrl(id))];
          if generated {
            effects := effects + [Navigate(PlanPath(id))];
          } else {
            effects := effects + [FailureAlert(FAILURE_ALERT)];
          }
      }
      isGenerating := false;
    }
  }
}
