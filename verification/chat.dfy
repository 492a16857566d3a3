/**
 * The `ai-chat` serverless endpoint (supabase/functions/ai-chat/index.ts): the system prompt is
 * built from the user's financial context by successive appends, the model is asked, and the reply
 * is returned with a chart hint derived from the user's message. As for the recommendations
 * endpoint, handling is split into `Receive` (preflight, unreadable body, or the prompt) and
 * `Answer` (the model's outcome into a response).
 */
module Chat {
  import opened Wrappers
  import opened Text
  import opened Json
  import opened FinancialLines
  import opened Endpoint

  /**
   * `financialContext`. A missing context, or a missing list inside it, behaves as an empty list
   * (`undefined?.length > 0` is false), so both lists are plain sequences here.
   */
  datatype FinancialContext = FinancialContext(expenses: seq<ExpenseSummary>, goals: seq<GoalSummary>)

  /** What `await req.json()` gives: the message and context, or the error thrown. */
  datatype Payload = Decoded(message: string, context: FinancialContext) | Undecodable(error: string)

  datatype Request = Request(httpMethod: string, payload: Payload)

  /** Either an immediate response, or the system and user messages to send to the model. */
  datatype Stage = Respond(response: Response) | AskModel(systemPrompt: string, userMessage: string)

  const SystemIntro: string := "You are a helpful financial assistant that provides personalized advice."

  const ContextHeader: string := " Here is some context about the user's finances:\n\n"

  const ExpensesHeading: string := "Expenses:\n"

  const GoalsHeading: string := "Savings Goals:\n"

  const SectionEnd: string := "\n\n"

  const SystemOutro: string := "Provide helpful, personalized financial advice based on this information. Keep responses concise and actionable."

  /** `p` followed by the expenses section (heading, one line per expense, blank line), or `p` itself when there are none. */
  function WithExpenses(p: string, expenses: seq<ExpenseSummary>): string {
    if |expenses| > 0 then p + ExpensesHeading + (ExpenseLines(expenses) + SectionEnd) else p
  }

  /** `p` followed by the goals section (heading, one line per goal, blank line), or `p` itself when there are none. */
  function WithGoals(p: string, goals: seq<GoalSummary>): string {
    if |goals| > 0 then p + GoalsHeading + (GoalLines(goals) + SectionEnd) else p
  }

  /** `p` followed by the context: nothing without data, otherwise the header, the expenses and then the goals. */
  function WithContext(p: string, context: FinancialContext): string {
    if |context.expenses| > 0 || |context.goals| > 0 then
      WithGoals(WithExpenses(p + ContextHeader, context.expenses), context.goals)
    else p
  }

  /** The system prompt as the handler accumulates it, one `+=` at a time. */
  method ComposeSystemPrompt(context: FinancialContext) returns (systemPrompt: string)
    ensures systemPrompt == SystemPrompt(context)
  {
    systemPrompt := SystemIntro;
    if |context.expenses| > 0 || |context.goals| > 0 {
      systemPrompt := systemPrompt + ContextHeader;
      if |context.expenses| > 0 {
        systemPrompt := systemPrompt + ExpensesHeading;
        systemPrompt := systemPrompt + (ExpenseLines(context.expenses) + SectionEnd);
      }
      if |context.goals| > 0 {
        systemPrompt := systemPrompt + GoalsHeading;
        systemPrompt := systemPrompt + (GoalLines(context.goals) + SectionEnd);
      }
    }
    systemPrompt := systemPrompt + SystemOutro;
  }

  /** The system prompt: the opening sentence, the context, the closing sentence. */
  function SystemPrompt(context: FinancialContext): string {
    WithContext(SystemIntro, context) + SystemOutro
  }

  /** A section only ever adds to the end: after `p`, its heading, and nothing at all without items. */
  lemma ExpenseSectionShape(p: string, expenses: seq<ExpenseSummary>)
    ensures StartsWith(WithExpenses(p, expenses), p)
    ensures |expenses| == 0 ==> WithExpenses(p, expenses) == p
    ensures |expenses| > 0 ==> OccursAt(WithExpenses(p, expenses), ExpensesHeading, |p|)
  {
    if |expenses| > 0 {
      var h := p + ExpensesHeading;
      Appended(h, ExpenseLines(expenses) + SectionEnd);
      Appended(p, ExpensesHeading);
      StartsWithTransitive(p, h, WithExpenses(p, expenses));
      OccursKept(h, WithExpenses(p, expenses), ExpensesHeading, |p|);
    }
  }

  lemma GoalSectionShape(p: string, goals: seq<GoalSummary>)
    ensures StartsWith(WithGoals(p, goals), p)
    ensures |goals| == 0 ==> WithGoals(p, goals) == p
    ensures |goals| > 0 ==> OccursAt(WithGoals(p, goals), GoalsHeading, |p|)
  {
    if |goals| > 0 {
      var h := p + GoalsHeading;
      Appended(h, GoalLines(goals) + SectionEnd);
      Appended(p, GoalsHeading);
      StartsWithTransitive(p, h, WithGoals(p, goals));
      OccursKept(h, WithGoals(p, goals), GoalsHeading, |p|);
    }
  }

  /** The context only adds to the end: nothing without data, otherwise starting with the context header. */
  lemma ContextShape(p: string, context: FinancialContext)
    ensures StartsWith(WithContext(p, context), p)
    ensures |context.expenses| == 0 && |context.goals| == 0 ==> WithContext(p, context) == p
    ensures |context.expenses| > 0 || |context.goals| > 0 ==> OccursAt(WithContext(p, context), ContextHeader, |p|)
  {
    if |context.expenses| > 0 || |context.goals| > 0 {
      var h := p + ContextHeader;
      var e := WithExpenses(h, context.expenses);
      var r := WithGoals(e, context.goals);
      Appended(p, ContextHeader);
      ExpenseSectionShape(h, context.expenses);
      GoalSectionShape(e, context.goals);
      StartsWithTransitive(h, e, r);
      StartsWithTransitive(p, h, r);
      OccursKept(h, r, ContextHeader, |p|);
    }
  }

  lemma ContextHeaderNonEmpty()
    ensures |ContextHeader| > 0
  {
  }

  /**
   * The prompt always opens with the assistant sentence and closes with the advice sentence;
   * it is just those two exactly when there is no data.
   */
  lemma SystemPromptFrame(context: FinancialContext)
    ensures StartsWith(SystemPrompt(context), SystemIntro)
    ensures EndsWith(SystemPrompt(context), SystemOutro)
    ensures SystemPrompt(context) == SystemIntro + SystemOutro <==> |context.expenses| == 0 && |context.goals| == 0
  {
    var body := WithContext(SystemIntro, context);
    ContextShape(SystemIntro, context);
    Appended(body, SystemOutro);
    StartsWithTransitive(SystemIntro, body, body + SystemOutro);
    if body + SystemOutro == SystemIntro + SystemOutro {
      assert body == (body + SystemOutro)[..|body|];
      ContextHeaderNonEmpty();
    }
  }

  /**
   * With data, the context header follows the opening sentence; the expenses heading (when there
   * are expenses) comes right after it, and the goals heading (when there are goals) right after
   * the expenses section, so expenses always precede goals.
   */
  lemma SectionsInOrder(context: FinancialContext)
    requires |context.expenses| > 0 || |context.goals| > 0
    ensures OccursAt(SystemPrompt(context), ContextHeader, |SystemIntro|)
    ensures |context.expenses| > 0 ==>
      OccursAt(SystemPrompt(context), ExpensesHeading, |SystemIntro + ContextHeader|)
    ensures |context.goals| > 0 ==>
      OccursAt(SystemPrompt(context), GoalsHeading, |WithExpenses(SystemIntro + ContextHeader, context.expenses)|)
    ensures |WithExpenses(SystemIntro + ContextHeader, context.expenses)|
      >= |SystemIntro + ContextHeader| + (if |context.expenses| > 0 then |ExpensesHeading| else 0)
  {
    var q := SystemIntro + ContextHeader;
    var e := WithExpenses(q, context.expenses);
    var r := WithGoals(e, context.goals);
    var full := r + SystemOutro;
    assert WithContext(SystemIntro, context) == r;
    assert SystemPrompt(context) == full;
    Appended(SystemIntro, ContextHeader);
    ExpenseSectionShape(q, context.expenses);
    GoalSectionShape(e, context.goals);
    Appended(r, SystemOutro);
    StartsWithTransitive(e, r, full);
    StartsWithTransitive(q, e, full);
    OccursKept(q, full, ContextHeader, |SystemIntro|);
    if |context.expenses| > 0 {
      OccursKept(e, full, ExpensesHeading, |q|);
    }
    if |context.goals| > 0 {
      OccursKept(r, full, GoalsHeading, |e|);
    }
  }

  /** `message.toLowerCase().includes('spending') || message.toLowerCase().includes('budget')`. */
  predicate AsksForChart(message: string) {
    Contains(Lower(message), "spending") || Contains(Lower(message), "budget")
  }

  /** The `chart` field of the reply: `"pie"` when the message mentions spending or a budget, otherwise `null`. */
  function ChartHint(message: string): (chart: Json)
    ensures chart == JString("pie") <==> AsksForChart(message)
    ensures chart != JString("pie") ==> chart == JNull
  {
    if AsksForChart(message) then JString("pie") else JNull
  }

  /** The hint ignores letter case, and any message containing "spending" or "budget" as written gets the pie. */
  lemma ChartHintCaseInsensitive(message: string)
    ensures ChartHint(Lower(message)) == ChartHint(message)
    ensures Contains(message, "spending") || Contains(message, "budget") ==> ChartHint(message) == JString("pie")
  {
    LowerIdempotent(message);
    if Contains(message, "spending") {
      ContainsLower(message, "spending");
      assert Lower("spending") == "spending";
    }
    if Contains(message, "budget") {
      ContainsLower(message, "budget");
      assert Lower("budget") == "budget";
    }
  }

  /** First stage: a preflight is answered at once; an unreadable body is a 500; otherwise ask the model. */
  method Receive(request: Request) returns (stage: Stage)
    ensures request.httpMethod == "OPTIONS" ==> stage == Respond(Preflight)
    ensures request.httpMethod != "OPTIONS" && request.payload.Undecodable? ==>
      stage == Respond(Response(500, Some(ErrorBody(request.payload.error)), JsonHeaders))
    ensures request.httpMethod != "OPTIONS" && request.payload.Decoded? ==>
      stage == AskModel(SystemPrompt(request.payload.context), request.payload.message)
  {
    if request.httpMethod == "OPTIONS" {
      return Respond(Preflight);
    }
    match request.payload
    case Undecodable(error) =>
      stage := Respond(Response(500, Some(ErrorBody(error)), JsonHeaders));
    case Decoded(message, context) =>
      var systemPrompt := ComposeSystemPrompt(context);
      stage := AskModel(systemPrompt, message);
  }

  /** `{ response, chart }` for a completed call; a `null` reply text stays `null`. */
  function ReplyBody(content: Option<string>, message: string): (body: Json)
    ensures content.Some? ==> Member(body, "response") == Some(JString(content.value))
    ensures content.None? ==> Member(body, "response") == Some(JNull)
    ensures Member(body, "chart") == Some(ChartHint(message))
  {
    var text := if content.Some? then JString(content.value) else JNull;
    var fields := [("response", text), ("chart", ChartHint(message))];
    assert fields[..|fields| - 1] == [("response", text)];
    assert Lookup(fields[..|fields| - 1], "response") == Some(text);
    assert fields[|fields| - 1].0 != "response" by { assert |"chart"| != |"response"|; }
    JObject(fields)
  }

  /** Second stage: a completed call is a 200 with the reply and chart hint; any failure is a 500 with `{error}`. */
  function Answer(outcome: ModelOutcome, message: string): (response: Response)
    ensures response.status == 200 <==> outcome.Completed?
    ensures response.status == 500 <==> !outcome.Completed?
    ensures outcome.Completed? ==> response.body == Some(ReplyBody(outcome.content, message))
    ensures !outcome.Completed? ==> response == FailureResponse(outcome)
    ensures response.headers == JsonHeaders
  {
    match outcome
    case Completed(content) => Response(200, Some(ReplyBody(content, message)), JsonHeaders)
    case _ => FailureResponse(outcome)
  }
}
