/**
 * The `ai-recommendations` serverless endpoint (supabase/functions/ai-recommendations/index.ts).
 * A request is handled in two stages: `Receive` either answers at once (CORS preflight, an
 * unreadable body) or produces the prompt for the language model; `Answer` turns the model's
 * outcome into the HTTP response. The HTTP call itself, the API key and logging are not modelled.
 */
module Recommendations {
  import opened Wrappers
  import opened Text
  import opened Numbers
  import opened Json
  import opened FinancialLines
  import opened Endpoint

  /** The request body's `userData`. */
  datatype UserData = UserData(expenses: seq<ExpenseSummary>, goals: seq<GoalSummary>)

  /** What `await req.json()` and the destructuring of `userData` give: the data, or the error thrown. */
  datatype Payload = Decoded(userData: UserData) | Undecodable(message: string)

  datatype Request = Request(httpMethod: string, payload: Payload)

  /** Either an immediate response, or the prompt to send to the model. */
  datatype Stage = Respond(response: Response) | AskModel(prompt: string)

  const PromptIntro: string := "\n    I have a user with the following financial information:\n    \n    Expenses:\n    "

  const PromptMiddle: string := "\n    \n    Savings Goals:\n    "

  const PromptOutro: string :=
    "\n    \n    Based on this information, provide the following in JSON format:\n"
    + "    1. Top 3-4 personalized financial recommendations to help them save money\n"
    + "    2. Analysis of their spending patterns\n"
    + "    3. A strategy for reaching their savings goals faster\n"
    + "    \n"
    + "    Format the response as a JSON object with the following structure:\n"
    + "    {\n"
    + "      \"recommendations\": [\n"
    + "        { \"title\": \"string\", \"description\": \"string\", \"savings\": \"string\", \"icon\": \"string\" }\n"
    + "      ],\n"
    + "      \"analysis\": \"string\",\n"
    + "      \"savingsStrategy\": \"string\"\n"
    + "    }\n"
    + "    \n"
    + "    For the icon field, use one of: \"Trash\", \"Repeat\", \"CreditCard\", \"Calendar\", \"ShoppingBag\", \"Smartphone\", \"Utensils\"\n"
    + "    "

  /**
   * The user prompt: the fixed introduction, the expense lines, the goal heading, the goal lines
   * and the fixed instructions, in that order.
   */
  function Prompt(data: UserData): string {
    PromptIntro + ExpenseLines(data.expenses) + PromptMiddle + GoalLines(data.goals) + PromptOutro
  }

  /** The prompt opens with the introduction, the expense lines, the goal heading and the goal lines, and closes with the instructions. */
  lemma PromptShape(data: UserData)
    ensures StartsWith(Prompt(data), PromptIntro + ExpenseLines(data.expenses) + PromptMiddle + GoalLines(data.goals))
    ensures EndsWith(Prompt(data), PromptOutro)
  {
    Appended(PromptIntro + ExpenseLines(data.expenses) + PromptMiddle + GoalLines(data.goals), PromptOutro);
  }

  /** The index of the last `c` in `s`, if any. */
  function LastIndexOf(s: string, c: char): (r: Option<nat>)
    ensures r.Some? ==> r.value < |s| && s[r.value] == c && c !in s[r.value + 1..]
    ensures r.None? ==> c !in s
  {
    if s == [] then None
    else if s[|s| - 1] == c then Some(|s| - 1)
    else
      var r := LastIndexOf(s[..|s| - 1], c);
      assert r.Some? ==> s[r.value + 1..] == s[..|s| - 1][r.value + 1..] + [s[|s| - 1]];
      r
  }

  /** Some `{` comes before some `}` in `s`. */
  predicate HasBracePair(s: string) {
    exists i, j :: 0 <= i < j < |s| && s[i] == '{' && s[j] == '}'
  }

  /**
   * `aiResponse.match(/\{[\s\S]*\}/)`: the greedy match runs from the first `{` to the last `}`.
   * There is a match exactly when some `{` precedes some `}`; it is a piece of the reply that
   * starts with `{`, ends with `}`, has no `{` before it and no `}` after it.
   */
  function ExtractSpan(reply: string): (span: Option<string>)
    ensures span.Some? <==> HasBracePair(reply)
    ensures span.Some? ==> |span.value| >= 2 && span.value[0] == '{' && span.value[|span.value| - 1] == '}'
    ensures span.Some? ==> exists i :: (
      && 0 <= i && i + |span.value| <= |reply|
      && reply[i..i + |span.value|] == span.value
      && '{' !in reply[..i] && '}' !in reply[i + |span.value|..])
  {
    match (IndexOf(reply, '{'), LastIndexOf(reply, '}'))
    case (Some(i), Some(j)) =>
      if i < j then
        var span := reply[i..j + 1];
        assert reply[i..i + |span|] == span;
        Some(span)
      else
        assert !HasBracePair(reply) by {
          forall a, b | 0 <= a < b < |reply| ensures !(reply[a] == '{' && reply[b] == '}') {
            if reply[a] == '{' && reply[b] == '}' {
              if a < i { assert false; }
              if b > j { assert false; }
            }
          }
        }
        None
    case (None, _) =>
      assert !HasBracePair(reply) by {
        forall a | 0 <= a < |reply| ensures reply[a] != '{' { assert reply[a] in reply; }
      }
      None
    case (_, None) =>
      assert !HasBracePair(reply) by {
        forall b | 0 <= b < |reply| ensures reply[b] != '}' { assert reply[b] in reply; }
      }
      None
  }

  const FallbackDescription: string := "Based on your expenses, we recommend reviewing your monthly budget."

  const FallbackAnalysis: string := "We couldn't analyze your spending patterns in detail. Please provide more information."

  const FallbackStrategy: string := "Start by setting aside a small amount each month toward your savings goals."

  /** The single recommendation of the fallback reply. */
  function FallbackRecommendation(): Json {
    JObject([
      ("title", JString("Review Your Budget")),
      ("description", JString(FallbackDescription)),
      ("savings", JString("Varies")),
      ("icon", JString("CreditCard"))
    ])
  }

  /** The fixed reply used whenever the model's text yields no JSON object. */
  function Fallback(): Json {
    JObject([
      ("recommendations", JArray([FallbackRecommendation()])),
      ("analysis", JString(FallbackAnalysis)),
      ("savingsStrategy", JString(FallbackStrategy))
    ])
  }

  /**
   * The response body for the model's reply `content`: the extracted span as decoded by `parse`
   * (`JSON.parse`), or the fallback when there is no span or it does not decode. No shape check
   * is applied to a decoded value.
   */
  function ReplyBody(content: string, parse: string -> Option<Json>): (body: Json)
    ensures !HasBracePair(content) ==> body == Fallback()
    ensures ExtractSpan(content).Some? && parse(ExtractSpan(content).value).Some? ==>
      body == parse(ExtractSpan(content).value).value
    ensures ExtractSpan(content).Some? && parse(ExtractSpan(content).value).None? ==> body == Fallback()
  {
    match ExtractSpan(content)
    case None => Fallback()
    case Some(span) => parse(span).GetOr(Fallback())
  }

  /** A reply whose span the decoder cannot read (or that has no span) gives the fallback. */
  lemma UnparsableGivesFallback(content: string, parse: string -> Option<Json>)
    requires ExtractSpan(content).Some? ==> parse(ExtractSpan(content).value).None?
    ensures ReplyBody(content, parse) == Fallback()
  {
  }

  /** The fallback's `recommendations` member is an array holding exactly the one fallback recommendation. */
  lemma FallbackShape()
    ensures Member(Fallback(), "recommendations") == Some(JArray([FallbackRecommendation()]))
  {
    var outer := Fallback().fields;
    assert Lookup(outer[..1], "recommendations") == Some(JArray([FallbackRecommendation()]));
    assert outer[..2][..1] == outer[..1];
    assert outer[..|outer| - 1] == outer[..2];
  }

  /** The fallback recommendation is titled "Review Your Budget" and uses the "CreditCard" icon. */
  lemma FallbackRecommendationShape()
    ensures Member(FallbackRecommendation(), "title") == Some(JString("Review Your Budget"))
    ensures Member(FallbackRecommendation(), "icon") == Some(JString("CreditCard"))
  {
    var fields := FallbackRecommendation().fields;
    assert Lookup(fields[..1], "title") == Some(JString("Review Your Budget"));
    assert fields[..2][..1] == fields[..1];
    assert fields[..3][..2] == fields[..2];
    assert fields[..3] == fields[..|fields| - 1];
  }

  /** First stage: a preflight is answered at once with the CORS headers; an unreadable body is a 500. */
  function Receive(request: Request): (stage: Stage)
    ensures request.httpMethod == "OPTIONS" ==> stage == Respond(Response(200, None, CorsHeaders))
    ensures request.httpMethod != "OPTIONS" && request.payload.Undecodable? ==>
      stage == Respond(Response(500, Some(ErrorBody(request.payload.message)), JsonHeaders))
    ensures request.httpMethod != "OPTIONS" && request.payload.Decoded? ==>
      stage == AskModel(Prompt(request.payload.userData))
  {
    if request.httpMethod == "OPTIONS" then Respond(Preflight)
    else match request.payload
      case Undecodable(message) => Respond(Response(500, Some(ErrorBody(message)), JsonHeaders))
      case Decoded(data) => AskModel(Prompt(data))
  }

  /**
   * Second stage: a completed call is a 200 with the reply body; a `null` reply text makes
   * `aiResponse.match` throw inside the inner `try`, so that too is the fallback. Any failure of the
   * call itself is a 500 with `{error}`.
   */
  function Answer(outcome: ModelOutcome, parse: string -> Option<Json>): (response: Response)
    ensures response.status == 200 <==> outcome.Completed?
    ensures response.status == 500 <==> !outcome.Completed?
    ensures outcome.Completed? && outcome.content.Some? ==> response.body == Some(ReplyBody(outcome.content.value, parse))
    ensures outcome.Completed? && outcome.content.None? ==> response.body == Some(Fallback())
    ensures outcome.Rejected? ==> response.body == Some(ErrorBody(RejectionMessage(outcome.apiMessage)))
    ensures outcome.Failed? ==> response.body == Some(ErrorBody(outcome.message))
    ensures response.headers == JsonHeaders
  {
    match outcome
    case Completed(None) => Response(200, Some(Fallback()), JsonHeaders)
    case Completed(Some(content)) => Response(200, Some(ReplyBody(content, parse)), JsonHeaders)
    case _ => FailureResponse(outcome)
  }

  /** Every response, preflight or not, carries the CORS headers. */
  lemma ResponsesCarryCors(request: Request, outcome: ModelOutcome, parse: string -> Option<Json>)
    ensures Receive(request).Respond? ==> Receive(request).response.headers[..|CorsHeaders|] == CorsHeaders
    ensures Answer(outcome, parse).headers[..|CorsHeaders|] == CorsHeaders
  {
  }
}
