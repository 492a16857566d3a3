/**
 * What the two serverless functions (supabase/functions/ai-recommendations/index.ts and
 * supabase/functions/ai-chat/index.ts) share: the CORS headers, the response shape, the outcome
 * of the call to the language model, and the error body built from that outcome.
 */
module Endpoint {
  import opened Wrappers
  import opened Text
  import opened Json

  /** An HTTP response: status, JSON body (`null` when absent) and headers in insertion order. */
  datatype Response = Response(status: int, body: Option<Json>, headers: seq<(string, string)>)

  /**
   * The outcome of the completion call: the reply's `message.content` (`null` is `None`), a non-OK
   * status with the API's error message (if it sent one), or an exception with its message
   * (network failure, unreadable reply, no `choices[0]`).
   */
  datatype ModelOutcome = Completed(content: Option<string>) | Rejected(apiMessage: Option<string>) | Failed(message: string)

  const CorsHeaders: seq<(string, string)> :=
    [ ("Access-Control-Allow-Origin", "*"),
      ("Access-Control-Allow-Headers", "authorization, x-client-info, apikey, content-type") ]

  const JsonHeaders: seq<(string, string)> := CorsHeaders + [("Content-Type", "application/json")]

  /** The answer to a CORS preflight: no body, status 200, the CORS headers only. */
  const Preflight: Response := Response(200, None, CorsHeaders)

  /** `{ error: message }` */
  function ErrorBody(message: string): (body: Json)
    ensures Member(body, "error") == Some(JString(message))
  {
    JObject([("error", JString(message))])
  }

  /** The message thrown on a non-OK reply: the API's own message, or "Unknown error" when it is missing or empty. */
  function RejectionMessage(apiMessage: Option<string>): (message: string)
    ensures StartsWith(message, "OpenAI API error: ")
    ensures apiMessage.Some? && apiMessage.value != "" ==> message == "OpenAI API error: " + apiMessage.value
    ensures apiMessage.None? || apiMessage.value == "" ==> message == "OpenAI API error: Unknown error"
  {
    var detail := if apiMessage.None? || apiMessage.value == "" then "Unknown error" else apiMessage.value;
    var message := "OpenAI API error: " + detail;
    assert message[..|"OpenAI API error: "|] == "OpenAI API error: ";
    message
  }

  /** The 500 response of the `catch` block for a failed outcome. */
  function FailureResponse(outcome: ModelOutcome): (response: Response)
    requires !outcome.Completed?
    ensures response.status == 500 && response.headers == JsonHeaders
    ensures outcome.Rejected? ==> response.body == Some(ErrorBody(RejectionMessage(outcome.apiMessage)))
    ensures outcome.Failed? ==> response.body == Some(ErrorBody(outcome.message))
  {
    match outcome
    case Rejected(apiMessage) => Response(500, Some(ErrorBody(RejectionMessage(apiMessage))), JsonHeaders)
    case Failed(message) => Response(500, Some(ErrorBody(message)), JsonHeaders)
  }
}
