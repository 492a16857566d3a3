/**
 * The chat of the onboarding assistant step (`AIAssistantStep` in
 * src/components/onboarding/Steps.tsx). Submitting a question appends it at once; a timer later
 * appends the canned answer chosen by keyword. The timer is modelled as a second transition,
 * `DeliverReply`, that receives the question the first one scheduled.
 */
module AssistantStep {
  import opened Wrappers
  import opened Text

  /** One entry of `botResponses`. */
  datatype Line = Line(text: string, isBot: bool)

  /** The opening line, character for character as the source file holds it (a mis-decoded waving-hand emoji included). */
  const Greeting: string :=
    "\U{F0}\U{178}\U{2018}\U{2039} Hi there! I'm your AI financial assistant. What's your biggest financial worry right now?"

  const DebtReply: string :=
    "I understand debt can be stressful. Based on the information you've provided, I can help create a debt reduction plan that fits your budget. Would you like to prioritize high-interest debt first?"

  const SavingReply: string :=
    "Saving is a great goal! I've noticed you could potentially save an additional $250/month by optimizing your current expenses. Would you like to see where these savings could come from?"

  const InvestingReply: string :=
    "Investing is a smart way to grow your wealth. Based on your profile, I can suggest some investment strategies that match your risk tolerance and goals. Would you like to explore these options?"

  const BudgetReply: string :=
    "Creating a sustainable budget is key to financial success. I can help you set up a personalized budget based on the 50/30/20 rule: 50% for needs, 30% for wants, and 20% for savings and debt repayment. Does that sound like a good starting point?"

  const DefaultReply: string :=
    "Thanks for sharing that. I've made a note of your concern and will tailor my recommendations accordingly. As we get more data about your spending patterns, I'll be able to provide more personalized advice."

  /** Which canned answer a question gets. */
  datatype Topic = Debt | Saving | Investing | Budgeting | Other

  /** `input.toLowerCase().includes(word)`. */
  predicate Mentions(input: string, word: string) {
    Contains(Lower(input), word)
  }

  /**
   * The keyword chain, first match wins: "debt"; then "save" or "saving"; then "invest" or
   * "investing"; then "budget"; otherwise no topic.
   */
  function TopicOf(input: string): (topic: Topic)
    ensures topic == Debt <==> Mentions(input, "debt")
    ensures topic == Saving <==> !Mentions(input, "debt") && (Mentions(input, "save") || Mentions(input, "saving"))
    ensures topic == Investing <==>
      && !Mentions(input, "debt") && !Mentions(input, "save") && !Mentions(input, "saving")
      && (Mentions(input, "invest") || Mentions(input, "investing"))
    ensures topic == Budgeting <==>
      && !Mentions(input, "debt") && !Mentions(input, "save") && !Mentions(input, "saving")
      && !Mentions(input, "invest") && !Mentions(input, "investing") && Mentions(input, "budget")
  {
    if Mentions(input, "debt") then Debt
    else if Mentions(input, "save") || Mentions(input, "saving") then Saving
    else if Mentions(input, "invest") || Mentions(input, "investing") then Investing
    else if Mentions(input, "budget") then Budgeting
    else Other
  }

  function ReplyText(topic: Topic): string {
    match topic
    case Debt => DebtReply
    case Saving => SavingReply
    case Investing => InvestingReply
    case Budgeting => BudgetReply
    case Other => DefaultReply
  }

  /** Letter case does not change the answer. */
  lemma TopicIgnoresCase(input: string)
    ensures TopicOf(Lower(input)) == TopicOf(input)
  {
    LowerIdempotent(input);
  }

  /** The "investing" test never decides anything: whatever mentions "investing" mentions "invest". */
  lemma InvestingTestRedundant(input: string)
    ensures Mentions(input, "investing") ==> Mentions(input, "invest")
  {
    if Mentions(input, "investing") {
      assert "investing" == "invest" + "ing";
      ContainsPrefix(Lower(input), "invest", "ing");
    }
  }

  /** A question that names debt gets the debt answer, whatever else it mentions and however it is capitalised. */
  lemma DebtComesFirst(input: string)
    requires Contains(input, "debt")
    ensures TopicOf(input) == Debt
  {
    ContainsLower(input, "debt");
    assert Lower("debt") == "debt";
  }

  /** The assistant step's chat state: the draft in the input box and the conversation so far. */
  class AssistantChat {
    var userInput: string
    var botResponses: seq<Line>

    constructor ()
      ensures userInput == "" && botResponses == [Line(Greeting, true)]
    {
      userInput := "";
      botResponses := [Line(Greeting, true)];
    }

    /** Typing into the input box. */
    method SetInput(text: string)
      modifies this
      ensures userInput == text && botResponses == old(botResponses)
    {
      userInput := text;
    }

    /**
     * `handleSubmit`: a blank draft changes nothing and schedules nothing; otherwise the draft is
     * appended as the user's line, the box is cleared, and the answer to the draft is scheduled.
     */
    method HandleSubmit() returns (scheduled: Option<string>)
      modifies this
      ensures Trim(old(userInput)) == "" ==>
        scheduled == None && userInput == old(userInput) && botResponses == old(botResponses)
      ensures Trim(old(userInput)) != "" ==>
        && scheduled == Some(old(userInput))
        && userInput == ""
        && botResponses == old(botResponses) + [Line(old(userInput), false)]
    {
      if Trim(userInput) == "" {
        return None;
      }
      var input := userInput;
      botResponses := botResponses + [Line(input, false)];
      userInput := "";
      scheduled := Some(input);
    }

    /** The timer firing: exactly one bot line, the answer to `input`, is appended; the draft is untouched. */
    method DeliverReply(input: string)
      modifies this
      ensures botResponses == old(botResponses) + [Line(ReplyText(TopicOf(input)), true)]
      ensures userInput == old(userInput)
    {
      botResponses := botResponses + [Line(ReplyText(TopicOf(input)), true)];
    }
  }
}
