/**
 * The dashboard chat (`AIChatWidget`, src/components/dashboard/AIChatWidget.tsx). Sending appends
 * the user's message and a loading placeholder; a timer later replaces the placeholder, found by
 * its id, with a canned answer chosen by keyword. The timer is the second transition,
 * `CompleteReply`, which receives the placeholder id and the question the first one scheduled.
 */
module ChatWidget {
  import opened Wrappers
  import opened Text

  datatype Sender = User | Bot

  /** The optional chart under a bot message. */
  datatype Chart = NoChart | BarChart | PieChart

  /** A message; an absent `isLoading` is `false` and an absent `chart` is `NoChart`. */
  datatype Message = Message(id: int, text: string, sender: Sender, isLoading: bool, chart: Chart)

  const Welcome: string :=
    "Hello! I'm your AI financial assistant. Ask me anything about your finances, like 'How much did I spend on coffee last month?' or 'Show me my spending by category.'"

  const CoffeeReply: string :=
    "Last month, you spent $42.50 on coffee across 17 transactions. This is about 15% less than your average monthly coffee spending ($49.75)."

  const CategoryReply: string :=
    "Here's your spending breakdown by category for April 2023:\n\nHousing: $1,200 (42.9%)\nFood: $450 (16.1%)\nTransportation: $350 (12.5%)\nEntertainment: $300 (10.7%)\nUtilities: $250 (8.9%)\nShopping: $150 (5.4%)\nOther: $100 (3.6%)"

  const SavingsReply: string :=
    "Based on your current spending patterns, you could save approximately $320 more per month by:\n\n1. Reducing dining out expenses by $150\n2. Optimizing subscription services to save $45\n3. Using a cash-back credit card for daily purchases to earn about $75\n4. Adjusting your utility usage to save around $50"

  const GeneralReply: string :=
    "I'll analyze your finances to answer that question. Would you like me to create a visualization for this data as well?"

  /** Which canned answer a question gets. */
  datatype ReplyKind = Coffee | Categories | Savings | General

  /** `question.toLowerCase().includes(word)`. */
  predicate Mentions(question: string, word: string) {
    Contains(Lower(question), word)
  }

  /**
   * The keyword chain, first match wins: "coffee"; then "spending" together with "category";
   * then "save"; otherwise the general answer.
   */
  function KindOf(question: string): (kind: ReplyKind)
    ensures kind == Coffee <==> Mentions(question, "coffee")
    ensures kind == Categories <==>
      !Mentions(question, "coffee") && Mentions(question, "spending") && Mentions(question, "category")
    ensures kind == Savings <==>
      && !Mentions(question, "coffee") && !(Mentions(question, "spending") && Mentions(question, "category"))
      && Mentions(question, "save")
  {
    if Mentions(question, "coffee") then Coffee
    else if Mentions(question, "spending") && Mentions(question, "category") then Categories
    else if Mentions(question, "save") then Savings
    else General
  }

  function ReplyText(kind: ReplyKind): string {
    match kind
    case Coffee => CoffeeReply
    case Categories => CategoryReply
    case Savings => SavingsReply
    case General => GeneralReply
  }

  /** The bar chart goes with the coffee answer, the pie chart with the category breakdown, no chart otherwise. */
  function ChartFor(kind: ReplyKind): (chart: Chart)
    ensures chart == BarChart <==> kind == Coffee
    ensures chart == PieChart <==> kind == Categories
  {
    match kind
    case Coffee => BarChart
    case Categories => PieChart
    case _ => NoChart
  }

  /** The finished answer that replaces the placeholder `loadingId`. */
  function Reply(loadingId: int, question: string): Message {
    Message(loadingId, ReplyText(KindOf(question)), Bot, false, ChartFor(KindOf(question)))
  }

  /** Letter case does not change the answer. */
  lemma KindIgnoresCase(question: string)
    ensures KindOf(Lower(question)) == KindOf(question)
  {
    LowerIdempotent(question);
  }

  /** `prev.map(msg => msg.id === id ? m : msg)`. */
  function ReplaceById(ms: seq<Message>, id: int, m: Message): (r: seq<Message>)
    ensures |r| == |ms|
    ensures forall i :: 0 <= i < |ms| && ms[i].id != id ==> r[i] == ms[i]
    ensures forall i :: 0 <= i < |ms| && ms[i].id == id ==> r[i] == m
  {
    seq(|ms|, i requires 0 <= i < |ms| => if ms[i].id == id then m else ms[i])
  }

  /** Message `i` carries id `i + 1`: ids are positions counted from one. */
  predicate IdsArePositions(ms: seq<Message>) {
    forall i :: 0 <= i < |ms| ==> ms[i].id == i + 1
  }

  /**
   * When ids are positions, replacing by id rewrites exactly the message at position `id - 1`
   * when there is one, and nothing otherwise.
   */
  lemma ReplaceByIdAtPosition(ms: seq<Message>, id: int, m: Message)
    requires IdsArePositions(ms)
    ensures 1 <= id <= |ms| ==> ReplaceById(ms, id, m) == ms[id - 1 := m]
    ensures !(1 <= id <= |ms|) ==> ReplaceById(ms, id, m) == ms
  {
    var r := ReplaceById(ms, id, m);
    if 1 <= id <= |ms| {
      forall i | 0 <= i < |ms| ensures r[i] == ms[id - 1 := m][i] {
        if i != id - 1 {
          assert ms[i].id != id;
        }
      }
    } else {
      forall i | 0 <= i < |ms| ensures r[i] == ms[i] {
        assert ms[i].id != id;
      }
    }
  }

  /** The user's message and its placeholder, as `handleSend` appends them to `ms`. */
  function Question(ms: seq<Message>, text: string): Message {
    Message(|ms| + 1, text, User, false, NoChart)
  }

  function Placeholder(ms: seq<Message>): Message {
    Message(|ms| + 2, "", Bot, true, NoChart)
  }

  /**
   * The answer lands where the placeholder was: after a send from a list whose ids are positions,
   * completing the scheduled reply leaves the old list, the question, then the answer.
   */
  lemma AnswerFollowsQuestion(ms: seq<Message>, text: string)
    requires IdsArePositions(ms)
    ensures
      var sent := ms + [Question(ms, text), Placeholder(ms)];
      ReplaceById(sent, |ms| + 2, Reply(|ms| + 2, text)) == ms + [Question(ms, text), Reply(|ms| + 2, text)]
  {
    var sent := ms + [Question(ms, text), Placeholder(ms)];
    assert IdsArePositions(sent);
    ReplaceByIdAtPosition(sent, |ms| + 2, Reply(|ms| + 2, text));
    assert sent[|ms| + 1 := Reply(|ms| + 2, text)] == ms + [Question(ms, text), Reply(|ms| + 2, text)];
  }

  /** The widget's state: the conversation, the draft in the input box, and the typing indicator. */
  class Widget {
    var messages: seq<Message>
    var input: string
    var isTyping: bool

    /** There is always a message, and ids are positions. */
    ghost predicate Valid()
      reads this
    {
      |messages| >= 1 && IdsArePositions(messages)
    }

    constructor ()
      ensures Valid()
      ensures messages == [Message(1, Welcome, Bot, false, NoChart)] && input == "" && !isTyping
    {
      messages := [Message(1, Welcome, Bot, false, NoChart)];
      input := "";
      isTyping := false;
    }

    /** The suggestion buttons are shown only while the welcome message is alone. */
    predicate ShowsSuggestions()
      reads this
    {
      |messages| == 1
    }

    /** Typing into the input box. */
    method SetInput(text: string)
      modifies this
      ensures input == text && messages == old(messages) && isTyping == old(isTyping)
    {
      input := text;
    }

    /**
     * `handleSend` with `simulateResponse`: a blank draft changes nothing; otherwise the question
     * (id `n + 1`) and a loading placeholder (id `n + 2`) are appended, the box is cleared, the
     * typing indicator is set, and the reply for placeholder `n + 2` is scheduled.
     */
    method HandleSend() returns (scheduled: Option<(int, string)>)
      requires Valid()
      modifies this
      ensures Valid()
      ensures Trim(old(input)) == "" ==>
        && scheduled == None && messages == old(messages)
        && input == old(input) && isTyping == old(isTyping)
      ensures Trim(old(input)) != "" ==>
        && scheduled == Some((|old(messages)| + 2, old(input)))
        && messages == old(messages) + [Question(old(messages), old(input)), Placeholder(old(messages))]
        && input == ""
        && isTyping
        && !ShowsSuggestions()
    {
      if Trim(input) == "" {
        return None;
      }
      var question := input;
      var n := |messages|;
      messages := messages + [Message(n + 1, question, User, false, NoChart)];
      input := "";
      isTyping := true;
      var loadingId := n + 2;
      messages := messages + [Message(loadingId, "", Bot, true, NoChart)];
      scheduled := Some((loadingId, question));
    }

    /** The timer firing: the typing indicator clears and the placeholder with `loadingId`, and only it, becomes the answer. */
    method CompleteReply(loadingId: int, question: string)
      requires Valid()
      modifies this
      ensures Valid()
      ensures messages == ReplaceById(old(messages), loadingId, Reply(loadingId, question))
      ensures !isTyping && input == old(input)
    {
      isTyping := false;
      messages := ReplaceById(messages, loadingId, Reply(loadingId, question));
    }
  }
}
