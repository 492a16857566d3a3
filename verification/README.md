# Financial Whisperer: a verified model of the application logic

Financial Whisperer is a personal-finance web application. A new user walks through a five-step
onboarding wizard: expenses, bank link, savings goals, an AI assistant, then a success page.
Leaving the expenses and goals steps saves them to the database. Leaving the assistant step asks
a serverless function for AI recommendations, and the client stores the answer only when it
holds a non-empty `recommendations` array. The dashboard has a chat widget with canned answers.
A second serverless function answers chat messages from a system prompt built from the user's
finances. Separate forms add expenses, income and savings goals, and a settings page edits the
user's profile.

This project models that logic in Dafny and proves what each piece promises.

| module | file | models |
|---|---|---|
| `Wrappers`, `Seqs`, `Text`, `Numbers`, `Json` | `wrappers.dfy`, `seqs.dfy`, `text.dfy`, `numbers.dfy`, `json.dfy` | the JavaScript operations the code relies on: `filter`, `map`-by-id, `trim`, `toLowerCase`, `includes`, `join`/`split`, `String(n)`, `parseFloat`, JSON member access |
| `StepCounter` | `step_counter.dfy` | the `OnboardingSteps` counter and step switch |
| `GoalEstimate` | `goal_estimate.dfy` | both `calculateMonths` functions and how the goal form shows the result |
| `FinancialLines`, `Endpoint` | `financial_lines.dfy`, `endpoint.dfy` | the `- name: ₹value` lines, the CORS headers and the error responses that both serverless functions share |
| `Recommendations` | `recommendations.dfy` | the `ai-recommendations` function |
| `Chat` | `chat.dfy` | the `ai-chat` function |
| `AssistantStep` | `assistant_step.dfy` | the onboarding assistant chat |
| `ChatWidget` | `chat_widget.dfy` | the dashboard chat widget |
| `Onboarding` | `onboarding.dfy` | the `useOnboardingSteps` hook |
| `ExpenseManager` | `expense_manager.dfy` | the `useExpenseManager` hook |
| `Profile` | `profile.dfy` | the settings page |
| `GoalForm`, `ExpenseForm`, `ExpenseEntry` | `goal_form.dfy`, `expense_form.dfy`, `expense_entry.dfy` | the goal form, the expense form, and the expense/income/receipt page |

How the model is shaped:
- Pure computations are functions and lemmas. These are the payload builders, the prompts, the
  keyword choices, the span extraction and the month estimate.
- React state that handlers overwrite is a class. Its fields are the `useState` variables and its
  methods are the handlers, with `modifies` and the full new state in `ensures`.
- A handler that waits on a timer or on a database call is split at the `await`/`setTimeout`.
  - The first method does the synchronous part and returns what it scheduled or what it would
    send. Examples: `HandleSend`, `HandleSubmit`, `HandleNext`.
  - A second method applies the outcome later. Examples: `CompleteReply`, `DeliverReply`,
    `FinishSubmit`, `FinishProcessing`.
- Each serverless function is handled in two stages. `Receive` answers a preflight or a request
  it cannot read, or produces the prompt. `Answer` turns the language model's outcome into the
  HTTP response.
- Values that come from outside are parameters:
  - the signed-in user;
  - today's date;
  - fresh `uuidv4()` identifiers;
  - the outcome of the database and HTTP calls;
  - the JSON decoder `parse: string -> Option<Json>`.

Facts about the serverless functions that the model states outright:
- Both serverless functions answer any error, including an unreadable request body, with status
  500 and `{error}`.
- `ai-recommendations` returns whatever JSON object it decoded, with no check of its shape. Only
  the onboarding client checks for a non-empty `recommendations` array (`Onboarding.RecommendationsResult`).
- `ai-recommendations` has no special answer for empty user data: it always sends the prompt.
  Only the onboarding client skips the call, when no expense and no goal is filled in
  (`Onboarding.RecommendationsRequest`).

## Model

| member | source | states |
|---|---|---|
| Seqs.Filter | src/components/onboarding/OnboardingStepsHandler.tsx:179-180 | the result holds exactly the elements that pass the test, and is no longer than the input |
| Seqs.FilterAppend | src/components/onboarding/OnboardingStepsHandler.tsx:179-180 | filtering distributes over concatenation, so survivors keep their relative order |
| Seqs.WithoutKey | src/components/onboarding/OnboardingStepsHandler.tsx:147 | removal by id keeps exactly the elements whose id differs |
| Seqs.WithoutKeyAppend | src/components/onboarding/OnboardingStepsHandler.tsx:147 | removal by id distributes over concatenation, so the entries that stay keep their order |
| Seqs.WithoutKeyDistinct | src/components/onboarding/OnboardingStepsHandler.tsx:147 | removal by id keeps distinct ids distinct |
| Seqs.WithoutKeyDropsAtMostOne | src/components/onboarding/OnboardingStepsHandler.tsx:138-147 | with distinct ids, a removal drops at most one entry |
| Seqs.UpdateWhere | src/components/onboarding/OnboardingStepsHandler.tsx:124-130 | same length; entries with the id are rewritten and every other entry is unchanged |
| Seqs.UpdateWhereDistinct | src/components/onboarding/OnboardingStepsHandler.tsx:124-130 | an update that keeps ids keeps them distinct |
| Seqs.AppendFreshDistinct | src/components/onboarding/OnboardingStepsHandler.tsx:132-136 | appending an entry with an unused id keeps ids distinct |
| Text.TrimEmptyIffBlank | src/components/dashboard/AIChatWidget.tsx:33 | `!s.trim()` holds exactly for strings made only of white space, that is ECMAScript's white space and line terminators (Unicode space separators, U+FEFF, U+2028 and U+2029 included) |
| Text.ContainsLower | supabase/functions/ai-chat/index.ts:71 | an occurrence survives lower-casing, so the keyword tests ignore case |
| Text.SplitJoinLines | supabase/functions/ai-recommendations/index.ts:28 | splitting the joined lines gives back the lines, one per item |
| Text.NatToStringInjective | src/hooks/use-expense-manager.tsx:26 | different lengths give different `String(n)` identifiers |
| Numbers.ParseFloat | src/components/onboarding/OnboardingStepsHandler.tsx:185 | the empty field is `NaN`; an unsigned numeral reads as exactly its value, and anything else without a leading `-` is `NaN` |
| Numbers.IntegerReads | src/components/onboarding/OnboardingStepsHandler.tsx:185 | a string of digits reads as the integer it spells |
| Numbers.FractionReads | src/components/onboarding/OnboardingStepsHandler.tsx:185 | `whole.fraction` reads as the whole part plus the fraction digits over the matching power of ten |
| Numbers.ParseFloatNegate | src/components/onboarding/OnboardingStepsHandler.tsx:185 | a leading `-` negates the numeral after it; `-` followed by anything else is `NaN` |
| Numbers.ParseFloatExamples | src/components/expenses/ExpenseEntry.tsx:119-124 | "36.84" reads as 36.84, "1500" as 1500, "-2.5" as −2.5, and "1e3" as `NaN` in this model |
| Numbers.FloatOrZero | src/components/onboarding/OnboardingStepsHandler.tsx:185 | `parseFloat(s) \|\| 0`: the parsed value, or 0 for `NaN` |
| StepCounter.Next | src/components/onboarding/Steps.tsx:351-356 | stays within 1..5, and moves up by one exactly when below 5 |
| StepCounter.Prev | src/components/onboarding/Steps.tsx:358-363 | stays within 1..5, and moves down by one exactly when above 1 |
| StepCounter.NextPrevInverse | src/components/onboarding/Steps.tsx:351-363 | "previous" undoes "next" below the last step, and the reverse holds above the first |
| StepCounter.NextTimesCaps | src/components/onboarding/Steps.tsx:351-356 | k presses of "next" reach step + k, capped at 5 |
| StepCounter.ViewOf | src/components/onboarding/Steps.tsx:372-386 | steps 1 to 5 show expenses, bank link, savings goals, assistant and success; a step out of range shows the expenses step (the `default` case) |
| StepCounter.ViewOfInjective | src/components/onboarding/Steps.tsx:373-383 | the five steps show five different views |
| StepCounter.OnboardingSteps.constructor | src/components/onboarding/Steps.tsx:348 | starts at step 1 |
| StepCounter.OnboardingSteps.HandleNext | src/components/onboarding/Steps.tsx:351-356 | the step becomes `Next(step)`; it stays the same exactly on the last step |
| StepCounter.OnboardingSteps.HandlePrev | src/components/onboarding/Steps.tsx:358-363 | the step becomes `Prev(step)`; it stays the same exactly on the first step |
| GoalEstimate.Ceil | src/components/goals/NewGoalForm.tsx:93 | the least integer not below x |
| GoalEstimate.MonthsToGoal | src/components/goals/NewGoalForm.tsx:91-95 | months × monthly covers the target, and one month fewer does not |
| GoalEstimate.MonthsToGoalIsLeast | src/components/onboarding/Steps.tsx:147 | every month count that covers the target is at least `MonthsToGoal` |
| GoalEstimate.StepsLabelCases | src/components/onboarding/Steps.tsx:145-149 | "N/A" exactly when a field is empty or the contribution is ≤ 0; otherwise the least covering month count followed by " months" |
| GoalEstimate.FormMonths | src/components/goals/NewGoalForm.tsx:88-96 | `null` exactly when a field is empty or the contribution is ≤ 0; a count is the least covering month count |
| GoalEstimate.DisplayOf | src/components/goals/NewGoalForm.tsx:178-187 | the sentence is shown exactly for a non-zero count, with "month" exactly when the count is 1 |
| GoalEstimate.ZeroTargetShowsNoSentence | src/components/goals/NewGoalForm.tsx:178 | a target of 0 gives a count of 0, which shows no sentence but a stray "0" |
| FinancialLines.ItemLine | supabase/functions/ai-recommendations/index.ts:28 | the line starts with `- name: ` and has no line break when its parts have none |
| FinancialLines.ExpenseLineList | supabase/functions/ai-recommendations/index.ts:28 | one line per expense, in order |
| FinancialLines.GoalLineList | supabase/functions/ai-recommendations/index.ts:31 | one line per goal, in order |
| FinancialLines.ExpenseLinesOnePerItem | supabase/functions/ai-recommendations/index.ts:28 | the expense block splits back into exactly one `- name: ₹amount` line per expense, in input order |
| FinancialLines.GoalLinesOnePerItem | supabase/functions/ai-recommendations/index.ts:31 | the goal block splits back into exactly one `- name: ₹target` line per goal, in input order |
| Endpoint.ErrorBody | supabase/functions/ai-recommendations/index.ts:110 | the body's `error` member is the message |
| Endpoint.RejectionMessage | supabase/functions/ai-recommendations/index.ts:68-70 | "OpenAI API error: " followed by the API's message, or "Unknown error" when it is missing or empty |
| Endpoint.FailureResponse | supabase/functions/ai-recommendations/index.ts:108-114 | status 500, the JSON headers, and `{error}` with the rejection or exception message |
| Recommendations.PromptShape | supabase/functions/ai-recommendations/index.ts:24-48 | the prompt opens with the introduction, expense lines, goal heading and goal lines, and ends with the fixed instructions |
| Recommendations.LastIndexOf | supabase/functions/ai-recommendations/index.ts:80 | the index of the last occurrence, or none when the character is absent |
| Recommendations.ExtractSpan | supabase/functions/ai-recommendations/index.ts:80-82 | a match exists exactly when some `{` precedes some `}`; it starts with `{`, ends with `}`, and has no `{` before it and no `}` after it in the reply (first `{` to last `}`) |
| Recommendations.ReplyBody | supabase/functions/ai-recommendations/index.ts:76-103 | a reply without a brace pair gives the fallback; a span that decodes is returned as decoded; a span that does not decode gives the fallback |
| Recommendations.UnparsableGivesFallback | supabase/functions/ai-recommendations/index.ts:86-103 | when the reply has no span, or its span does not decode, the body is exactly the fallback |
| Recommendations.FallbackShape | supabase/functions/ai-recommendations/index.ts:91-99 | the fallback's `recommendations` is an array of exactly the one fallback recommendation |
| Recommendations.FallbackRecommendationShape | supabase/functions/ai-recommendations/index.ts:93-98 | that recommendation is titled "Review Your Budget" with icon "CreditCard" |
| Recommendations.Receive | supabase/functions/ai-recommendations/index.ts:12-24 | OPTIONS gets 200, no body and the CORS headers, with no model call; an unreadable body gets 500 `{error}`; otherwise the prompt is sent |
| Recommendations.Answer | supabase/functions/ai-recommendations/index.ts:66-114 | 200 exactly for a completed call, with the reply body, or the fallback when the reply text is `null`; a rejection or exception gives 500 `{error}`; JSON headers always |
| Recommendations.ResponsesCarryCors | supabase/functions/ai-recommendations/index.ts:105-113 | every response starts its headers with the CORS headers |
| Chat.ComposeSystemPrompt | supabase/functions/ai-chat/index.ts:25-43 | the prompt accumulated by successive `+=` equals `SystemPrompt(context)` |
| Chat.ExpenseSectionShape | supabase/functions/ai-chat/index.ts:30-34 | the expenses section only appends; it is absent without expenses, and otherwise its heading follows what came before |
| Chat.GoalSectionShape | supabase/functions/ai-chat/index.ts:36-40 | the goals section only appends; it is absent without goals, and otherwise its heading follows what came before |
| Chat.ContextShape | supabase/functions/ai-chat/index.ts:27-41 | no context text without data; with data, the context header comes first |
| Chat.SystemPromptFrame | supabase/functions/ai-chat/index.ts:25-43 | the prompt starts with the assistant sentence and ends with the advice sentence; it is just those two exactly when there is no data |
| Chat.SectionsInOrder | supabase/functions/ai-chat/index.ts:27-40 | header at the end of the opening sentence, the expenses heading right after it, the goals heading after the expenses section, so expenses precede goals |
| Chat.ChartHint | supabase/functions/ai-chat/index.ts:71 | "pie" exactly when the lower-cased message contains "spending" or "budget"; otherwise `null` |
| Chat.ChartHintCaseInsensitive | supabase/functions/ai-chat/index.ts:71 | the hint ignores case, and any message containing either word as written gets "pie" |
| Chat.Receive | supabase/functions/ai-chat/index.ts:12-43 | OPTIONS gets the preflight response; an unreadable body gets 500 `{error}`; otherwise the system prompt and the message go to the model |
| Chat.ReplyBody | supabase/functions/ai-chat/index.ts:67-72 | `response` is the reply text (`null` when the reply text is `null`) and `chart` the hint for the message |
| Chat.Answer | supabase/functions/ai-chat/index.ts:61-81 | 200 exactly for a completed call, with `{response, chart}`; failures give 500 `{error}` |
| AssistantStep.TopicOf | src/components/onboarding/Steps.tsx:242-252 | first match wins: "debt", then "save"/"saving", then "invest"/"investing", then "budget", else the default |
| AssistantStep.TopicIgnoresCase | src/components/onboarding/Steps.tsx:242-248 | the chosen answer does not depend on letter case |
| AssistantStep.InvestingTestRedundant | src/components/onboarding/Steps.tsx:246 | any input mentioning "investing" also mentions "invest" |
| AssistantStep.DebtComesFirst | src/components/onboarding/Steps.tsx:242-243 | any input containing "debt" gets the debt answer, whatever else it says |
| AssistantStep.AssistantChat.constructor | src/components/onboarding/Steps.tsx:231-234 | empty input, and the greeting as the only line |
| AssistantStep.AssistantChat.SetInput | src/components/onboarding/Steps.tsx:302 | only the draft changes |
| AssistantStep.AssistantChat.HandleSubmit | src/components/onboarding/Steps.tsx:258-264 | blank input changes and schedules nothing; otherwise the user line is appended, the input cleared and the reply scheduled |
| AssistantStep.AssistantChat.DeliverReply | src/components/onboarding/Steps.tsx:239-255 | exactly one bot line, the answer for the input, is appended |
| ChatWidget.KindOf | src/components/dashboard/AIChatWidget.tsx:59-72 | first match wins: "coffee", then "spending" together with "category", then "save", else the general answer |
| ChatWidget.ChartFor | src/components/dashboard/AIChatWidget.tsx:59-72 | bar chart exactly for the coffee answer, pie chart exactly for the category answer |
| ChatWidget.KindIgnoresCase | src/components/dashboard/AIChatWidget.tsx:59-68 | the chosen answer does not depend on letter case |
| ChatWidget.ReplaceById | src/components/dashboard/AIChatWidget.tsx:75-79 | same length; the message with that id is replaced and every other message is unchanged |
| ChatWidget.ReplaceByIdAtPosition | src/components/dashboard/AIChatWidget.tsx:75-79 | when ids are positions, exactly the message at position id − 1 is replaced, and nothing when there is none |
| ChatWidget.AnswerFollowsQuestion | src/components/dashboard/AIChatWidget.tsx:35-79 | after a send and its completion, the list is the old list, the question, then the answer |
| ChatWidget.Widget.constructor | src/components/dashboard/AIChatWidget.tsx:16-24 | the welcome message alone, empty input, not typing |
| ChatWidget.Widget.SetInput | src/components/dashboard/AIChatWidget.tsx:232 | only the draft changes |
| ChatWidget.Widget.HandleSend | src/components/dashboard/AIChatWidget.tsx:31-51 | blank input changes nothing; otherwise the question (id n + 1) and the placeholder (id n + 2) are appended, the input cleared, typing set, suggestions hidden, and the reply scheduled |
| ChatWidget.Widget.CompleteReply | src/components/dashboard/AIChatWidget.tsx:53-80 | typing clears, and the placeholder with the id, and only it, becomes the answer |
| Onboarding.SetExpenseField | src/components/onboarding/OnboardingStepsHandler.tsx:127 | the named field takes the value; the id and the other field keep theirs |
| Onboarding.SetGoalField | src/components/onboarding/OnboardingStepsHandler.tsx:152 | the named field takes the value; the id and the other fields keep theirs |
| Onboarding.ExpensePayload | src/components/onboarding/OnboardingStepsHandler.tsx:179-188 | one row per expense with a non-blank name, in order |
| Onboarding.ExpensePayloadExact | src/components/onboarding/OnboardingStepsHandler.tsx:179-188 | every named expense is saved; every row comes from a named expense, with category "Onboarding", today's date, and the amount or 0 |
| Onboarding.ExpensePayloadAppend | src/components/onboarding/OnboardingStepsHandler.tsx:179-188 | the payload of two lists joined is their payloads joined, so order is kept |
| Onboarding.GoalPayload | src/components/onboarding/OnboardingStepsHandler.tsx:219-228 | one row per goal with a non-blank name, in order |
| Onboarding.GoalPayloadAppend | src/components/onboarding/OnboardingStepsHandler.tsx:219-228 | the payload of two goal lists joined is their payloads joined, so order is kept |
| Onboarding.GoalPayloadExact | src/components/onboarding/OnboardingStepsHandler.tsx:219-228 | every named goal is saved; every row comes from a named goal, starting at 0 saved |
| Onboarding.ExpenseSave | src/components/onboarding/OnboardingStepsHandler.tsx:174-195 | skipped exactly when there is no user or no named expense; otherwise a non-empty upsert of the payload |
| Onboarding.GoalSave | src/components/onboarding/OnboardingStepsHandler.tsx:214-235 | skipped exactly when there is no user or no named goal; otherwise a non-empty upsert of the payload |
| Onboarding.ExpenseSummaries | src/components/onboarding/OnboardingStepsHandler.tsx:42-49 | one summary per expense with name and amount, in list order |
| Onboarding.GoalSummaries | src/components/onboarding/OnboardingStepsHandler.tsx:43-49 | one summary per goal with name and target, in list order |
| Onboarding.ExpenseSummariesExact | src/components/onboarding/OnboardingStepsHandler.tsx:42 | every filled expense is sent, and every sent summary comes from a filled expense |
| Onboarding.GoalSummariesExact | src/components/onboarding/OnboardingStepsHandler.tsx:43 | every filled goal is sent, and every sent summary comes from a filled goal |
| Onboarding.SummariesAppend | src/components/onboarding/OnboardingStepsHandler.tsx:42-43 | the summaries of two lists joined are their summaries joined, so the order is kept |
| Onboarding.RecommendationsRequest | src/components/onboarding/OnboardingStepsHandler.tsx:41-49 | no request exactly when no expense has name and amount and no goal has name and target; otherwise the request holds exactly the filled expenses' and goals' summaries |
| Onboarding.RecommendationsResult | src/components/onboarding/OnboardingStepsHandler.tsx:57-107 | stored exactly when the call returned data whose `recommendations` is a non-empty array; silent exactly when there is no session token |
| Onboarding.FallbackIsStored | src/components/onboarding/OnboardingStepsHandler.tsx:84-85 | the endpoint's fallback passes the check and is stored |
| Onboarding.ErrorBodyNotStored | src/components/onboarding/OnboardingStepsHandler.tsx:84-92 | an `{error}` body never passes the check |
| Onboarding.ReplyWithoutObjectStillStored | src/components/onboarding/OnboardingStepsHandler.tsx:84-85 | a model reply with no `{…}` span gives a 200 whose fallback body the client stores |
| Onboarding.NullReplyStillStored | src/components/onboarding/OnboardingStepsHandler.tsx:84-85 | a model reply whose text is `null` also gives a 200 whose fallback body the client stores |
| Onboarding.UpdateExpenseIsLocal | src/components/onboarding/OnboardingStepsHandler.tsx:124-130 | same length and ids; only the named field of matching entries changes |
| Onboarding.Wizard.constructor | src/components/onboarding/OnboardingStepsHandler.tsx:10-21 | step 1, the four starter expenses and two starter goals with empty amounts and distinct ids |
| Onboarding.Wizard.HandleNext | src/components/onboarding/OnboardingStepsHandler.tsx:27-114 | leaving step 1 saves expenses, step 3 saves goals, step 4 requests recommendations; the step then becomes `Next(step)` |
| Onboarding.Wizard.HandlePrev | src/components/onboarding/OnboardingStepsHandler.tsx:116-121 | the step becomes `Prev(step)`; the lists are unchanged |
| Onboarding.Wizard.UpdateExpense | src/components/onboarding/OnboardingStepsHandler.tsx:124-130 | the expenses become the by-id update; the ids stay distinct |
| Onboarding.Wizard.AddExpense | src/components/onboarding/OnboardingStepsHandler.tsx:132-136 | exactly one blank expense with the fresh id is appended and returned |
| Onboarding.Wizard.RemoveExpense | src/components/onboarding/OnboardingStepsHandler.tsx:138-148 | refused exactly when at most one expense is left; otherwise entries with the id are dropped and the list stays non-empty |
| Onboarding.Wizard.UpdateGoal | src/components/onboarding/OnboardingStepsHandler.tsx:150-154 | the goals become the by-id update; the ids stay distinct |
| Onboarding.Wizard.AddGoal | src/components/onboarding/OnboardingStepsHandler.tsx:156-160 | exactly one blank goal with the fresh id is appended and returned |
| Onboarding.Wizard.RemoveGoal | src/components/onboarding/OnboardingStepsHandler.tsx:162-172 | refused exactly when at most one goal is left; otherwise goals with the id are dropped and the list stays non-empty |
| ExpenseManager.NewItem | src/hooks/use-expense-manager.tsx:26-27 | the new entry has id `String(length + 1)`, the default name and no amount |
| ExpenseManager.NumberedIsDistinct | src/hooks/use-expense-manager.tsx:26 | ids numbered by position are distinct |
| ExpenseManager.AddDistinctIffFresh | src/hooks/use-expense-manager.tsx:25-28 | with distinct ids, an addition keeps them distinct exactly when `String(length + 1)` is unused |
| ExpenseManager.RemovalThenAddRepeatsId | src/hooks/use-expense-manager.tsx:25-44 | from ["1"], adding, removing "1", then adding again gives two entries with id "2" |
| ExpenseManager.UpdateIsLocal | src/hooks/use-expense-manager.tsx:30-40 | a rename changes only names and a re-price only amounts, of matching entries; ids stay distinct |
| ExpenseManager.Manager.constructor | src/hooks/use-expense-manager.tsx:17-23 | one "Rent" expense and one "Emergency Fund" goal, both with id "1" and no amount |
| ExpenseManager.Manager.AddExpense | src/hooks/use-expense-manager.tsx:25-28 | one "New Expense" entry with the next id is appended; position numbering is kept |
| ExpenseManager.Manager.UpdateExpenseName | src/hooks/use-expense-manager.tsx:30-34 | the expenses become the by-id rename; goals are unchanged |
| ExpenseManager.Manager.UpdateExpenseAmount | src/hooks/use-expense-manager.tsx:36-40 | the expenses become the by-id re-price; goals are unchanged |
| ExpenseManager.Manager.RemoveExpense | src/hooks/use-expense-manager.tsx:42-44 | every expense with the id goes, with no lower bound on length |
| ExpenseManager.Manager.AddGoal | src/hooks/use-expense-manager.tsx:46-49 | one "New Savings Goal" entry with the next id is appended |
| ExpenseManager.Manager.UpdateGoalName | src/hooks/use-expense-manager.tsx:51-55 | the goals become the by-id rename; expenses are unchanged |
| ExpenseManager.Manager.UpdateGoalAmount | src/hooks/use-expense-manager.tsx:57-61 | the goals become the by-id re-price; expenses are unchanged |
| ExpenseManager.Manager.RemoveGoal | src/hooks/use-expense-manager.tsx:63-65 | every goal with the id goes |
| Profile.WithField | src/pages/Profile.tsx:34-36 | the field takes the value; every other field and the notifications keep theirs |
| Profile.WithFlag | src/pages/Profile.tsx:38-43 | the switch takes the value; every other switch keeps its own |
| Profile.WithFieldLastWins | src/pages/Profile.tsx:34-36 | setting a field to its own value changes nothing, and of two settings the last wins |
| Profile.WithFieldCommutes | src/pages/Profile.tsx:34-36 | changes to two different fields commute |
| Profile.ProfilePage.constructor | src/pages/Profile.tsx:15-32 | not editing; currency "INR", language "en-IN", SMS alerts off |
| Profile.ProfilePage.HandleChange | src/pages/Profile.tsx:34-36 | only while editing; exactly that field changes |
| Profile.ProfilePage.HandleNotificationChange | src/pages/Profile.tsx:38-43 | only while editing; exactly that switch changes, and every top-level field is kept |
| Profile.ProfilePage.HandleSave | src/pages/Profile.tsx:45-51 | editing ends; the profile is unchanged |
| Profile.ProfilePage.ToggleEdit | src/pages/Profile.tsx:101 | editing flips (on, or save when on); the profile is unchanged |
| GoalForm.Record | src/components/goals/NewGoalForm.tsx:51-58 | the fields as typed, parsed target, 0 saved, and a `null` contribution exactly when that field is empty |
| GoalForm.Form.constructor | src/components/goals/NewGoalForm.tsx:31-34 | empty fields, not submitting |
| GoalForm.Form.SetName | src/components/goals/NewGoalForm.tsx:128 | only the name changes |
| GoalForm.Form.SetTargetAmount | src/components/goals/NewGoalForm.tsx:150 | only the target changes |
| GoalForm.Form.SetMonthlyContribution | src/components/goals/NewGoalForm.tsx:172 | only the contribution changes |
| GoalForm.Form.HandleSubmit | src/components/goals/NewGoalForm.tsx:36-58 | refused with no change exactly when user, name or target is missing; otherwise submitting, with the record |
| GoalForm.Form.FinishSubmit | src/components/goals/NewGoalForm.tsx:60-86 | submitting ends either way; fields reset (and the estimate hidden) only after success |
| ExpenseForm.FormatShape | src/components/expenses/NewExpenseForm.tsx:90 | a `yyyy-MM-dd` date has ten characters: digits with dashes at positions 4 and 7 |
| ExpenseForm.Record | src/components/expenses/NewExpenseForm.tsx:84-92 | user, name, category and notes as typed, the parsed amount and the formatted date |
| ExpenseForm.Form.constructor | src/components/expenses/NewExpenseForm.tsx:62-67 | empty fields dated today, not submitting |
| ExpenseForm.Form.SetFields | src/components/expenses/NewExpenseForm.tsx:62-66 | the text fields take the typed values; date and submitting are kept |
| ExpenseForm.Form.SelectDate | src/components/expenses/NewExpenseForm.tsx:231 | a picked day replaces the date; clearing the picker keeps it |
| ExpenseForm.Form.HandleSubmit | src/components/expenses/NewExpenseForm.tsx:69-92 | refused with no change exactly when user, name, amount or category is missing; otherwise submitting, with the record |
| ExpenseForm.Form.FinishSubmit | src/components/expenses/NewExpenseForm.tsx:94-126 | submitting ends either way; on success `onSuccess` is called if given and the fields reset to now; on failure all fields are kept |
| ExpenseEntry.ReceiptOn | src/components/expenses/ExpenseEntry.tsx:119-124 | amount "36.84", category "Food", the fixed notes, today's date |
| ExpenseEntry.Cleared | src/components/expenses/ExpenseEntry.tsx:158-161 | empty amount, category and notes, dated today |
| ExpenseEntry.Page.constructor | src/components/expenses/ExpenseEntry.tsx:45-57 | both forms empty and dated today; no image, no upload in progress |
| ExpenseEntry.Page.SetExpense | src/components/expenses/ExpenseEntry.tsx:45-48 | the expense fields take the typed values; the income and upload state are kept |
| ExpenseEntry.Page.SetIncome | src/components/expenses/ExpenseEntry.tsx:54-57 | the income fields take the typed values; the rest is kept |
| ExpenseEntry.Page.HandleDragOver | src/components/expenses/ExpenseEntry.tsx:59-62 | only `isDragging` is set |
| ExpenseEntry.Page.HandleDragLeave | src/components/expenses/ExpenseEntry.tsx:64-66 | only `isDragging` is cleared |
| ExpenseEntry.Page.HandleFileUpload | src/components/expenses/ExpenseEntry.tsx:85-95 | a non-image is refused with no change; an image starts uploading and disables saving |
| ExpenseEntry.Page.HandleDrop | src/components/expenses/ExpenseEntry.tsx:68-76 | dragging ends; the first file, if any, is uploaded under the image rule |
| ExpenseEntry.Page.HandleFileChange | src/components/expenses/ExpenseEntry.tsx:78-83 | the first chosen file, if any, is uploaded under the image rule |
| ExpenseEntry.Page.FinishUpload | src/components/expenses/ExpenseEntry.tsx:98-108 | the image is shown, uploading ends and processing begins; saving stays disabled |
| ExpenseEntry.Page.FinishProcessing | src/components/expenses/ExpenseEntry.tsx:114-128 | processing ends; the extraction is recorded; the expense takes amount "36.84", category "Food" and the fixed notes, and keeps its date |
| ExpenseEntry.Page.RemoveImage | src/components/expenses/ExpenseEntry.tsx:419-422 | only the image and the extraction are cleared |
| ExpenseEntry.Page.HandleSubmit | src/components/expenses/ExpenseEntry.tsx:138-164 | refused with no change exactly when amount, category or date is empty; otherwise the expense is cleared and dated today, and the image and extraction dropped; income untouched |
| ExpenseEntry.Page.HandleIncomeSubmit | src/components/expenses/ExpenseEntry.tsx:166-190 | same rule for the income form only; the expense and upload state are untouched |

## Left out

- Database and HTTP calls are not performed. This covers the Supabase `upsert`/`insert`, `functions.invoke`, `getSession`, the language-model `fetch` and `req.json()`. Their results are parameters, or the effect values returned by `HandleNext` and the `HandleSubmit` methods.
- `JSON.parse` is not modelled; the decoder is a parameter. So is `JSON.stringify` of the stored recommendations.
- Timers, `FileReader`, `localStorage`, `window.scrollTo`, scrolling into view, navigation, toasts and console logging are left out. A delayed callback is a separate transition; a toast is not recorded.
- `uuidv4()` is a fresh-identifier parameter. The wizard's add methods require that the identifier is not already in the list.
- Floating point is not modelled. Amounts are exact `real`s. `parseFloat` is modelled only on what a number field can hold (an optional `-`, digits, an optional fraction); exponents and `Infinity` are not read. `Math.ceil` is exact.
- `toLowerCase` folds ASCII letters only.
- Numbers.ParseFloat: reads a numeral with an exponent (`1e3`, which an `<input type="number">` can hold) as `NaN`, where `parseFloat` reads its value; so such an amount is saved as 0 by `parseFloat(...) || 0`. Trailing text after a numeral is also read as `NaN`; a number field never holds it.
- React scheduling is not modelled. This includes the stale closures in the chat widget's suggestion buttons, which overwrite the placeholder, and in `AIAssistantStep`, which appends its user line to the list captured at render time.
- ChatWidget.Widget.HandleSend: does not require `!isTyping`, although the input and the send button are disabled while the bot is typing, so the model also allows a send during typing.
- ExpenseForm.Form.SetFields and ExpenseEntry.Page.SetExpense: one method sets all the text fields, where the page has one `onChange` per input.
- The language model's own system message in `ai-recommendations` and the model settings (model name, temperature) are not modelled; only the user prompt is.
- The HTTP status of a request whose context or user data is present but malformed (for example `userData.expenses` missing) is not modelled. The payload is either decoded with both lists or undecodable.
- In the chat function, a missing `financialContext`, or a missing list inside it, is read as an empty list.
- The onboarding client sends the filtered entries with their ids. The model sends only the name and amount (or target), which are all the endpoint reads.
- The rendering of pages, charts, progress bars and the landing, navigation and dashboard components is out of scope.
