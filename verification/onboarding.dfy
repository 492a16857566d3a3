/**
 * The onboarding wizard hook (`useOnboardingSteps`, src/components/onboarding/OnboardingStepsHandler.tsx):
 * a five-step counter, the editable lists of expenses and savings goals, the rows saved to the
 * database when leaving steps 1 and 3, and the request for AI recommendations when leaving step 4
 * together with the check applied to its answer.
 *
 * Database writes, the function call and the browser storage are not performed: `HandleNext`
 * returns what it would send as an effect value, and the answer to the recommendations request is
 * an input of `RecommendationsResult`. Identifiers from `uuidv4()` are passed in, and are assumed
 * not to collide with identifiers already in the list.
 */
module Onboarding {
  import opened Wrappers
  import opened Seqs
  import opened Text
  import opened Numbers
  import opened Json
  import opened FinancialLines
  import opened StepCounter
  import Recommendations
  import Endpoint

  /** An expense as edited in step 1; the amount is the text of a number field. */
  datatype Expense = Expense(id: string, name: string, amount: string)

  /** A savings goal as edited in step 3. */
  datatype Goal = Goal(id: string, name: string, target: string, monthly: string)

  datatype ExpenseField = ExpenseName | ExpenseAmount

  datatype GoalField = GoalName | GoalTarget | GoalMonthly

  function ExpenseId(e: Expense): string { e.id }

  function GoalId(g: Goal): string { g.id }

  /** `{ ...exp, [field]: value }` */
  function SetExpenseField(e: Expense, field: ExpenseField, value: string): (r: Expense)
    ensures r.id == e.id
    ensures field == ExpenseName ==> r.name == value && r.amount == e.amount
    ensures field == ExpenseAmount ==> r.amount == value && r.name == e.name
  {
    match field
    case ExpenseName => e.(name := value)
    case ExpenseAmount => e.(amount := value)
  }

  /** `{ ...goal, [field]: value }` */
  function SetGoalField(g: Goal, field: GoalField, value: string): (r: Goal)
    ensures r.id == g.id
    ensures field == GoalName ==> r.name == value && r.target == g.target && r.monthly == g.monthly
    ensures field == GoalTarget ==> r.target == value && r.name == g.name && r.monthly == g.monthly
    ensures field == GoalMonthly ==> r.monthly == value && r.name == g.name && r.target == g.target
  {
    match field
    case GoalName => g.(name := value)
    case GoalTarget => g.(target := value)
    case GoalMonthly => g.(monthly := value)
  }

  // ---------------------------------------------------------------------------------------------
  // What is saved when leaving steps 1 and 3.

  /** A row of the `expenses` table as `saveExpenses` builds it. */
  datatype ExpenseRow = ExpenseRow(id: string, userId: string, name: string, amount: real, category: string, date: string)

  /** A row of the `goals` table as `saveGoals` builds it. */
  datatype GoalRow = GoalRow(id: string, userId: string, name: string, targetAmount: real, currentAmount: real, monthlyContribution: real)

  /** Either no database call, or an upsert (on conflict by id) of these rows. */
  datatype SaveAction<R> = Skip | Upsert(rows: seq<R>)

  /** Entries whose name is blank after trimming are not saved. */
  predicate NamedExpense(e: Expense) { Trim(e.name) != "" }

  predicate NamedGoal(g: Goal) { Trim(g.name) != "" }

  function ExpenseRowOf(e: Expense, userId: string, today: string): ExpenseRow {
    ExpenseRow(e.id, userId, e.name, FloatOrZero(e.amount), "Onboarding", today)
  }

  function GoalRowOf(g: Goal, userId: string): GoalRow {
    GoalRow(g.id, userId, g.name, FloatOrZero(g.target), 0.0, FloatOrZero(g.monthly))
  }

  /**
   * `expenses.filter(named).map(toRow)`: one row per named expense, in list order, with the same
   * id and name, the parsed amount (0 when it does not parse), category "Onboarding" and today's date.
   */
  function ExpensePayload(expenses: seq<Expense>, userId: string, today: string): (rows: seq<ExpenseRow>)
    ensures |rows| == |Filter(expenses, NamedExpense)|
    ensures forall i :: 0 <= i < |rows| ==> rows[i] == ExpenseRowOf(Filter(expenses, NamedExpense)[i], userId, today)
  {
    var kept := Filter(expenses, NamedExpense);
    seq(|kept|, i requires 0 <= i < |kept| => ExpenseRowOf(kept[i], userId, today))
  }

  /** `goals.filter(named).map(toRow)`: one row per named goal, in list order, starting at 0 saved. */
  function GoalPayload(goals: seq<Goal>, userId: string): (rows: seq<GoalRow>)
    ensures |rows| == |Filter(goals, NamedGoal)|
    ensures forall i :: 0 <= i < |rows| ==> rows[i] == GoalRowOf(Filter(goals, NamedGoal)[i], userId)
  {
    var kept := Filter(goals, NamedGoal);
    seq(|kept|, i requires 0 <= i < |kept| => GoalRowOf(kept[i], userId))
  }

  /**
   * Every named expense is saved, and every saved row comes from a named expense, with category
   * "Onboarding", today's date and the amount read as a number or 0.
   */
  lemma ExpensePayloadExact(expenses: seq<Expense>, userId: string, today: string)
    ensures forall e :: e in expenses && NamedExpense(e) ==> ExpenseRowOf(e, userId, today) in ExpensePayload(expenses, userId, today)
    ensures forall row :: row in ExpensePayload(expenses, userId, today) ==>
      && row.category == "Onboarding" && row.date == today && row.userId == userId && Trim(row.name) != ""
      && exists e :: e in expenses && NamedExpense(e) && row == ExpenseRowOf(e, userId, today)
  {
    var kept := Filter(expenses, NamedExpense);
    var rows := ExpensePayload(expenses, userId, today);
    forall e | e in expenses && NamedExpense(e) ensures ExpenseRowOf(e, userId, today) in rows {
      assert e in kept;
      var i :| 0 <= i < |kept| && kept[i] == e;
      assert rows[i] == ExpenseRowOf(e, userId, today);
    }
    forall row | row in rows
      ensures exists e :: e in expenses && NamedExpense(e) && row == ExpenseRowOf(e, userId, today)
    {
      var i :| 0 <= i < |rows| && rows[i] == row;
      assert kept[i] in kept;
    }
  }

  /** Saving is order-preserving: the payload of two lists one after the other is their payloads one after the other. */
  lemma ExpensePayloadAppend(a: seq<Expense>, b: seq<Expense>, userId: string, today: string)
    ensures ExpensePayload(a + b, userId, today) == ExpensePayload(a, userId, today) + ExpensePayload(b, userId, today)
  {
    FilterAppend(a, b, NamedExpense);
  }

  /** The goals are saved in the order the user listed them. */
  lemma GoalPayloadAppend(a: seq<Goal>, b: seq<Goal>, userId: string)
    ensures GoalPayload(a + b, userId) == GoalPayload(a, userId) + GoalPayload(b, userId)
  {
    FilterAppend(a, b, NamedGoal);
  }

  /** Every named goal is saved, and every saved goal row comes from a named goal and starts at 0. */
  lemma GoalPayloadExact(goals: seq<Goal>, userId: string)
    ensures forall g :: g in goals && NamedGoal(g) ==> GoalRowOf(g, userId) in GoalPayload(goals, userId)
    ensures forall row :: row in GoalPayload(goals, userId) ==>
      && row.currentAmount == 0.0 && row.userId == userId && Trim(row.name) != ""
      && exists g :: g in goals && NamedGoal(g) && row == GoalRowOf(g, userId)
  {
    var kept := Filter(goals, NamedGoal);
    var rows := GoalPayload(goals, userId);
    forall g | g in goals && NamedGoal(g) ensures GoalRowOf(g, userId) in rows {
      assert g in kept;
      var i :| 0 <= i < |kept| && kept[i] == g;
      assert rows[i] == GoalRowOf(g, userId);
    }
    forall row | row in rows ensures exists g :: g in goals && NamedGoal(g) && row == GoalRowOf(g, userId) {
      var i :| 0 <= i < |rows| && rows[i] == row;
      assert kept[i] in kept;
    }
  }

  /** `saveExpenses`: nothing without a signed-in user or without a named expense, otherwise the upsert. */
  function ExpenseSave(user: Option<string>, expenses: seq<Expense>, today: string): (action: SaveAction<ExpenseRow>)
    ensures action.Skip? <==> user.None? || forall e :: e in expenses ==> !NamedExpense(e)
    ensures action.Upsert? ==> action.rows == ExpensePayload(expenses, user.value, today) && |action.rows| > 0
  {
    if user.None? then Skip
    else
      var kept := Filter(expenses, NamedExpense);
      var rows := ExpensePayload(expenses, user.value, today);
      if |rows| == 0 then
        assert forall e :: e in expenses ==> !NamedExpense(e);
        Skip
      else
        assert kept[0] in kept;
        Upsert(rows)
  }

  /** `saveGoals`: nothing without a signed-in user or without a named goal, otherwise the upsert. */
  function GoalSave(user: Option<string>, goals: seq<Goal>): (action: SaveAction<GoalRow>)
    ensures action.Skip? <==> user.None? || forall g :: g in goals ==> !NamedGoal(g)
    ensures action.Upsert? ==> action.rows == GoalPayload(goals, user.value) && |action.rows| > 0
  {
    if user.None? then Skip
    else
      var kept := Filter(goals, NamedGoal);
      var rows := GoalPayload(goals, user.value);
      if |rows| == 0 then
        assert forall g :: g in goals ==> !NamedGoal(g);
        Skip
      else
        assert kept[0] in kept;
        Upsert(rows)
  }

  // ---------------------------------------------------------------------------------------------
  // The recommendations request when leaving step 4.

  /** `exp.name && exp.amount`: both fields non-empty (no trimming here). */
  predicate FilledExpense(e: Expense) { e.name != "" && e.amount != "" }

  /** `goal.name && goal.target`. */
  predicate FilledGoal(g: Goal) { g.name != "" && g.target != "" }

  function ExpenseSummaryOf(e: Expense): ExpenseSummary { ExpenseSummary(e.name, e.amount) }

  function GoalSummaryOf(g: Goal): GoalSummary { GoalSummary(g.name, g.target) }

  /** `expenses.filter(exp => exp.name && exp.amount)`, as the summaries the endpoint reads, in list order. */
  function ExpenseSummaries(expenses: seq<Expense>): (sent: seq<ExpenseSummary>)
    ensures |sent| == |Filter(expenses, FilledExpense)|
    ensures forall i :: 0 <= i < |sent| ==> sent[i] == ExpenseSummaryOf(Filter(expenses, FilledExpense)[i])
  {
    var es := Filter(expenses, FilledExpense);
    seq(|es|, i requires 0 <= i < |es| => ExpenseSummaryOf(es[i]))
  }

  /** `goals.filter(goal => goal.name && goal.target)`, as summaries, in list order. */
  function GoalSummaries(goals: seq<Goal>): (sent: seq<GoalSummary>)
    ensures |sent| == |Filter(goals, FilledGoal)|
    ensures forall i :: 0 <= i < |sent| ==> sent[i] == GoalSummaryOf(Filter(goals, FilledGoal)[i])
  {
    var gs := Filter(goals, FilledGoal);
    seq(|gs|, i requires 0 <= i < |gs| => GoalSummaryOf(gs[i]))
  }

  /** Exactly the filled expenses are sent: each one's summary is in the request, and every summary sent comes from one. */
  lemma ExpenseSummariesExact(expenses: seq<Expense>)
    ensures forall e :: e in expenses && FilledExpense(e) ==> ExpenseSummaryOf(e) in ExpenseSummaries(expenses)
    ensures forall s :: s in ExpenseSummaries(expenses) ==>
      && s.name != "" && s.amount != ""
      && exists e :: e in expenses && FilledExpense(e) && s == ExpenseSummaryOf(e)
  {
    var kept := Filter(expenses, FilledExpense);
    var sent := ExpenseSummaries(expenses);
    forall e | e in expenses && FilledExpense(e) ensures ExpenseSummaryOf(e) in sent {
      assert e in kept;
      var i :| 0 <= i < |kept| && kept[i] == e;
      assert sent[i] == ExpenseSummaryOf(e);
    }
    forall s | s in sent
      ensures exists e :: e in expenses && FilledExpense(e) && s == ExpenseSummaryOf(e)
    {
      var i :| 0 <= i < |sent| && sent[i] == s;
      assert kept[i] in kept;
    }
  }

  /** Exactly the filled goals are sent. */
  lemma GoalSummariesExact(goals: seq<Goal>)
    ensures forall g :: g in goals && FilledGoal(g) ==> GoalSummaryOf(g) in GoalSummaries(goals)
    ensures forall s :: s in GoalSummaries(goals) ==>
      && s.name != "" && s.target != ""
      && exists g :: g in goals && FilledGoal(g) && s == GoalSummaryOf(g)
  {
    var kept := Filter(goals, FilledGoal);
    var sent := GoalSummaries(goals);
    forall g | g in goals && FilledGoal(g) ensures GoalSummaryOf(g) in sent {
      assert g in kept;
      var i :| 0 <= i < |kept| && kept[i] == g;
      assert sent[i] == GoalSummaryOf(g);
    }
    forall s | s in sent
      ensures exists g :: g in goals && FilledGoal(g) && s == GoalSummaryOf(g)
    {
      var i :| 0 <= i < |sent| && sent[i] == s;
      assert kept[i] in kept;
    }
  }

  /** The entries are sent in the order the user listed them. */
  lemma SummariesAppend(a: seq<Expense>, b: seq<Expense>, c: seq<Goal>, d: seq<Goal>)
    ensures ExpenseSummaries(a + b) == ExpenseSummaries(a) + ExpenseSummaries(b)
    ensures GoalSummaries(c + d) == GoalSummaries(c) + GoalSummaries(d)
  {
    FilterAppend(a, b, FilledExpense);
    FilterAppend(c, d, FilledGoal);
  }

  /**
   * The `userData` sent to the recommendations endpoint: the filled expenses and goals, in list
   * order; no request at all when both filtered lists are empty.
   */
  function RecommendationsRequest(expenses: seq<Expense>, goals: seq<Goal>): (request: Option<Recommendations.UserData>)
    ensures request.None? <==> (forall e :: e in expenses ==> !FilledExpense(e)) && (forall g :: g in goals ==> !FilledGoal(g))
    ensures request.Some? ==> request.value == Recommendations.UserData(ExpenseSummaries(expenses), GoalSummaries(goals))
  {
    var es, gs := Filter(expenses, FilledExpense), Filter(goals, FilledGoal);
    if |es| > 0 || |gs| > 0 then
      assert |es| > 0 ==> es[0] in es;
      assert |gs| > 0 ==> gs[0] in gs;
      Some(Recommendations.UserData(ExpenseSummaries(expenses), GoalSummaries(goals)))
    else
      assert forall e :: e in expenses ==> !FilledExpense(e);
      assert forall g :: g in goals ==> !FilledGoal(g);
      None
  }

  /** `data && data.recommendations && Array.isArray(data.recommendations) && data.recommendations.length > 0` */
  predicate HasRecommendations(data: Option<Json>) {
    && data.Some?
    && Member(data.value, "recommendations").Some?
    && Member(data.value, "recommendations").value.JArray?
    && |Member(data.value, "recommendations").value.items| > 0
  }

  /** How the call to the recommendations function ended, as the client sees it. */
  datatype InvokeOutcome =
    | NoToken                      // no session token: the outer `catch` only logs
    | InvokeFailed(message: string) // `error` from `functions.invoke` (a non-2xx status included)
    | Returned(data: Option<Json>)  // the decoded body

  /** What the client does with that: store the answer, show the failure toast, or nothing. */
  datatype ClientAction = Stored(data: Json) | FailureToast | Silent

  function RecommendationsResult(outcome: InvokeOutcome): (result: ClientAction)
    ensures result.Stored? <==> outcome.Returned? && HasRecommendations(outcome.data)
    ensures result.Stored? ==> result.data == outcome.data.value
    ensures result == Silent <==> outcome == NoToken
  {
    match outcome
    case NoToken => Silent
    case InvokeFailed(_) => FailureToast
    case Returned(data) => if HasRecommendations(data) then Stored(data.value) else FailureToast
  }

  /** The endpoint's fallback answer passes the client's check and is stored. */
  lemma FallbackIsStored()
    ensures RecommendationsResult(Returned(Some(Recommendations.Fallback()))) == Stored(Recommendations.Fallback())
  {
    Recommendations.FallbackShape();
  }

  /** An `{error}` body never passes the check. */
  lemma ErrorBodyNotStored(message: string)
    ensures !HasRecommendations(Some(Endpoint.ErrorBody(message)))
  {
    var fields := Endpoint.ErrorBody(message).fields;
    assert fields[..|fields| - 1] == [];
    assert |"error"| != |"recommendations"|;
  }

  /**
   * End to end: when the model's reply holds no `{ … }` span, the endpoint answers 200 with the
   * fallback, and the client stores it.
   */
  lemma ReplyWithoutObjectStillStored(content: string, parse: string -> Option<Json>)
    requires !Recommendations.HasBracePair(content)
    ensures Recommendations.Answer(Endpoint.Completed(Some(content)), parse).status == 200
    ensures RecommendationsResult(Returned(Recommendations.Answer(Endpoint.Completed(Some(content)), parse).body))
      == Stored(Recommendations.Fallback())
  {
    FallbackIsStored();
  }

  /** End to end: a completed call whose reply text is `null` also ends in the stored fallback. */
  lemma NullReplyStillStored(parse: string -> Option<Json>)
    ensures Recommendations.Answer(Endpoint.Completed(None), parse).status == 200
    ensures RecommendationsResult(Returned(Recommendations.Answer(Endpoint.Completed(None), parse).body))
      == Stored(Recommendations.Fallback())
  {
    FallbackIsStored();
  }

  // ---------------------------------------------------------------------------------------------
  // The hook's state.

  /** What leaving a step sends out. */
  datatype StepEffect =
    | SaveExpenses(expenseAction: SaveAction<ExpenseRow>)
    | SaveGoals(goalAction: SaveAction<GoalRow>)
    | AskRecommendations(request: Option<Recommendations.UserData>)
    | NoEffect

  class Wizard {
    var currentStep: int
    var expenses: seq<Expense>
    var goals: seq<Goal>

    /** The step is in range; expense and goal ids are each distinct (they come from `uuidv4()`). */
    ghost predicate Valid()
      reads this
    {
      InRange(currentStep) && DistinctBy(expenses, ExpenseId) && DistinctBy(goals, GoalId)
    }

    /** The four starter expenses and two starter goals, with empty amounts; `ids` are their six fresh identifiers. */
    constructor (ids: seq<string>)
      requires |ids| == 6
      requires forall i, j :: 0 <= i < j < 6 ==> ids[i] != ids[j]
      ensures Valid()
      ensures currentStep == 1
      ensures expenses == [
        Expense(ids[0], "Rent/Mortgage", ""), Expense(ids[1], "Utilities", ""),
        Expense(ids[2], "Groceries", ""), Expense(ids[3], "Transportation", "")]
      ensures goals == [Goal(ids[4], "Emergency Fund", "", ""), Goal(ids[5], "Vacation", "", "")]
    {
      currentStep := 1;
      expenses := [
        Expense(ids[0], "Rent/Mortgage", ""), Expense(ids[1], "Utilities", ""),
        Expense(ids[2], "Groceries", ""), Expense(ids[3], "Transportation", "")];
      goals := [Goal(ids[4], "Emergency Fund", "", ""), Goal(ids[5], "Vacation", "", "")];
    }

    predicate IsFirstStep()
      reads this
    {
      currentStep == 1
    }

    predicate IsLastStep()
      reads this
    {
      currentStep == TotalSteps
    }

    /**
     * `handleNext`: leaving step 1 saves the expenses, leaving step 3 the goals, leaving step 4
     * asks for recommendations; then the step advances unless it is the last. Failures of those
     * calls are caught, so the step advances regardless of how they end.
     */
    method HandleNext(user: Option<string>, today: string) returns (effect: StepEffect)
      requires Valid()
      modifies this
      ensures Valid()
      ensures currentStep == Next(old(currentStep))
      ensures expenses == old(expenses) && goals == old(goals)
      ensures old(currentStep) == 1 ==> effect == SaveExpenses(ExpenseSave(user, expenses, today))
      ensures old(currentStep) == 3 ==> effect == SaveGoals(GoalSave(user, goals))
      ensures old(currentStep) == TotalSteps - 1 ==> effect == AskRecommendations(RecommendationsRequest(expenses, goals))
      ensures old(currentStep) in {2, 5} ==> effect == NoEffect
    {
      effect := NoEffect;
      if currentStep == 1 {
        effect := SaveExpenses(ExpenseSave(user, expenses, today));
      }
      if currentStep == 3 {
        effect := SaveGoals(GoalSave(user, goals));
      }
      if currentStep == TotalSteps - 1 {
        effect := AskRecommendations(RecommendationsRequest(expenses, goals));
      }
      if currentStep < TotalSteps {
        currentStep := currentStep + 1;
      }
    }

    /** `handlePrev`: back one step unless at the first. */
    method HandlePrev()
      requires Valid()
      modifies this
      ensures Valid()
      ensures currentStep == Prev(old(currentStep))
      ensures expenses == old(expenses) && goals == old(goals)
    {
      if currentStep > 1 {
        currentStep := currentStep - 1;
      }
    }

    /** `updateExpense`: the named field of the expenses with that id changes; nothing else does. */
    method UpdateExpense(id: string, field: ExpenseField, value: string)
      requires Valid()
      modifies this
      ensures Valid()
      ensures expenses == UpdateWhere(old(expenses), ExpenseId, id, e => SetExpenseField(e, field, value))
      ensures currentStep == old(currentStep) && goals == old(goals)
    {
      UpdateWhereDistinct(expenses, ExpenseId, id, e => SetExpenseField(e, field, value));
      expenses := UpdateWhere(expenses, ExpenseId, id, e => SetExpenseField(e, field, value));
    }

    /** `addExpense`: one blank expense with the fresh id is appended, and returned. */
    method AddExpense(freshId: string) returns (added: Expense)
      requires Valid() && !HasKey(expenses, ExpenseId, freshId)
      modifies this
      ensures Valid()
      ensures added == Expense(freshId, "", "")
      ensures expenses == old(expenses) + [added]
      ensures currentStep == old(currentStep) && goals == old(goals)
    {
      added := Expense(freshId, "", "");
      AppendFreshDistinct(expenses, ExpenseId, added);
      expenses := expenses + [added];
    }

    /**
     * `removeExpense`: refused (with a toast) when at most one expense is left; otherwise every
     * expense with that id goes, and the list never becomes empty.
     */
    method RemoveExpense(id: string) returns (refused: bool)
      requires Valid()
      modifies this
      ensures Valid()
      ensures refused <==> |old(expenses)| <= 1
      ensures refused ==> expenses == old(expenses)
      ensures !refused ==> expenses == WithoutKey(old(expenses), ExpenseId, id)
      ensures |old(expenses)| >= 1 ==> |expenses| >= 1
      ensures currentStep == old(currentStep) && goals == old(goals)
    {
      if |expenses| <= 1 {
        return true;
      }
      WithoutKeyDistinct(expenses, ExpenseId, id);
      WithoutKeyDropsAtMostOne(expenses, ExpenseId, id);
      expenses := WithoutKey(expenses, ExpenseId, id);
      refused := false;
    }

    /** `updateGoal`: the named field of the goals with that id changes; nothing else does. */
    method UpdateGoal(id: string, field: GoalField, value: string)
      requires Valid()
      modifies this
      ensures Valid()
      ensures goals == UpdateWhere(old(goals), GoalId, id, g => SetGoalField(g, field, value))
      ensures currentStep == old(currentStep) && expenses == old(expenses)
    {
      UpdateWhereDistinct(goals, GoalId, id, g => SetGoalField(g, field, value));
      goals := UpdateWhere(goals, GoalId, id, g => SetGoalField(g, field, value));
    }

    /** `addGoal`: one blank goal with the fresh id is appended, and returned. */
    method AddGoal(freshId: string) returns (added: Goal)
      requires Valid() && !HasKey(goals, GoalId, freshId)
      modifies this
      ensures Valid()
      ensures added == Goal(freshId, "", "", "")
      ensures goals == old(goals) + [added]
      ensures currentStep == old(currentStep) && expenses == old(expenses)
    {
      added := Goal(freshId, "", "", "");
      AppendFreshDistinct(goals, GoalId, added);
      goals := goals + [added];
    }

    /** `removeGoal`: refused when at most one goal is left; otherwise every goal with that id goes. */
    method RemoveGoal(id: string) returns (refused: bool)
      requires Valid()
      modifies this
      ensures Valid()
      ensures refused <==> |old(goals)| <= 1
      ensures refused ==> goals == old(goals)
      ensures !refused ==> goals == WithoutKey(old(goals), GoalId, id)
      ensures |old(goals)| >= 1 ==> |goals| >= 1
      ensures currentStep == old(currentStep) && expenses == old(expenses)
    {
      if |goals| <= 1 {
        return true;
      }
      WithoutKeyDistinct(goals, GoalId, id);
      WithoutKeyDropsAtMostOne(goals, GoalId, id);
      goals := WithoutKey(goals, GoalId, id);
      refused := false;
    }
  }

  /** Updating an expense field touches only that field of the matching entries. */
  lemma UpdateExpenseIsLocal(expenses: seq<Expense>, id: string, field: ExpenseField, value: string)
    ensures var r := UpdateWhere(expenses, ExpenseId, id, e => SetExpenseField(e, field, value));
      && |r| == |expenses|
      && (forall i :: 0 <= i < |r| ==> r[i].id == expenses[i].id)
      && (forall i :: 0 <= i < |r| && expenses[i].id != id ==> r[i] == expenses[i])
      && (forall i :: 0 <= i < |r| && expenses[i].id == id && field == ExpenseName ==>
            r[i].name == value && r[i].amount == expenses[i].amount)
      && (forall i :: 0 <= i < |r| && expenses[i].id == id && field == ExpenseAmount ==>
            r[i].amount == value && r[i].name == expenses[i].name)
  {
    var r := UpdateWhere(expenses, ExpenseId, id, e => SetExpenseField(e, field, value));
    forall i | 0 <= i < |r| ensures r[i].id == expenses[i].id {
      if expenses[i].id == id {
        assert ExpenseId(expenses[i]) == id;
      }
    }
  }
}
