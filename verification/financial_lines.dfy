/**
 * The user's financial data as both AI endpoints embed it in a prompt
 * (supabase/functions/ai-recommendations/index.ts and supabase/functions/ai-chat/index.ts):
 * one `- name: ₹value` line per item, joined with line breaks.
 */
module FinancialLines {
  import opened Text

  /** An expense as the endpoints receive it. */
  datatype ExpenseSummary = ExpenseSummary(name: string, amount: string)

  /** A savings goal as the endpoints receive it. */
  datatype GoalSummary = GoalSummary(name: string, target: string)

  /** The Indian rupee sign. */
  const Rupee: string := "\U{20B9}"

  /** `` `- ${name}: ₹${value}` `` */
  function ItemLine(name: string, value: string): (line: string)
    ensures StartsWith(line, "- " + name + ": ")
    ensures '\n' !in name && '\n' !in value ==> '\n' !in line
  {
    var line := "- " + name + ": " + Rupee + value;
    assert line[..|"- " + name + ": "|] == "- " + name + ": ";
    line
  }

  function ExpenseLineList(expenses: seq<ExpenseSummary>): (lines: seq<string>)
    ensures |lines| == |expenses|
    ensures forall i :: 0 <= i < |expenses| ==> lines[i] == ItemLine(expenses[i].name, expenses[i].amount)
  {
    seq(|expenses|, i requires 0 <= i < |expenses| => ItemLine(expenses[i].name, expenses[i].amount))
  }

  function GoalLineList(goals: seq<GoalSummary>): (lines: seq<string>)
    ensures |lines| == |goals|
    ensures forall i :: 0 <= i < |goals| ==> lines[i] == ItemLine(goals[i].name, goals[i].target)
  {
    seq(|goals|, i requires 0 <= i < |goals| => ItemLine(goals[i].name, goals[i].target))
  }

  /** `expenses.map(exp => `- ${exp.name}: ₹${exp.amount}`).join('\n')` */
  function ExpenseLines(expenses: seq<ExpenseSummary>): string {
    JoinLines(ExpenseLineList(expenses))
  }

  /** `goals.map(goal => `- ${goal.name}: ₹${goal.target}`).join('\n')` */
  function GoalLines(goals: seq<GoalSummary>): string {
    JoinLines(GoalLineList(goals))
  }

  predicate SingleLineExpenses(expenses: seq<ExpenseSummary>) {
    forall i :: 0 <= i < |expenses| ==> '\n' !in expenses[i].name && '\n' !in expenses[i].amount
  }

  predicate SingleLineGoals(goals: seq<GoalSummary>) {
    forall i :: 0 <= i < |goals| ==> '\n' !in goals[i].name && '\n' !in goals[i].target
  }

  /**
   * The expense block has exactly one line per expense, in input order, each
   * `- name: ₹amount` (when no name or amount itself holds a line break).
   */
  lemma ExpenseLinesOnePerItem(expenses: seq<ExpenseSummary>)
    requires |expenses| >= 1 && SingleLineExpenses(expenses)
    ensures |SplitLines(ExpenseLines(expenses))| == |expenses|
    ensures forall i :: 0 <= i < |expenses| ==>
      SplitLines(ExpenseLines(expenses))[i] == ItemLine(expenses[i].name, expenses[i].amount)
  {
    SplitJoinLines(ExpenseLineList(expenses));
  }

  /** The goal block has exactly one `- name: ₹target` line per goal, in input order. */
  lemma GoalLinesOnePerItem(goals: seq<GoalSummary>)
    requires |goals| >= 1 && SingleLineGoals(goals)
    ensures |SplitLines(GoalLines(goals))| == |goals|
    ensures forall i :: 0 <= i < |goals| ==> SplitLines(GoalLines(goals))[i] == ItemLine(goals[i].name, goals[i].target)
  {
    SplitJoinLines(GoalLineList(goals));
  }
}
