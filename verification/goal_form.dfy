/**
 * The savings-goal form (src/components/goals/NewGoalForm.tsx). Submitting is split at the
 * database call: `HandleSubmit` validates and, when the form is complete, starts the insert and
 * returns the record to insert; `FinishSubmit` applies the outcome of that insert. The month
 * estimate shown under the fields is `GoalEstimate.FormMonths`.
 */
module GoalForm {
  import opened Wrappers
  import opened Numbers
  import GoalEstimate

  /** The row inserted into the `goals` table. */
  datatype GoalRecord = GoalRecord(
    id: string, userId: string, name: string, targetAmount: JsNumber,
    currentAmount: real, monthlyContribution: Option<JsNumber>)

  /** `!user || !name || !targetAmount`: the submission is refused with a "Missing information" toast. */
  predicate MissingInformation(user: Option<string>, name: string, targetAmount: string) {
    user.None? || name == "" || targetAmount == ""
  }

  /**
   * `newGoal`: a fresh id, the user, the name as typed, the parsed target, nothing saved yet, and
   * the parsed contribution, or `null` when that optional field is empty.
   */
  function Record(id: string, userId: string, name: string, targetAmount: string, monthlyContribution: string): (r: GoalRecord)
    ensures r.id == id && r.userId == userId && r.name == name
    ensures r.targetAmount == ParseFloat(targetAmount)
    ensures r.currentAmount == 0.0
    ensures r.monthlyContribution.None? <==> monthlyContribution == ""
    ensures r.monthlyContribution.Some? ==> r.monthlyContribution.value == ParseFloat(monthlyContribution)
  {
    GoalRecord(id, userId, name, ParseFloat(targetAmount), 0.0,
      if monthlyContribution != "" then Some(ParseFloat(monthlyContribution)) else None)
  }

  class Form {
    var name: string
    var targetAmount: string
    var monthlyContribution: string
    var isSubmitting: bool

    constructor ()
      ensures name == "" && targetAmount == "" && monthlyContribution == "" && !isSubmitting
    {
      name, targetAmount, monthlyContribution, isSubmitting := "", "", "", false;
    }

    method SetName(value: string)
      modifies this
      ensures name == value
      ensures targetAmount == old(targetAmount) && monthlyContribution == old(monthlyContribution)
      ensures isSubmitting == old(isSubmitting)
    {
      name := value;
    }

    method SetTargetAmount(value: string)
      modifies this
      ensures targetAmount == value
      ensures name == old(name) && monthlyContribution == old(monthlyContribution)
      ensures isSubmitting == old(isSubmitting)
    {
      targetAmount := value;
    }

    method SetMonthlyContribution(value: string)
      modifies this
      ensures monthlyContribution == value
      ensures name == old(name) && targetAmount == old(targetAmount)
      ensures isSubmitting == old(isSubmitting)
    {
      monthlyContribution := value;
    }

    /**
     * First half of `handleSubmit`: an incomplete form changes nothing and inserts nothing;
     * a complete one marks the form as submitting and yields the record, under `freshId`.
     */
    method HandleSubmit(user: Option<string>, freshId: string) returns (insert: Option<GoalRecord>)
      modifies this
      ensures insert.None? <==> MissingInformation(user, old(name), old(targetAmount))
      ensures insert.None? ==> isSubmitting == old(isSubmitting)
      ensures insert.Some? ==> isSubmitting
      ensures insert.Some? ==> insert.value == Record(freshId, user.value, name, targetAmount, monthlyContribution)
      ensures name == old(name) && targetAmount == old(targetAmount) && monthlyContribution == old(monthlyContribution)
    {
      if MissingInformation(user, name, targetAmount) {
        return None;
      }
      isSubmitting := true;
      insert := Some(Record(freshId, user.value, name, targetAmount, monthlyContribution));
    }

    /** Second half: the fields are cleared only when the insert succeeded; submitting ends either way. */
    method FinishSubmit(succeeded: bool)
      requires isSubmitting
      modifies this
      ensures !isSubmitting
      ensures succeeded ==> name == "" && targetAmount == "" && monthlyContribution == ""
      ensures succeeded ==> GoalEstimate.FormMonths(targetAmount, monthlyContribution) == GoalEstimate.NoEstimate
      ensures !succeeded ==> name == old(name) && targetAmount == old(targetAmount) && monthlyContribution == old(monthlyContribution)
    {
      if succeeded {
        name := "";
        targetAmount := "";
        monthlyContribution := "";
      }
      isSubmitting := false;
    }
  }
}
