/**
 * How many months of contributions reach a savings target. The application computes this twice:
 * `calculateMonths` in `SavingsGoalsStep` (src/components/onboarding/Steps.tsx) renders a label,
 * and `calculateMonths` in `NewGoalForm` (src/components/goals/NewGoalForm.tsx) returns a number
 * or `null` that the form then shows as a sentence. Both are `Math.ceil(target / monthly)`.
 */
module GoalEstimate {
  import opened Wrappers
  import opened Text
  import opened Numbers

  /** `Math.ceil(x)` on exact values. */
  function Ceil(x: real): (n: int)
    ensures n as real >= x
    ensures (n - 1) as real < x
  {
    -((-x).Floor)
  }

  /**
   * Months needed at `monthly` per month to reach `target`: the least whole number of
   * contributions whose total covers the target.
   */
  function MonthsToGoal(target: real, monthly: real): (months: int)
    requires monthly > 0.0
    ensures months as real * monthly >= target
    ensures (months - 1) as real * monthly < target
  {
    var m := Ceil(target / monthly);
    CoverBounds(target, monthly, m);
    m
  }

  lemma CoverBounds(target: real, monthly: real, m: int)
    requires monthly > 0.0
    requires m as real >= target / monthly && (m - 1) as real < target / monthly
    ensures m as real * monthly >= target
    ensures (m - 1) as real * monthly < target
  {
    var q := target / monthly;
    assert q * monthly == target;
    ScaleLe(q, m as real, monthly);
    ScaleLt((m - 1) as real, q, monthly);
  }

  lemma ScaleLe(a: real, b: real, c: real)
    requires a <= b && c > 0.0
    ensures a * c <= b * c
  {
  }

  lemma ScaleLt(a: real, b: real, c: real)
    requires a < b && c > 0.0
    ensures a * c < b * c
  {
  }

  /** No smaller number of months covers the target: `MonthsToGoal` is the minimum. */
  lemma {:induction false} MonthsToGoalIsLeast(target: real, monthly: real, k: int)
    requires monthly > 0.0
    requires k as real * monthly >= target
    ensures k >= MonthsToGoal(target, monthly)
  {
    var m := MonthsToGoal(target, monthly);
    var below, covered := (m - 1) as real * monthly, k as real * monthly;
    assert below < target <= covered;
    UnscaleLt((m - 1) as real, k as real, monthly);
  }

  lemma UnscaleLt(a: real, b: real, c: real)
    requires a * c < b * c && c > 0.0
    ensures a < b
  {
    if b <= a {
      ScaleLe(b, a, c);
    }
  }

  /** The onboarding label: `"N/A"`, or the month count followed by `" months"`. */
  function StepsLabel(target: string, monthly: string): (shown: string)
  {
    if target == "" || monthly == "" || (ParseFloat(monthly).Finite? && ParseFloat(monthly).value <= 0.0) then "N/A"
    else match (ParseFloat(target), ParseFloat(monthly))
      case (Finite(t), Finite(m)) => IntToString(MonthsToGoal(t, m)) + " months"
      case _ => "NaN months"
  }

  /**
   * The label is `"N/A"` exactly when a field is empty or the contribution is not positive;
   * with two numbers and a positive contribution it names the least covering month count.
   */
  lemma StepsLabelCases(target: string, monthly: string)
    ensures StepsLabel(target, monthly) == "N/A"
        <==> target == "" || monthly == "" || (ParseFloat(monthly).Finite? && ParseFloat(monthly).value <= 0.0)
    ensures ParseFloat(target).Finite? && ParseFloat(monthly).Finite? && ParseFloat(monthly).value > 0.0 ==>
        StepsLabel(target, monthly) == IntToString(MonthsToGoal(ParseFloat(target).value, ParseFloat(monthly).value)) + " months"
  {
    var shown := StepsLabel(target, monthly);
    if !(target == "" || monthly == "" || (ParseFloat(monthly).Finite? && ParseFloat(monthly).value <= 0.0)) {
      assert shown[|shown| - 1] == 's';
    }
  }

  /** `NewGoalForm`'s result: `null`, a month count, or `NaN` when the target is not a number. */
  datatype Months = NoEstimate | Count(n: int) | NotANumber

  function FormMonths(targetAmount: string, monthlyContribution: string): (r: Months)
    ensures r == NoEstimate <==>
      targetAmount == "" || monthlyContribution == "" ||
      (ParseFloat(monthlyContribution).Finite? && ParseFloat(monthlyContribution).value <= 0.0)
    ensures r.Count? ==> (
      && ParseFloat(monthlyContribution).Finite? && ParseFloat(monthlyContribution).value > 0.0
      && ParseFloat(targetAmount).Finite?
      && r.n == MonthsToGoal(ParseFloat(targetAmount).value, ParseFloat(monthlyContribution).value))
  {
    if targetAmount == "" || monthlyContribution == "" ||
       (ParseFloat(monthlyContribution).Finite? && ParseFloat(monthlyContribution).value <= 0.0) then NoEstimate
    else match (ParseFloat(targetAmount), ParseFloat(monthlyContribution))
      case (Finite(t), Finite(m)) => Count(MonthsToGoal(t, m))
      case _ => NotANumber
  }

  /**
   * What `{months && (<sentence/>)}` puts on the page: nothing for `null`; for a falsy number
   * (0 or `NaN`) React prints the number itself as text; otherwise the sentence with its unit.
   */
  datatype EstimateDisplay = Hidden | StrayText(text: string) | Sentence(months: int, unit: string)

  function DisplayOf(m: Months): (d: EstimateDisplay)
    ensures d.Sentence? <==> m.Count? && m.n != 0
    ensures d.Sentence? ==> d.months == m.n && (d.unit == "month" <==> m.n == 1)
    ensures d.Sentence? ==> (d.unit == "month" || d.unit == "months")
  {
    match m
    case NoEstimate => Hidden
    case NotANumber => StrayText("NaN")
    case Count(n) => if n == 0 then StrayText("0") else Sentence(n, if n == 1 then "month" else "months")
  }

  /** A zero target shows no estimate sentence; React prints a bare "0" instead. */
  lemma ZeroTargetShowsNoSentence()
    ensures FormMonths("0", "100") == Count(0)
    ensures DisplayOf(FormMonths("0", "100")) == StrayText("0")
  {
    assert ParseFloat("0") == Finite(0.0) by {
      assert IndexOf("0", '.') == None;
      assert DigitsValue("0") == 0;
    }
    assert ParseFloat("100") == Finite(100.0) by {
      assert IndexOf("100", '.') == None;
      assert "100"[..2] == "10" && "10"[..1] == "1";
      assert DigitsValue("100") == 100;
    }
    assert MonthsToGoal(0.0, 100.0) == 0 by {
      var m := MonthsToGoal(0.0, 100.0);
      MonthsToGoalIsLeast(0.0, 100.0, 0);
    }
  }
}
