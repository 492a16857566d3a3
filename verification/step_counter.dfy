/**
 * The five-step onboarding counter (`OnboardingSteps` in src/components/onboarding/Steps.tsx;
 * the wizard hook in OnboardingStepsHandler.tsx moves its own counter with the same rules).
 * Steps are numbered 1 to `TotalSteps`; "next" stops at the last step and "previous" at the first.
 */
module StepCounter {

  const TotalSteps: int := 5

  predicate InRange(step: int) { 1 <= step <= TotalSteps }

  /** `if (currentStep < totalSteps) setCurrentStep(currentStep + 1)`. */
  function Next(step: int): (r: int)
    ensures InRange(step) ==> InRange(r)
    ensures r == step || r == step + 1
    ensures r == step + 1 <==> step < TotalSteps
  {
    if step < TotalSteps then step + 1 else step
  }

  /** `if (currentStep > 1) setCurrentStep(currentStep - 1)`. */
  function Prev(step: int): (r: int)
    ensures InRange(step) ==> InRange(r)
    ensures r == step || r == step - 1
    ensures r == step - 1 <==> step > 1
  {
    if step > 1 then step - 1 else step
  }

  /** Within range, "previous" undoes "next" except at the last step, and vice versa. */
  lemma NextPrevInverse(step: int)
    requires InRange(step)
    ensures step < TotalSteps ==> Prev(Next(step)) == step
    ensures step > 1 ==> Next(Prev(step)) == step
  {
  }

  /** `k` presses of "next". */
  function NextTimes(step: int, k: nat): int {
    if k == 0 then step else Next(NextTimes(step, k - 1))
  }

  /** `k` presses of "next" from any in-range step reach `step + k`, capped at the last step. */
  lemma {:induction false} NextTimesCaps(step: int, k: nat)
    requires InRange(step)
    ensures NextTimes(step, k) == if step + k <= TotalSteps then step + k else TotalSteps
  {
    if k > 0 {
      NextTimesCaps(step, k - 1);
    }
  }

  /** Which step is shown for a counter value (`StepComponent`'s switch, with its default). */
  datatype StepView = ExpensesView | BankLinkView | SavingsGoalsView | AssistantView | SuccessView

  function ViewOf(step: int): (v: StepView)
    ensures step == 1 ==> v == ExpensesView
    ensures step == 2 ==> v == BankLinkView
    ensures step == 3 ==> v == SavingsGoalsView
    ensures step == 4 ==> v == AssistantView
    ensures step == 5 ==> v == SuccessView
    ensures !InRange(step) ==> v == ExpensesView
  {
    if step == 2 then BankLinkView
    else if step == 3 then SavingsGoalsView
    else if step == 4 then AssistantView
    else if step == 5 then SuccessView
    else ExpensesView
  }

  /** Each of the five steps shows its own view. */
  lemma ViewOfInjective(a: int, b: int)
    requires InRange(a) && InRange(b) && a != b
    ensures ViewOf(a) != ViewOf(b)
  {
  }

  /** The counter state of the `OnboardingSteps` component. */
  class OnboardingSteps {
    var currentStep: int

    ghost predicate Valid()
      reads this
    {
      InRange(currentStep)
    }

    constructor ()
      ensures Valid() && currentStep == 1
    {
      currentStep := 1;
    }

    predicate IsFirstStep()
      reads this
    {
      currentStep == 1
    }

    predicate IsLastStep()
      reads this
    {
      currentStep == TotalSteps
    }

    method HandleNext()
      requires Valid()
      modifies this
      ensures Valid()
      ensures currentStep == Next(old(currentStep))
      ensures old(IsLastStep()) <==> currentStep == old(currentStep)
    {
      if currentStep < TotalSteps {
        currentStep := currentStep + 1;
      }
    }

    method HandlePrev()
      requires Valid()
      modifies this
      ensures Valid()
      ensures currentStep == Prev(old(currentStep))
      ensures old(IsFirstStep()) <==> currentStep == old(currentStep)
    {
      if currentStep > 1 {
        currentStep := currentStep - 1;
      }
    }
  }
}
