/**
 * HowToPlayUIController: the tutorial's three panels, one shown at a time, stepped through with
 * "next" and "previous" buttons that stop at the ends.
 */
module HowToPlayUI {

  import opened Numerics

  const FirstStep := 1
  const LastStep := 3

  /** The panel that "next" leads to from `step`: one further, but never past the last. */
  function NextStep(step: int): (next: int)
    ensures FirstStep <= next <= LastStep
    ensures FirstStep <= step < LastStep ==> next == step + 1
    ensures step >= LastStep ==> next == LastStep
    ensures step < FirstStep ==> next == FirstStep
  {
    ClampInt(if step + 1 > LastStep then LastStep else step + 1, FirstStep, LastStep)
  }

  /** The panel that "previous" leads to from `step`: one back, but never before the first. */
  function PrevStep(step: int): (prev: int)
    ensures FirstStep <= prev <= LastStep
    ensures FirstStep < step <= LastStep ==> prev == step - 1
    ensures step <= FirstStep ==> prev == FirstStep
    ensures step > LastStep ==> prev == LastStep
  {
    ClampInt(if step - 1 < FirstStep then FirstStep else step - 1, FirstStep, LastStep)
  }

  /** On the steps the screen can show, "next" then "previous" comes back, except from the last. */
  lemma NextThenPrev(step: int)
    requires FirstStep <= step < LastStep
    ensures PrevStep(NextStep(step)) == step
  {
  }

  /** Likewise "previous" then "next" comes back, except from the first. */
  lemma PrevThenNext(step: int)
    requires FirstStep < step <= LastStep
    ensures NextStep(PrevStep(step)) == step
  {
  }

  /** Two clicks of "next" from anywhere reach the last panel, which "next" then keeps. */
  lemma NextReachesLast(step: int)
    requires FirstStep <= step
    ensures NextStep(NextStep(step)) == LastStep
    ensures NextStep(LastStep) == LastStep
  {
  }

  class HowToPlayUIController {
    var currentStep: int
    var step1Active: bool
    var step2Active: bool
    var step3Active: bool

    /** Exactly one panel is shown, the one numbered by the current step, which is 1, 2 or 3. */
    ghost predicate Valid()
      reads this
    {
      && FirstStep <= currentStep <= LastStep
      && (step1Active <==> currentStep == 1)
      && (step2Active <==> currentStep == 2)
      && (step3Active <==> currentStep == 3)
    }

    /** The panels' activity as the scene was saved; the step counter starts at 1. */
    constructor (step1Active: bool, step2Active: bool, step3Active: bool)
      ensures currentStep == 1
      ensures this.step1Active == step1Active && this.step2Active == step2Active && this.step3Active == step3Active
    {
      currentStep := 1;
      this.step1Active := step1Active;
      this.step2Active := step2Active;
      this.step3Active := step3Active;
    }

    method Start()
      modifies this
      ensures Valid() && currentStep == 1 && step1Active && !step2Active && !step3Active
    {
      ShowStep(1);
    }

    /** Shows panel `step`, pulled into 1..3 first. */
    method ShowStep(step: int)
      modifies this
      ensures Valid()
      ensures currentStep == ClampInt(step, FirstStep, LastStep)
    {
      currentStep := ClampInt(step, FirstStep, LastStep);

      step1Active := currentStep == 1;
      step2Active := currentStep == 2;
      step3Active := currentStep == 3;
    }

    method OnClickNextStep()
      modifies this
      ensures Valid()
      ensures currentStep == NextStep(old(currentStep))
      ensures old(Valid()) ==> currentStep == (if old(currentStep) == LastStep then LastStep else old(currentStep) + 1)
    {
      var next := currentStep + 1;
      if next > 3 {
        next := 3;
      }
      ShowStep(next);
    }

    method OnClickPrevStep()
      modifies this
      ensures Valid()
      ensures currentStep == PrevStep(old(currentStep))
      ensures old(Valid()) ==> currentStep == (if old(currentStep) == FirstStep then FirstStep else old(currentStep) - 1)
    {
      var prev := currentStep - 1;
      if prev < 1 {
        prev := 1;
      }
      ShowStep(prev);
    }
  }
}
