/**
 * HowToPlaySceneManager: the tutorial's three panels driven by an enum step. Before Start the step is
 * the enum's zero value, which names no step, so the buttons do nothing until Start has shown STEP1.
 */
module HowToPlayScene {

  import opened Wrappers
  import HowToPlayUI

  datatype HowToStep = Step1 | Step2 | Step3

  /** The enum's underlying number. */
  function StepNumber(step: HowToStep): (n: int)
    ensures 1 <= n <= 3
  {
    match step
    case Step1 => 1
    case Step2 => 2
    case Step3 => 3
  }

  /** The step "next" leads to: Step1 to Step2, Step2 to Step3, Step3 stays. */
  function Next(step: HowToStep): (next: HowToStep)
    ensures step != Step3 ==> StepNumber(next) == StepNumber(step) + 1
    ensures step == Step3 ==> next == Step3
  {
    match step
    case Step1 => Step2
    case Step2 => Step3
    case Step3 => Step3
  }

  /** The step "back" leads to: Step3 to Step2, Step2 to Step1, Step1 stays. */
  function Back(step: HowToStep): (back: HowToStep)
    ensures step != Step1 ==> StepNumber(back) == StepNumber(step) - 1
    ensures step == Step1 ==> back == Step1
  {
    match step
    case Step1 => Step1
    case Step2 => Step1
    case Step3 => Step2
  }

  /** "Next" then "back" returns to where it started, except from Step3. */
  lemma NextThenBack(step: HowToStep)
    requires step != Step3
    ensures Back(Next(step)) == step
  {
  }

  /** "Back" then "next" returns to where it started, except from Step1. */
  lemma BackThenNext(step: HowToStep)
    requires step != Step1
    ensures Next(Back(step)) == step
  {
  }

  /** The enum tutorial and the numbered one (HowToPlayUIController) step the same way. */
  lemma StepsAgreeWithNumberedTutorial(step: HowToStep)
    ensures StepNumber(Next(step)) == HowToPlayUI.NextStep(StepNumber(step))
    ensures StepNumber(Back(step)) == HowToPlayUI.PrevStep(StepNumber(step))
  {
  }

  class HowToPlaySceneManager {
    /** None is the enum's zero value before Start. */
    var currentStep: Option<HowToStep>
    var step1Active: bool
    var step2Active: bool
    var step3Active: bool

    /** A step is set and exactly its panel is shown. */
    ghost predicate Valid()
      reads this
    {
      && currentStep.Some?
      && (step1Active <==> currentStep.value == Step1)
      && (step2Active <==> currentStep.value == Step2)
      && (step3Active <==> currentStep.value == Step3)
    }

    /** The panels' activity as the scene was saved. */
    constructor (step1Active: bool, step2Active: bool, step3Active: bool)
      ensures currentStep == None
      ensures this.step1Active == step1Active && this.step2Active == step2Active && this.step3Active == step3Active
    {
      currentStep := None;
      this.step1Active := step1Active;
      this.step2Active := step2Active;
      this.step3Active := step3Active;
    }

    method Start()
      modifies this
      ensures Valid() && currentStep == Some(Step1)
    {
      ShowStep(Step1);
    }

    method ShowStep(step: HowToStep)
      modifies this
      ensures Valid() && currentStep == Some(step)
    {
      currentStep := Some(step);

      step1Active := step == Step1;
      step2Active := step == Step2;
      step3Active := step == Step3;
    }

    /** Does nothing before Start; afterwards moves to Next of the current step. */
    method OnClickNextStep()
      modifies this
      ensures old(currentStep).None? || old(currentStep) == Some(Step3) ==> unchanged(this)
      ensures old(currentStep).Some? && old(currentStep) != Some(Step3) ==>
        Valid() && currentStep == Some(Next(old(currentStep).value))
      ensures old(Valid()) ==> Valid() && currentStep == Some(Next(old(currentStep).value))
    {
      if currentStep == Some(Step1) {
        ShowStep(Step2);
      } else if currentStep == Some(Step2) {
        ShowStep(Step3);
      }
    }

    /** Does nothing before Start; afterwards moves to Back of the current step. */
    method OnClickBackStep()
      modifies this
      ensures old(currentStep).None? || old(currentStep) == Some(Step1) ==> unchanged(this)
      ensures old(currentStep).Some? && old(currentStep) != Some(Step1) ==>
        Valid() && currentStep == Some(Back(old(currentStep).value))
      ensures old(Valid()) ==> Valid() && currentStep == Some(Back(old(currentStep).value))
    {
      if currentStep == Some(Step3) {
        ShowStep(Step2);
      } else if currentStep == Some(Step2) {
        ShowStep(Step1);
      }
    }
  }
}
