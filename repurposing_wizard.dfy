/** The repurposing wizard's state machine: the current step among five in a
    fixed order, the partially filled form, the guards on moving forward and
    on submitting, and the option handlers that each set one field. */
module RepurposingWizard {
  import opened Wrappers
  import opened RepurposingTypes

  datatype Step = GoalStep | PlatformStep | ToneStep | VisualStep | ReviewStep

  /** `steps`, in the order the wizard walks them. */
  const Steps: seq<Step> := [GoalStep, PlatformStep, ToneStep, VisualStep, ReviewStep]

  /** `Partial<RepurposingFormData>`: every field may still be missing. */
  datatype FormData = FormData(
    goal: Option<Goal>, targetPlatform: Option<Platform>, tone: Option<Tone>,
    visualPreference: Option<Visual>, targetLanguage: Option<string>,
    customInstructions: Option<string>)

  const EmptyForm := FormData(None, None, None, None, None, None)

  /** `steps.indexOf(step)`. */
  function IndexOf(step: Step): (i: nat)
    ensures i < |Steps| && Steps[i] == step
  {
    match step
    case GoalStep => 0
    case PlatformStep => 1
    case ToneStep => 2
    case VisualStep => 3
    case ReviewStep => 4
  }

  /** The step after `step`, or `step` itself at review. */
  function Next(step: Step): Step {
    if IndexOf(step) + 1 < |Steps| then Steps[IndexOf(step) + 1] else step
  }

  /** The step before `step`, or `step` itself at goal. */
  function Back(step: Step): Step {
    if IndexOf(step) - 1 >= 0 then Steps[IndexOf(step) - 1] else step
  }

  /** Every step has its own place: the order has no repeats. */
  lemma StepsDistinct(i: int, j: int)
    requires 0 <= i < |Steps| && 0 <= j < |Steps| && Steps[i] == Steps[j]
    ensures i == j
  {
  }

  /** Moving forward goes one step along the order and stops at review;
      moving back goes one step against it and stops at goal. */
  lemma NextBackSteps(step: Step)
    ensures IndexOf(Next(step)) == if IndexOf(step) < 4 then IndexOf(step) + 1 else 4
    ensures IndexOf(Back(step)) == if IndexOf(step) > 0 then IndexOf(step) - 1 else 0
    ensures step != ReviewStep ==> Back(Next(step)) == step
    ensures step != GoalStep ==> Next(Back(step)) == step
  {
    var i := IndexOf(step);
    if i + 1 < |Steps| {
      assert IndexOf(Steps[i + 1]) == i + 1;
    }
    if i > 0 {
      assert IndexOf(Steps[i - 1]) == i - 1;
    }
  }

  /** Four moves forward from the start visit the steps in their order. */
  lemma WalkForward()
    ensures Next(GoalStep) == PlatformStep && Next(PlatformStep) == ToneStep
    ensures Next(ToneStep) == VisualStep && Next(VisualStep) == ReviewStep
    ensures Next(ReviewStep) == ReviewStep && Back(GoalStep) == GoalStep
  {
  }

  /** `canProceed` for a step and a form. */
  function CanProceedAt(step: Step, form: FormData): (ok: bool)
    ensures step == ReviewStep ==> ok
    ensures step == GoalStep ==> (ok <==> form.goal.Some?)
    ensures step == PlatformStep ==> (ok <==> form.targetPlatform.Some?)
    ensures step == ToneStep ==> (ok <==> form.tone.Some?)
    ensures step == VisualStep ==> (ok <==> form.visualPreference.Some?)
  {
    match step
    case GoalStep => form.goal.Some?
    case PlatformStep => form.targetPlatform.Some?
    case ToneStep => form.tone.Some?
    case VisualStep => form.visualPreference.Some?
    case ReviewStep => true
  }

  /** The four choices `handleSubmit` requires. */
  predicate Complete(form: FormData) {
    form.goal.Some? && form.targetPlatform.Some? && form.tone.Some? && form.visualPreference.Some?
  }

  /** A form that could get past every step is one that can be submitted. */
  lemma ProceedEverywhereIsComplete(form: FormData)
    ensures (forall i :: 0 <= i < |Steps| ==> CanProceedAt(Steps[i], form)) <==> Complete(form)
  {
    assert (CanProceedAt(Steps[0], form) && CanProceedAt(Steps[1], form) && CanProceedAt(Steps[2], form) &&
            CanProceedAt(Steps[3], form)) <==> Complete(form);
  }

  class Wizard {
    var currentStep: Step
    var formData: FormData

    /** The wizard opens at the goal step with an empty form. */
    constructor()
      ensures currentStep == GoalStep && formData == EmptyForm
    {
      currentStep := GoalStep;
      formData := EmptyForm;
    }

    function CanProceed(): (ok: bool)
      reads this
      ensures ok <==> currentStep == ReviewStep ||
                      (currentStep == GoalStep && formData.goal.Some?) ||
                      (currentStep == PlatformStep && formData.targetPlatform.Some?) ||
                      (currentStep == ToneStep && formData.tone.Some?) ||
                      (currentStep == VisualStep && formData.visualPreference.Some?)
    {
      CanProceedAt(currentStep, formData)
    }

    method HandleNext()
      modifies this
      ensures currentStep == Next(old(currentStep)) && formData == old(formData)
    {
      var nextIndex := IndexOf(currentStep) + 1;
      if nextIndex < |Steps| {
        currentStep := Steps[nextIndex];
      }
    }

    method HandleBack()
      modifies this
      ensures currentStep == Back(old(currentStep)) && formData == old(formData)
    {
      var prevIndex := IndexOf(currentStep) - 1;
      if prevIndex >= 0 {
        currentStep := Steps[prevIndex];
      }
    }

    /** The form handed to `onGenerate`, if the four choices are made. */
    method HandleSubmit() returns (generated: Option<FormData>)
      ensures generated.Some? <==> formData.goal.Some? && formData.targetPlatform.Some? &&
                                   formData.tone.Some? && formData.visualPreference.Some?
      ensures generated.Some? ==> generated.value == formData
    {
      if formData.goal.Some? && formData.targetPlatform.Some? && formData.tone.Some? && formData.visualPreference.Some? {
        generated := Some(formData);
      } else {
        generated := None;
      }
    }

    method ChooseGoal(g: Goal)
      modifies this
      ensures formData == old(formData).(goal := Some(g)) && currentStep == old(currentStep)
    {
      formData := formData.(goal := Some(g));
    }

    method ChooseLanguage(language: string)
      modifies this
      ensures formData == old(formData).(targetLanguage := Some(language)) && currentStep == old(currentStep)
    {
      formData := formData.(targetLanguage := Some(language));
    }

    method ChoosePlatform(p: Platform)
      modifies this
      ensures formData == old(formData).(targetPlatform := Some(p)) && currentStep == old(currentStep)
    {
      formData := formData.(targetPlatform := Some(p));
    }

    method ChooseTone(t: Tone)
      modifies this
      ensures formData == old(formData).(tone := Some(t)) && currentStep == old(currentStep)
    {
      formData := formData.(tone := Some(t));
    }

    method ChooseVisual(v: Visual)
      modifies this
      ensures formData == old(formData).(visualPreference := Some(v)) && currentStep == old(currentStep)
    {
      formData := formData.(visualPreference := Some(v));
    }

    method SetInstructions(text: string)
      modifies this
      ensures formData == old(formData).(customInstructions := Some(text)) && currentStep == old(currentStep)
    {
      formData := formData.(customInstructions := Some(text));
    }
  }

  /** Walking the wizard from the start and choosing an option at each of the
      first four steps makes the form submittable at review. */
  method FillIn(g: Goal, p: Platform, t: Tone, v: Visual) returns (w: Wizard, generated: Option<FormData>)
    ensures w.currentStep == ReviewStep
    ensures generated == Some(FormData(Some(g), Some(p), Some(t), Some(v), None, None))
  {
    w := new Wizard();
    w.ChooseGoal(g);
    assert w.CanProceed();
    w.HandleNext();
    w.ChoosePlatform(p);
    w.HandleNext();
    w.ChooseTone(t);
    w.HandleNext();
    w.ChooseVisual(v);
    w.HandleNext();
    generated := w.HandleSubmit();
  }
}
