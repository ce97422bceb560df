/** The four-step signup wizard: a step index in 0..3 moved by guarded
    next, back and indicator-jump transitions, the form's fields with a
    set-like toggle on the list of industries, the per-step validity check
    that enables the forward button, and the progress bar. */
module SignupWizard {
  import opened Text

  /** The steps are Personal Info, Professional, Job Preferences and Additional. */
  const StepCount: nat := 4
  const LastStep: nat := StepCount - 1

  /** The text fields of the form. */
  datatype Field = Name | Email | Linkedin | Role | Experience | JobType | Location | AdditionalInfo

  datatype FormData = FormData(
    name: string, email: string, linkedin: string, role: string, experience: string,
    jobType: string, location: string, industries: seq<string>, additionalInfo: string)

  /** The form as the wizard opens. */
  const EmptyForm := FormData("", "", "", "", "", "", "", [], "")

  /** The value of one text field. */
  function FieldValue(d: FormData, f: Field): string
  {
    match f
    case Name => d.name
    case Email => d.email
    case Linkedin => d.linkedin
    case Role => d.role
    case Experience => d.experience
    case JobType => d.jobType
    case Location => d.location
    case AdditionalInfo => d.additionalInfo
  }

  /** `updateFormData(field, value)`: that field takes the value; nothing else changes. */
  function UpdateFormData(d: FormData, f: Field, v: string): (r: FormData)
    ensures FieldValue(r, f) == v
    ensures forall g :: g != f ==> FieldValue(r, g) == FieldValue(d, g)
    ensures r.industries == d.industries
  {
    match f
    case Name => d.(name := v)
    case Email => d.(email := v)
    case Linkedin => d.(linkedin := v)
    case Role => d.(role := v)
    case Experience => d.(experience := v)
    case JobType => d.(jobType := v)
    case Location => d.(location := v)
    case AdditionalInfo => d.(additionalInfo := v)
  }

  /** `industries.filter(i => i !== x)`: every occurrence of `x` dropped. */
  function RemoveAll<T(==,!new)>(xs: seq<T>, x: T): (r: seq<T>)
    ensures x !in r
    ensures |r| <= |xs|
  {
    if xs == [] then []
    else
      assert xs == [xs[0]] + xs[1..];
      if xs[0] == x then RemoveAll(xs[1..], x) else [xs[0]] + RemoveAll(xs[1..], x)
  }

  /** Filtering drops exactly the copies of `x` and keeps every other item as
      many times as it occurred. */
  lemma {:induction false} RemoveAllCounts<T(!new)>(xs: seq<T>, x: T)
    ensures multiset(RemoveAll(xs, x)) == multiset(xs)[x := 0]
  {
    if xs != [] {
      RemoveAllCounts(xs[1..], x);
      assert xs == [xs[0]] + xs[1..];
    }
  }

  /** Filtering out an item that is not there changes nothing. */
  lemma {:induction false} RemoveAllAbsent<T(!new)>(xs: seq<T>, x: T)
    requires x !in xs
    ensures RemoveAll(xs, x) == xs
  {
    if xs != [] {
      RemoveAllAbsent(xs[1..], x);
      assert xs == [xs[0]] + xs[1..];
    }
  }

  /** One step of the filter: the head is kept unless it is `x`. */
  lemma RemoveAllCons<T(!new)>(h: T, t: seq<T>, x: T)
    ensures RemoveAll([h] + t, x) == (if h == x then [] else [h]) + RemoveAll(t, x)
  {
    assert ([h] + t)[0] == h && ([h] + t)[1..] == t;
  }

  /** Filtering commutes with concatenation, so the kept items stay in their order. */
  lemma {:induction false} RemoveAllAppend<T(!new)>(a: seq<T>, b: seq<T>, x: T)
    ensures RemoveAll(a + b, x) == RemoveAll(a, x) + RemoveAll(b, x)
  {
    if a == [] {
      assert a + b == b;
    } else {
      var h, t := a[0], a[1..];
      RemoveAllAppend(t, b, x);
      assert a == [h] + t && a + b == [h] + (t + b);
      RemoveAllCons(h, t, x);
      RemoveAllCons(h, t + b, x);
      var kept := if h == x then [] else [h];
      assert kept + (RemoveAll(t, x) + RemoveAll(b, x)) == (kept + RemoveAll(t, x)) + RemoveAll(b, x);
    }
  }

  /** `toggleIndustry(x)`: an industry already chosen is removed (every copy of
      it), one not chosen is added at the end. */
  function ToggleIndustry(xs: seq<string>, x: string): (r: seq<string>)
    ensures x in r <==> x !in xs
    ensures forall y :: y != x ==> (y in r <==> y in xs)
    ensures x !in xs ==> r == xs + [x]
    ensures x in xs ==> multiset(r) == multiset(xs)[x := 0]
  {
    if x in xs then
      var r := RemoveAll(xs, x);
      RemoveAllCounts(xs, x);
      assert forall y :: y in r <==> multiset(r)[y] > 0;
      r
    else xs + [x]
  }

  /** Ticking an unticked industry and unticking it again restores the list. */
  lemma ToggleTwiceRestores(xs: seq<string>, x: string)
    requires x !in xs
    ensures ToggleIndustry(ToggleIndustry(xs, x), x) == xs
  {
    RemoveAllAppend(xs, [x], x);
    RemoveAllAbsent(xs, x);
    assert RemoveAll([x], x) == [];
  }

  /** Unticking a ticked industry and ticking it again moves it to the end
      (and drops any duplicates of it). */
  lemma ToggleTwiceMoves(xs: seq<string>, x: string)
    requires x in xs
    ensures ToggleIndustry(ToggleIndustry(xs, x), x) == RemoveAll(xs, x) + [x]
  {
  }

  /** `isStepValid`: what each step needs before the forward button is enabled. */
  function IsStepValid(step: nat, d: FormData): (b: bool)
    ensures step == 0 ==> (b <==> !Blank(d.name, JavaScript) && !Blank(d.email, JavaScript))
    ensures step == 1 ==> (b <==> !Blank(d.role, JavaScript) && d.experience != "")
    ensures step == 2 ==> (b <==> d.jobType != "")
    ensures step >= 3 ==> b
  {
    match step
    case 0 => Trim(d.name, JavaScript) != "" && Trim(d.email, JavaScript) != ""
    case 1 => Trim(d.role, JavaScript) != "" && d.experience != ""
    case 2 => d.jobType != ""
    case _ => true
  }

  /** The optional fields (LinkedIn, location, additional information) and
      the industries never decide whether a step is valid. */
  lemma OptionalFieldsIgnored(step: nat, d: FormData, f: Field, v: string, industries: seq<string>)
    requires f == Linkedin || f == Location || f == AdditionalInfo
    ensures IsStepValid(step, UpdateFormData(d, f, v)) == IsStepValid(step, d)
    ensures IsStepValid(step, d.(industries := industries)) == IsStepValid(step, d)
  {
  }

  /** Width of the progress bar, in percent. */
  function ProgressPercent(step: nat): (p: real)
    requires step <= LastStep
    ensures 0.0 <= p <= 100.0
    ensures p == 0.0 <==> step == 0
    ensures p == 100.0 <==> step == LastStep
  {
    (step as real / (StepCount - 1) as real) * 100.0
  }

  /** The bar grows strictly with the step. */
  lemma ProgressIncreases(s: nat, t: nat)
    requires s < t <= LastStep
    ensures ProgressPercent(s) < ProgressPercent(t)
  {
  }

  /** The wizard's state: the step shown, whether a submission is in flight,
      the form, and whether it has been closed. */
  class Wizard {
    var currentStep: nat
    var isSubmitting: bool
    var formData: FormData
    var closed: bool

    predicate Valid()
      reads this
    {
      currentStep <= LastStep
    }

    /** The forward button is enabled: the step is valid and nothing is being submitted. */
    function ForwardEnabled(): (b: bool)
      reads this
      ensures b ==> !isSubmitting
      ensures b <==> IsStepValid(currentStep, formData) && !isSubmitting
    {
      IsStepValid(currentStep, formData) && !isSubmitting
    }

    /** What enables the forward button: never while a submission is in
        flight; on the last step exactly when none is; on the earlier steps
        only once that step's required fields are filled in. */
    lemma ForwardGuards()
      ensures isSubmitting ==> !ForwardEnabled()
      ensures currentStep >= LastStep ==> (ForwardEnabled() <==> !isSubmitting)
      ensures currentStep == 0 && ForwardEnabled() ==> !Blank(formData.name, JavaScript) && !Blank(formData.email, JavaScript)
      ensures currentStep == 1 && ForwardEnabled() ==> !Blank(formData.role, JavaScript) && formData.experience != ""
      ensures currentStep == 2 && ForwardEnabled() ==> formData.jobType != ""
    {
    }

    constructor ()
      ensures Valid()
      ensures currentStep == 0 && !isSubmitting && formData == EmptyForm && !closed
    {
      currentStep := 0;
      isSubmitting := false;
      formData := EmptyForm;
      closed := false;
    }

    /** `nextStep`: one step forward unless on the last; validity is not checked here. */
    method NextStep()
      requires Valid()
      modifies this
      ensures Valid()
      ensures old(currentStep) < LastStep ==> currentStep == old(currentStep) + 1
      ensures old(currentStep) == LastStep ==> currentStep == old(currentStep)
      ensures isSubmitting == old(isSubmitting) && formData == old(formData) && closed == old(closed)
    {
      if currentStep < StepCount - 1 {
        currentStep := currentStep + 1;
      }
    }

    /** `prevStep`: one step back unless on the first (the back button is also disabled there). */
    method PrevStep()
      requires Valid()
      modifies this
      ensures Valid()
      ensures old(currentStep) > 0 ==> currentStep == old(currentStep) - 1
      ensures old(currentStep) == 0 ==> currentStep == 0
      ensures isSubmitting == old(isSubmitting) && formData == old(formData) && closed == old(closed)
    {
      if currentStep > 0 {
        currentStep := currentStep - 1;
      }
    }

    /** A click on the progress dot of step `index`: only the current step and
        the ones before it can be jumped to. */
    method JumpTo(index: nat)
      requires Valid() && index < StepCount
      modifies this
      ensures Valid()
      ensures index <= old(currentStep) ==> currentStep == index
      ensures index > old(currentStep) ==> currentStep == old(currentStep)
      ensures currentStep <= old(currentStep)
      ensures isSubmitting == old(isSubmitting) && formData == old(formData) && closed == old(closed)
    {
      if index <= currentStep {
        currentStep := index;
      }
    }

    /** A text input or select changes one field of the form. */
    method Update(f: Field, v: string)
      modifies this
      ensures formData == UpdateFormData(old(formData), f, v)
      ensures currentStep == old(currentStep) && isSubmitting == old(isSubmitting) && closed == old(closed)
    {
      formData := UpdateFormData(formData, f, v);
    }

    /** One `toggleIndustry` call. The industry's row and its checkbox are
        both wired to it; when one click reaches both, the list takes two
        toggles (ToggleTwiceRestores, ToggleTwiceMoves). */
    method ToggleIndustryClick(industry: string)
      modifies this
      ensures formData == old(formData).(industries := ToggleIndustry(old(formData).industries, industry))
      ensures currentStep == old(currentStep) && isSubmitting == old(isSubmitting) && closed == old(closed)
    {
      var industries := formData.industries;
      if industry in industries {
        formData := formData.(industries := RemoveAll(industries, industry));
      } else {
        formData := formData.(industries := industries + [industry]);
      }
    }

    /** `handleSubmit`: a submission starts; the timer that ends it is `SubmitTimerFired`. */
    method HandleSubmit()
      modifies this
      ensures isSubmitting
      ensures currentStep == old(currentStep) && formData == old(formData) && closed == old(closed)
    {
      isSubmitting := true;
    }

    /** The simulated submission completes: the wizard is closed. */
    method SubmitTimerFired()
      modifies this
      ensures !isSubmitting && closed
      ensures currentStep == old(currentStep) && formData == old(formData)
    {
      isSubmitting := false;
      closed := true;
    }

    /** A click on the forward button: nothing while it is disabled; on the
        last step it submits, on the others it advances. */
    method ForwardClick()
      requires Valid()
      modifies this
      ensures Valid()
      ensures !old(ForwardEnabled()) ==>
                currentStep == old(currentStep) && isSubmitting == old(isSubmitting)
      ensures old(ForwardEnabled()) && old(currentStep) == LastStep ==>
                currentStep == LastStep && isSubmitting
      ensures old(ForwardEnabled()) && old(currentStep) < LastStep ==>
                currentStep == old(currentStep) + 1 && !isSubmitting
      ensures formData == old(formData) && closed == old(closed)
    {
      if !(IsStepValid(currentStep, formData) && !isSubmitting) {
        return;
      }
      if currentStep == StepCount - 1 {
        HandleSubmit();
      } else {
        NextStep();
      }
    }
  }
}
