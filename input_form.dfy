/** frontend/src/pages/Assessment/InputForm.tsx: the three-step assessment
    wizard. Step 1 asks for name, dwellers, phone and email; step 2 for roof
    area, open space, roof type and soil type; step 3 for address, latitude,
    longitude and rainfall. `fetch`, `localStorage` and `navigate` are
    parameters and results. */
module InputForm {
  import opened Js
  import opened AssessmentRecord

  /** The step whose section renders the input of a field. */
  function StepOf(f: Field): (s: int)
    ensures 1 <= s <= 3
  {
    match f
    case Name | Dwellers | Phone | Email => 1
    case RoofArea | OpenSpace | RoofType | SoilType => 2
    case Address | Latitude | Longitude | Rainfall => 3
  }

  /** `isStepValid()`: the truthiness of the `&&` chain of the step's
      trimmed fields; false for any other step number. */
  predicate IsStepValid(step: int, form: Form)
    ensures IsStepValid(step, form) ==> 1 <= step <= 3
  {
    if step == 1 then
      Filled(form.name) && Filled(form.dwellers) && Filled(form.phone) && Filled(form.email)
    else if step == 2 then
      Filled(form.roofArea) && Filled(form.openSpace) && Filled(form.roofType) && Filled(form.soilType)
    else if step == 3 then
      Filled(form.address) && Filled(form.latitude) && Filled(form.longitude) && Filled(form.rainfall)
    else false
  }

  /** The fields of each step. */
  lemma FieldsOfStep(f: Field)
    ensures StepOf(f) == 1 <==> f == Name || f == Dwellers || f == Phone || f == Email
    ensures StepOf(f) == 2 <==> f == RoofArea || f == OpenSpace || f == RoofType || f == SoilType
    ensures StepOf(f) == 3 <==> f == Address || f == Latitude || f == Longitude || f == Rainfall
  {
  }

  /** `x.trim()` is truthy. */
  predicate Filled(s: string)
  {
    Trim(s) != ""
  }

  lemma FilledIff(s: string)
    ensures Filled(s) <==> !IsBlank(s)
  {
    TrimEmptyIffBlank(s);
  }

  lemma ValidStepFilled(step: int, form: Form, f: Field)
    requires IsStepValid(step, form) && StepOf(f) == step
    ensures !IsBlank(Get(form, f))
  {
    FieldsOfStep(f);
    FilledIff(Get(form, f));
  }

  lemma FillFour(form: Form, a: Field, b: Field, c: Field, d: Field)
    requires !IsBlank(Get(form, a)) && !IsBlank(Get(form, b)) && !IsBlank(Get(form, c)) && !IsBlank(Get(form, d))
    ensures Filled(Get(form, a)) && Filled(Get(form, b)) && Filled(Get(form, c)) && Filled(Get(form, d))
  {
    FilledIff(Get(form, a));
    FilledIff(Get(form, b));
    FilledIff(Get(form, c));
    FilledIff(Get(form, d));
  }

  lemma FilledStepValid(step: int, form: Form)
    requires 1 <= step <= 3 && forall f :: StepOf(f) == step ==> !IsBlank(Get(form, f))
    ensures IsStepValid(step, form)
  {
    if step == 1 {
      FillFour(form, Name, Dwellers, Phone, Email);
    } else if step == 2 {
      FillFour(form, RoofArea, OpenSpace, RoofType, SoilType);
    } else {
      FillFour(form, Address, Latitude, Longitude, Rainfall);
    }
  }

  /** A step is valid exactly when it is one of the three and none of its
      fields is empty or whitespace only. */
  lemma StepValidIff(step: int, form: Form)
    ensures IsStepValid(step, form) <==>
      1 <= step <= 3 && forall f :: StepOf(f) == step ==> !IsBlank(Get(form, f))
  {
    if IsStepValid(step, form) {
      forall f | StepOf(f) == step ensures !IsBlank(Get(form, f)) {
        ValidStepFilled(step, form, f);
      }
    } else if 1 <= step <= 3 && forall f :: StepOf(f) == step ==> !IsBlank(Get(form, f)) {
      FilledStepValid(step, form);
    }
  }

  /** Every field holds something other than whitespace. */
  predicate Complete(form: Form)
  {
    forall f :: !IsBlank(Get(form, f))
  }

  /** A form whose three steps are valid is complete. */
  lemma AllStepsValidComplete(form: Form)
    requires IsStepValid(1, form) && IsStepValid(2, form) && IsStepValid(3, form)
    ensures Complete(form)
  {
    StepValidIff(1, form);
    StepValidIff(2, form);
    StepValidIff(3, form);
    forall f ensures !IsBlank(Get(form, f)) {
      assert StepOf(f) in {1, 2, 3};
    }
  }

  /** Editing a field of one step leaves the validity of the others alone. */
  lemma EditKeepsOtherSteps(form: Form, f: Field, value: string, step: int)
    requires step != StepOf(f)
    ensures IsStepValid(step, With(form, f, value)) == IsStepValid(step, form)
  {
    StepValidIff(step, form);
    StepValidIff(step, With(form, f, value));
  }

  const AssessmentsUrl := "http://localhost:5000/api/assessments"
  const ResultsRoute := "/results"

  /** `${token}`: a missing token renders as "null". */
  function TokenText(token: Option<string>): (t: string)
    ensures token.Some? ==> t == token.value
    ensures token.None? ==> t == "null"
  {
    if token.Some? then token.value else "null"
  }

  /** The POST the last step sends. */
  datatype PostRequest = PostRequest(url: string, httpMethod: string, headers: map<string, string>, body: Json)

  function SubmitRequest(form: Form, token: Option<string>): (r: PostRequest)
    ensures r.url == AssessmentsUrl && r.httpMethod == "POST"
    ensures r.headers.Keys == {"Content-Type", "Authorization"}
    ensures r.headers["Content-Type"] == "application/json"
    ensures r.headers["Authorization"] == "Bearer " + TokenText(token)
    ensures r.body == JObj(ToBody(form))
  {
    PostRequest(AssessmentsUrl, "POST",
      map["Content-Type" := "application/json", "Authorization" := "Bearer " + TokenText(token)],
      JObj(ToBody(form)))
  }

  /** How a stepper badge is drawn. */
  datatype Badge = Current | Done | Pending

  class AssessmentWizard {
    var currentStep: int
    var form: Form

    /** The step is one of the three, and every step before it is valid:
        the inputs of a step are only rendered on that step, and the wizard
        only advances past a valid one. */
    predicate Valid()
      reads this
    {
      1 <= currentStep <= 3 &&
      forall s :: 1 <= s < currentStep ==> IsStepValid(s, form)
    }

    constructor ()
      ensures currentStep == 1 && form == EmptyForm
      ensures Valid()
    {
      currentStep := 1;
      form := EmptyForm;
    }

    /** The `onChange` of the input (or dropdown) of `f`. */
    method SetField(f: Field, value: string)
      modifies this
      ensures form == With(old(form), f, value)
      ensures currentStep == old(currentStep)
      ensures old(Valid()) && StepOf(f) == currentStep ==> Valid()
    {
      if Valid() && StepOf(f) == currentStep {
        forall s | 1 <= s < currentStep ensures IsStepValid(s, With(form, f, value)) {
          EditKeepsOtherSteps(form, f, value, s);
        }
      }
      form := With(form, f, value);
    }

    method HandlePrevStep()
      modifies this
      ensures currentStep == (if old(currentStep) > 1 then old(currentStep) - 1 else old(currentStep))
      ensures currentStep != old(currentStep) <==> old(PrevShown())
      ensures form == old(form)
      ensures old(Valid()) ==> Valid()
    {
      if currentStep > 1 {
        currentStep := currentStep - 1;
      }
    }

    /** `handleNextStep`: before the last step it only advances; on the last
        it posts the form and navigates to the results once `fetch`
        resolves, whatever the HTTP status, staying put when it rejects. It does not check the
        step itself: the button that calls it does. */
    method HandleNextStep(token: Option<string>, fetchResolves: bool)
      returns (post: Option<PostRequest>, navigate: Option<string>)
      modifies this
      ensures form == old(form)
      ensures old(currentStep) < 3 ==> currentStep == old(currentStep) + 1 && post.None? && navigate.None?
      ensures old(currentStep) >= 3 ==> currentStep == old(currentStep)
      ensures old(currentStep) >= 3 ==> post == Some(SubmitRequest(form, token))
      ensures old(currentStep) >= 3 ==> (navigate.Some? <==> fetchResolves)
      ensures navigate.Some? ==> navigate.value == ResultsRoute
    {
      post := None;
      navigate := None;
      if currentStep < 3 {
        currentStep := currentStep + 1;
      } else {
        post := Some(SubmitRequest(form, token));
        if fetchResolves {
          navigate := Some(ResultsRoute);
        }
      }
    }

    /** `disabled={!isStepValid()}`: on the last step the submit button is
        enabled only for a complete form. */
    predicate NextEnabled()
      reads this
      ensures Valid() && NextEnabled() && currentStep == 3 ==> Complete(form)
    {
      var enabled := IsStepValid(currentStep, form);
      if Valid() && enabled && currentStep == 3 then
        AllStepsValidComplete(form);
        enabled
      else enabled
    }

    /** A click on the next/submit button: nothing while it is disabled;
        otherwise the step advances, or on the last step the form is posted
        and the results open once `fetch` resolves (any HTTP status; a
        rejection stays on step 3). Whatever is posted
        is a complete form. */
    method ClickNext(token: Option<string>, fetchResolves: bool)
      returns (post: Option<PostRequest>, navigate: Option<string>)
      requires Valid()
      modifies this
      ensures Valid()
      ensures form == old(form)
      ensures !old(NextEnabled()) ==> currentStep == old(currentStep) && post.None? && navigate.None?
      ensures old(NextEnabled()) && old(currentStep) < 3 ==>
        currentStep == old(currentStep) + 1 && post.None? && navigate.None?
      ensures old(NextEnabled()) && old(currentStep) == 3 ==>
        currentStep == 3 && post == Some(SubmitRequest(form, token)) && (navigate.Some? <==> fetchResolves)
      ensures post.Some? ==> Complete(form) && post.value == SubmitRequest(form, token)
      ensures navigate.Some? ==> post.Some?
    {
      post := None;
      navigate := None;
      if NextEnabled() {
        if currentStep == 3 {
          AllStepsValidComplete(form);
        }
        post, navigate := HandleNextStep(token, fetchResolves);
      }
    }

    /** The "previous" button is rendered only after the first step, so it
        always leads back to a step that was completed. */
    predicate PrevShown()
      reads this
      ensures Valid() && PrevShown() ==> IsStepValid(currentStep - 1, form)
    {
      currentStep > 1
    }

    /** The translation key of the next button's label. */
    function NextLabelKey(): (k: string)
      reads this
      ensures currentStep == 3 ==> k == "assessment.buttons.submit"
      ensures currentStep != 3 ==> k == "assessment.buttons.next"
    {
      if currentStep == 3 then "assessment.buttons.submit" else "assessment.buttons.next"
    }

    /** The width of the progress line, in percent. */
    function ProgressPercent(): (p: real)
      reads this
      requires Valid()
      ensures 0.0 < p <= 100.0
      ensures p == 100.0 <==> currentStep == 3
    {
      (currentStep as real / 3.0) * 100.0
    }

    function BadgeOf(step: int): (b: Badge)
      reads this
      ensures b == Current <==> step == currentStep
      ensures b == Done <==> step < currentStep
    {
      if currentStep == step then Current else if currentStep > step then Done else Pending
    }
  }
}
