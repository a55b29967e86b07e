/**
  The SolarCalculator component as a stateful object: `currentStep` and
  `formData` are fields, and each handler is a method whose new state is the
  corresponding Questionnaire transition of the old one. The two copies of the
  component differ in the advance delay (300 ms and 200 ms, not modelled), in
  their progress bar and in the option highlight, which only the Embed copy draws.
 */
module Stepper {
  import opened Questionnaire
  import opened Estimator
  import opened Wrappers

  /**
    Widget: src/components/SolarCalculator.tsx.
    Embed: src/SolarCalculator.tsx, the copy the /embed page renders.
   */
  datatype Variant = Widget | Embed

  /** The progress bar's width in percent on question `step`. */
  function ProgressWidth(v: Variant, step: nat): (w: real)
    ensures step < |Steps| ==> 0.0 <= w <= 100.0
    ensures step < |Steps| && v.Embed? ==> 0.0 < w < 100.0
  {
    assert |Steps| == 5;
    match v
    case Widget => (step as real) / ((|Steps| - 1) as real) * 100.0
    case Embed => ((step + 1) as real) / ((|Steps| + 1) as real) * 100.0
  }

  /** The Widget bar is empty on the first question, full on the last, and grows by a quarter per step. */
  lemma WidgetProgress(step: nat)
    requires step < |Steps|
    ensures 0.0 <= ProgressWidth(Widget, step) <= 100.0
    ensures ProgressWidth(Widget, step) == 0.0 <==> step == 0
    ensures ProgressWidth(Widget, step) == 100.0 <==> step == |Steps| - 1
    ensures ProgressWidth(Widget, step) == 25.0 * step as real
  {
    assert |Steps| == 5;
  }

  /** The Embed bar is never empty and never full on a question: it moves in sixths of the width. */
  lemma EmbedProgress(step: nat)
    requires step < |Steps|
    ensures 0.0 < ProgressWidth(Embed, step) < 100.0
    ensures 6.0 * ProgressWidth(Embed, step) == 100.0 * (step + 1) as real
  {
    assert |Steps| == 5;
  }

  /** Both bars strictly grow with every answered question. */
  lemma ProgressMonotone(v: Variant, i: nat, j: nat)
    requires i < j < |Steps|
    ensures ProgressWidth(v, i) < ProgressWidth(v, j)
  {
    assert |Steps| == 5;
  }

  /**
    The Embed copy highlights an option when the current question's field
    holds that option's token. Defined on question steps only.
   */
  function IsSelected(s: Session, option: string): (b: bool)
    requires s.step < |Steps|
    ensures s.form.Get(Steps[s.step].key) == "" && option in Steps[s.step].options ==> !b
    ensures WellFormed(s.form) && b ==> option == "" || option in Steps[s.step].options
  {
    StepsConfiguration();
    s.form.Get(Steps[s.step].key) == option
  }

  /** After restart() none of the first question's options is highlighted, since no token is ''. */
  lemma {:induction false} NothingSelectedAfterRestart(s: Session, option: string)
    requires option in Steps[0].options
    ensures !IsSelected(Restart(s), option)
  {
    StepsConfiguration();
    var r := Restart(s);
    assert r.form.Get(Steps[0].key) == "";
  }

  /** Going through the questions from the start, an option is highlighted only once it was picked. */
  lemma NothingSelectedBeforeAnswer(answers: seq<string>, option: string)
    requires |answers| < |Steps|
    requires option in Steps[|answers|].options
    ensures AnswerAll(Initial(), answers).step == |answers| && !IsSelected(AnswerAll(Initial(), answers), option)
  {
    StepsConfiguration();
    AnswerAllAdvances(Initial(), answers);
    AnswerAllKeepsUnwritten(Initial(), answers, Steps[|answers|].key);
  }

  /** Going back after an answer highlights the option just picked. */
  lemma SelectThenBackHighlights(s: Session, option: string)
    requires s.step + 1 < |Steps|
    ensures Back(Select(s, option)).step == s.step
    ensures IsSelected(Back(Select(s, option)), option)
  {
  }

  /** One SolarCalculator component instance. */
  class Calculator {
    const variant: Variant
    var currentStep: nat
    var formData: FormData

    /** The component's state as a Session value. */
    function State(): Session
      reads this
    {
      Session(currentStep, formData)
    }

    ghost predicate Valid()
      reads this
    {
      ValidSession(State())
    }

    /** useState(0) and the all-empty record. */
    constructor (v: Variant)
      ensures variant == v
      ensures State() == Initial() && Valid()
    {
      variant := v;
      currentStep := 0;
      formData := EmptyForm();
    }

    /** `currentStep === steps.length`: the result view is shown. */
    function ShowsResult(): (b: bool)
      reads this
      ensures b <==> InResultView(State())
    {
      currentStep == |Steps|
    }

    /** The estimate the result view displays; none while a question is shown. */
    method Estimate() returns (r: Option<SavingsResult>)
      ensures r.Some? <==> currentStep == |Steps|
      ensures r.Some? ==> r.value == CalculateSavings(formData)
    {
      if currentStep == |Steps| {
        r := Some(CalculateSavings(formData));
      } else {
        r := None;
      }
    }

    /** An option button is drawn highlighted (Embed copy only). */
    method OptionHighlighted(option: string) returns (b: bool)
      requires currentStep < |Steps|
      ensures b <==> variant.Embed? && IsSelected(State(), option)
    {
      b := variant == Embed && formData.Get(Steps[currentStep].key) == option;
    }

    /** handleOptionSelect(value) from an option button of the current question. */
    method HandleOptionSelect(value: string)
      requires currentStep < |Steps|
      requires value in Steps[currentStep].options
      requires Valid()
      modifies this
      ensures State() == Select(old(State()), value)
      ensures Valid()
    {
      formData := formData.Set(Steps[currentStep].key, value);
      currentStep := currentStep + 1;
    }

    /** handleInputChange for the name, email or phone input. */
    method HandleInputChange(field: Field, value: string)
      requires IsContactField(field)
      requires Valid()
      modifies this
      ensures State() == Input(old(State()), field, value)
      ensures Valid()
    {
      formData := formData.Set(field, value);
    }

    /** goBack() */
    method GoBack()
      requires Valid()
      modifies this
      ensures State() == Back(old(State()))
      ensures Valid()
    {
      if currentStep > 0 {
        currentStep := currentStep - 1;
      }
    }

    /** restart() */
    method Restart()
      modifies this
      ensures State() == Questionnaire.Restart(old(State()))
      ensures Valid()
    {
      currentStep := 0;
      formData := EmptyForm();
    }

    /** handleSubmit(): rejects without any state change unless name and email are filled in. */
    method HandleSubmit() returns (outcome: SubmitOutcome)
      ensures outcome.MissingNameOrEmail? <==> formData.name == "" || formData.email == ""
      ensures outcome == Submit(formData)
    {
      if formData.name == "" || formData.email == "" {
        outcome := MissingNameOrEmail;
      } else {
        outcome := LeadAccepted(formData);
      }
    }
  }

  /**
    A full session on a new component: four answers, back from the fifth
    question to the fourth, which shows the earlier answer, that question
    answered again and the last one answered reach the result view; restart
    clears everything.
   */
  method FullSession(v: Variant, a0: string, a1: string, a2: string, a3: string, a4: string)
    returns (result: Option<SavingsResult>, stepAfterBack: nat, stepAfterRestart: nat, highlightedAfterBack: bool)
    requires a0 in InstallationTokens && a1 in ResidentsTokens && a2 in RoofAreaTokens
    requires a3 in CurrentBillTokens && a4 in RoofTypeTokens
    ensures result.Some?
    ensures result.value == CalculateSavings(FormData(a0, a1, a2, a3, a4, "", "", ""))
    ensures stepAfterBack == 3 && stepAfterRestart == 0
    ensures highlightedAfterBack <==> v.Embed?
  {
    var c := new Calculator(v);
    c.HandleOptionSelect(a0);
    c.HandleOptionSelect(a1);
    c.HandleOptionSelect(a2);
    c.HandleOptionSelect(a3);
    ghost var answered := c.formData;
    assert c.currentStep == 4 && answered == FormData(a0, a1, a2, a3, "", "", "", "");
    c.GoBack();
    assert c.currentStep == 3 && c.formData == answered;
    stepAfterBack := c.currentStep;
    highlightedAfterBack := c.OptionHighlighted(a3);
    c.HandleOptionSelect(a3);
    assert c.currentStep == 4 && c.formData == answered;
    c.HandleOptionSelect(a4);
    assert c.currentStep == 5 && c.formData == FormData(a0, a1, a2, a3, a4, "", "", "");
    result := c.Estimate();
    c.Restart();
    stepAfterRestart := c.currentStep;
  }
}
