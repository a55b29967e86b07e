/**
  The questionnaire of the solar calculator: the answer record (FormData), the
  five configured questions and the session cursor, with the navigation
  operations written as pure transitions on a Session value. Both calculator
  components share this configuration and these transitions.
 */
module Questionnaire {

  /** The eight keys of the answer record. */
  datatype Field = Installation | Residents | RoofArea | CurrentBill | RoofType | Name | Email | Phone

  /** The answer record; '' means "not answered yet". */
  datatype FormData = FormData(
    installation: string,
    residents: string,
    roofArea: string,
    currentBill: string,
    roofType: string,
    name: string,
    email: string,
    phone: string)
  {
    /** formData[key] */
    function Get(f: Field): string {
      match f
      case Installation => installation
      case Residents => residents
      case RoofArea => roofArea
      case CurrentBill => currentBill
      case RoofType => roofType
      case Name => name
      case Email => email
      case Phone => phone
    }

    /** { ...prev, [key]: value }: writes one field and keeps every other one. */
    function Set(f: Field, v: string): (r: FormData)
      ensures r.Get(f) == v
      ensures forall g :: g != f ==> r.Get(g) == Get(g)
    {
      match f
      case Installation => this.(installation := v)
      case Residents => this.(residents := v)
      case RoofArea => this.(roofArea := v)
      case CurrentBill => this.(currentBill := v)
      case RoofType => this.(roofType := v)
      case Name => this.(name := v)
      case Email => this.(email := v)
      case Phone => this.(phone := v)
    }
  }

  /** The record the component starts with and restart() writes back. */
  function EmptyForm(): (r: FormData)
    ensures forall f :: r.Get(f) == ""
  {
    FormData("", "", "", "", "", "", "", "")
  }

  /** A question: the answer-record key it writes and its option tokens, in display order. */
  datatype Step = Step(key: Field, options: seq<string>)

  const InstallationTokens: seq<string> := ["einfamilienhaus", "mehrfamilienhaus", "gewerbe", "andere"]
  const ResidentsTokens: seq<string> := ["1-2", "3-4", "5+"]
  const RoofAreaTokens: seq<string> := ["klein", "mittel", "gross", "sehr-gross"]
  const CurrentBillTokens: seq<string> := ["niedrig", "mittel", "hoch", "sehr-hoch"]
  const RoofTypeTokens: seq<string> := ["satteldach", "flachdach", "pultdach", "andere"]

  /** The `steps` configuration, identical in both calculator components. */
  const Steps: seq<Step> := [
    Step(Installation, InstallationTokens),
    Step(Residents, ResidentsTokens),
    Step(RoofArea, RoofAreaTokens),
    Step(CurrentBill, CurrentBillTokens),
    Step(RoofType, RoofTypeTokens)
  ]

  /** Keys only the result view's input fields write. */
  predicate IsContactField(f: Field) {
    f == Name || f == Email || f == Phone
  }

  /** Every configured question writes a different, non-contact key and offers only non-empty tokens. */
  lemma StepsConfiguration()
    ensures |Steps| == 5
    ensures forall i, j :: 0 <= i < j < |Steps| ==> Steps[i].key != Steps[j].key
    ensures forall i :: 0 <= i < |Steps| ==> !IsContactField(Steps[i].key)
    ensures forall i, k :: 0 <= i < |Steps| && 0 <= k < |Steps[i].options| ==> Steps[i].options[k] != ""
  {
  }

  /** Each question field holds '' or one of that question's tokens. */
  ghost predicate WellFormed(form: FormData) {
    forall i :: 0 <= i < |Steps| ==> form.Get(Steps[i].key) == "" || form.Get(Steps[i].key) in Steps[i].options
  }

  /** The component's state: `currentStep` and `formData`. */
  datatype Session = Session(step: nat, form: FormData)

  /** `currentStep === steps.length` selects the result view. */
  function InResultView(s: Session): (b: bool)
    ensures b ==> s.step == 5
    ensures ValidSession(s) ==> (b <==> s.step >= |Steps|)
  {
    s.step == |Steps|
  }

  /** The states the operations below keep: question 0..4 or the result view, well-formed answers. */
  ghost predicate ValidSession(s: Session) {
    s.step <= |Steps| && WellFormed(s.form)
  }

  function Initial(): (r: Session)
    ensures r.step == 0 && !InResultView(r)
    ensures forall f :: r.form.Get(f) == ""
    ensures ValidSession(r)
  {
    Session(0, EmptyForm())
  }

  /**
    handleOptionSelect(value), with the delayed advance taken as one atomic step:
    the current question's key gets the value, the cursor moves on by one.
   */
  function Select(s: Session, value: string): (r: Session)
    requires s.step < |Steps|
    ensures r.step == s.step + 1
    ensures r.form.Get(Steps[s.step].key) == value
    ensures forall g :: g != Steps[s.step].key ==> r.form.Get(g) == s.form.Get(g)
    ensures InResultView(r) <==> s.step == |Steps| - 1
    ensures ValidSession(s) && value in Steps[s.step].options ==> ValidSession(r)
  {
    Session(s.step + 1, s.form.Set(Steps[s.step].key, value))
  }

  /** goBack(): one question back, a no-op at the first one; the answers stay. */
  function Back(s: Session): (r: Session)
    ensures r.form == s.form
    ensures s.step > 0 ==> r.step + 1 == s.step
    ensures s.step == 0 ==> r == s
    ensures ValidSession(s) ==> ValidSession(r) && !InResultView(r)
  {
    if s.step > 0 then Session(s.step - 1, s.form) else s
  }

  /** restart(): from any state back to question 0 with all eight fields empty. */
  function Restart(s: Session): (r: Session)
    ensures r.step == 0
    ensures forall f :: r.form.Get(f) == ""
    ensures ValidSession(r)
  {
    Session(0, EmptyForm())
  }

  /** handleInputChange for the name, email and phone inputs of the result view. */
  function Input(s: Session, f: Field, value: string): (r: Session)
    requires IsContactField(f)
    ensures r.step == s.step
    ensures r.form.Get(f) == value
    ensures forall g :: g != f ==> r.form.Get(g) == s.form.Get(g)
    ensures ValidSession(s) ==> ValidSession(r)
  {
    StepsConfiguration();
    Session(s.step, s.form.Set(f, value))
  }

  /** What handleSubmit does: an alert and nothing else, or the lead being handed on. */
  datatype SubmitOutcome = MissingNameOrEmail | LeadAccepted(lead: FormData)

  /** handleSubmit: `!formData.name || !formData.email` rejects; phone is optional. */
  function Submit(form: FormData): (r: SubmitOutcome)
    ensures r.MissingNameOrEmail? <==> form.name == "" || form.email == ""
    ensures r.LeadAccepted? ==> r.lead == form
  {
    if form.name == "" || form.email == "" then MissingNameOrEmail else LeadAccepted(form)
  }

  /** Answering the remaining questions one by one, as repeated handleOptionSelect calls. */
  function AnswerAll(s: Session, answers: seq<string>): Session
    requires s.step + |answers| <= |Steps|
    decreases |answers|
  {
    if answers == [] then s else AnswerAll(Select(s, answers[0]), answers[1..])
  }

  /**
    Answering k questions moves the cursor exactly k steps and records the i-th
    answer under the key of question s.step + i.
   */
  lemma {:induction false} AnswerAllAdvances(s: Session, answers: seq<string>)
    requires s.step + |answers| <= |Steps|
    ensures AnswerAll(s, answers).step == s.step + |answers|
    ensures forall i :: 0 <= i < |answers| ==> AnswerAll(s, answers).form.Get(Steps[s.step + i].key) == answers[i]
    decreases |answers|
  {
    if answers != [] {
      var s' := Select(s, answers[0]);
      AnswerAllAdvances(s', answers[1..]);
      StepsConfiguration();
      var r := AnswerAll(s, answers);
      assert r == AnswerAll(s', answers[1..]);
      forall i | 0 <= i < |answers|
        ensures r.form.Get(Steps[s.step + i].key) == answers[i]
      {
        if i == 0 {
          AnswerAllKeepsUnwritten(s', answers[1..], Steps[s.step].key);
        } else {
          assert answers[1..][i - 1] == answers[i];
        }
      }
    }
  }

  /** Answers write only the keys of the questions they answer. */
  lemma {:induction false} AnswerAllKeepsUnwritten(s: Session, answers: seq<string>, f: Field)
    requires s.step + |answers| <= |Steps|
    requires forall i :: s.step <= i < s.step + |answers| ==> Steps[i].key != f
    ensures AnswerAll(s, answers).form.Get(f) == s.form.Get(f)
    decreases |answers|
  {
    if answers != [] {
      AnswerAllKeepsUnwritten(Select(s, answers[0]), answers[1..], f);
    }
  }

  /** From question 0, five answers reach `steps.length`, the result view, holding all five answers. */
  lemma AnswerEveryQuestion(answers: seq<string>)
    requires |answers| == |Steps|
    ensures InResultView(AnswerAll(Initial(), answers))
    ensures forall i :: 0 <= i < |Steps| ==> AnswerAll(Initial(), answers).form.Get(Steps[i].key) == answers[i]
  {
    AnswerAllAdvances(Initial(), answers);
  }

  /** Answering with the offered tokens keeps the cursor within questions 0..4 or the result view. */
  lemma {:induction false} AnswerAllStaysValid(s: Session, answers: seq<string>)
    requires ValidSession(s)
    requires s.step + |answers| <= |Steps|
    requires forall i :: 0 <= i < |answers| ==> answers[i] in Steps[s.step + i].options
    ensures ValidSession(AnswerAll(s, answers))
    decreases |answers|
  {
    if answers != [] {
      var s' := Select(s, answers[0]);
      forall i | 0 <= i < |answers[1..]|
        ensures answers[1..][i] in Steps[s'.step + i].options
      {
        assert answers[1..][i] == answers[i + 1];
      }
      AnswerAllStaysValid(s', answers[1..]);
    }
  }

  /** goBack never touches formData, so going back and answering again writes only that one key. */
  lemma BackThenSelect(s: Session, value: string)
    requires 0 < s.step < |Steps|
    ensures Select(Back(s), value).step == s.step
    ensures Select(Back(s), value).form == s.form.Set(Steps[s.step - 1].key, value)
  {
  }

  /** restart() is idempotent and forgets everything answered before. */
  lemma RestartForgets(s: Session, t: Session)
    ensures Restart(s) == Restart(t) == Restart(Restart(s)) == Initial()
  {
  }
}
