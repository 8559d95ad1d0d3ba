/** The routed signup wizard (frontend/src/components/Signup.js): four steps
    with a guard each, Next/Back navigation and a final submit that
    re-validates the current step before posting. */
module Signup {
  import opened Wrappers
  import opened Text
  import opened Json
  import opened SignupForm

  /** `validateStep` for `step`: the message of the first failing check, or
      `None` when the step may be left. Steps outside 1..4 always pass. */
  function StepError(step: int, d: SignupData): (r: Option<string>)
    ensures step == 1 ==> (r.None? <==> d.firstName != "" && d.lastName != "")
    ensures step == 2 ==> (r.None? <==> d.email != "" && d.password != "" && JsLength(d.password) >= 6)
    ensures step == 3 ==> (r.None? <==> d.gender != "" && d.school != "" && d.gradeLevel != "")
    ensures step == 4 ==> (r.None? <==> |d.interests| > 0)
    ensures !(1 <= step <= 4) ==> r.None?
    ensures r.Some? ==> r.value != ""
  {
    if step == 1 then
      if d.firstName == "" || d.lastName == "" then Some(NamesMessage) else None
    else if step == 2 then
      if d.email == "" || d.password == "" then Some(CredentialsMessage)
      else if JsLength(d.password) < 6 then Some(PasswordMessage)
      else None
    else if step == 3 then
      if d.gender == "" || d.school == "" || d.gradeLevel == "" then Some(ProfileMessage) else None
    else if step == 4 then
      if |d.interests| == 0 then Some(InterestsMessage) else None
    else None
  }

  /** The component's state: `step`, `formData`, `error` and `loading`. */
  class Wizard {
    var step: int
    var formData: SignupData
    var error: string
    var loading: bool

    /** The steps the rendered buttons can reach. */
    ghost predicate StepInRange()
      reads this
    {
      1 <= step <= 4
    }

    constructor ()
      ensures step == 1 && formData == EmptySignup && error == "" && !loading
      ensures StepInRange()
    {
      step := 1;
      formData := EmptySignup;
      error := "";
      loading := false;
    }

    /** `handleChange`: sets exactly one field and clears the error. */
    method HandleChange(field: Field, value: string)
      modifies this`formData, this`error
      ensures formData == WithField(old(formData), field, value)
      ensures error == ""
    {
      formData := WithField(formData, field, value);
      error := "";
    }

    method HandleInterestToggle(interest: string)
      modifies this`formData
      ensures formData == ToggleInterest(old(formData), interest)
    {
      formData := ToggleInterest(formData, interest);
    }

    /** `validateStep`: sets the first failing check's message, or clears the
        error when the step passes. */
    method ValidateStep() returns (ok: bool)
      modifies this`error
      ensures ok <==> StepError(step, formData).None?
      ensures error == ErrorText(StepError(step, formData))
    {
      var check := StepError(step, formData);
      ok := check.None?;
      error := ErrorText(check);
    }

    /** `handleNext`: one step forward exactly when the guard passes. */
    method HandleNext()
      modifies this`step, this`error
      ensures step == if StepError(old(step), formData).None? then old(step) + 1 else old(step)
      ensures error == ErrorText(StepError(old(step), formData))
    {
      var ok := ValidateStep();
      if ok {
        step := step + 1;
      }
    }

    /** `handleBack`: clears the error and goes one step back, unguarded. */
    method HandleBack()
      modifies this`step, this`error
      ensures step == old(step) - 1
      ensures error == ""
    {
      error := "";
      step := step - 1;
    }

    /** `handleSubmit`: no request unless the current step's guard passes;
        otherwise posts `RequestBody(formData)` and records the reply's error.
        `sent` is the body posted, if any. */
    method HandleSubmit(reply: SignupReply) returns (sent: Option<map<string, Json>>)
      modifies this`error, this`loading
      ensures sent.None? <==> StepError(step, formData).Some?
      ensures sent.None? ==> error == ErrorText(StepError(step, formData)) && loading == old(loading)
      ensures sent.Some? ==> sent.value == RequestBody(formData) && error == ReplyError(reply) && !loading
    {
      var ok := ValidateStep();
      if !ok {
        sent := None;
        return;
      }
      loading := true;
      sent := Some(RequestBody(formData));
      if !reply.Accepted? {
        error := ReplyError(reply);
      }
      loading := false;
    }

    /** A click on one of the navigation buttons; a button the page does not
        render at the current step cannot be clicked and changes nothing.
        Driven this way, the step never leaves 1..4. */
    method Press(button: Button, reply: SignupReply) returns (sent: Option<map<string, Json>>)
      modifies this
      ensures old(StepInRange()) ==> StepInRange()
      ensures !Offered(button, old(step)) ==>
                step == old(step) && sent.None?
                && formData == old(formData) && error == old(error) && loading == old(loading)
      ensures sent.Some? ==> button == CompleteSignUp && old(step) >= 4
      ensures formData == old(formData)
      ensures Offered(button, old(step)) && button == Back ==>
                step == old(step) - 1 && error == "" && loading == old(loading) && sent.None?
      ensures Offered(button, old(step)) && button == Next ==>
                step == (if StepError(old(step), formData).None? then old(step) + 1 else old(step))
                && error == ErrorText(StepError(old(step), formData)) && loading == old(loading) && sent.None?
      ensures Offered(button, old(step)) && button == CompleteSignUp ==>
                && step == old(step)
                && (sent.None? <==> StepError(step, formData).Some?)
                && (sent.None? ==> error == ErrorText(StepError(step, formData)) && loading == old(loading))
                && (sent.Some? ==> sent.value == RequestBody(formData) && error == ReplyError(reply) && !loading)
    {
      sent := None;
      if !Offered(button, step) {
        return;
      }
      match button {
        case Back => HandleBack();
        case Next => HandleNext();
        case CompleteSignUp => sent := HandleSubmit(reply);
      }
    }
  }
}
