/** The second signup wizard (frontend/src/components/Signup2.js): the same
    four steps as `Signup`, plus a live `.edu` check of the email address
    that the account step also demands. */
module Signup2 {
  import opened Wrappers
  import opened Text
  import opened Json
  import opened SignupForm
  import Signup

  /** `email.toLowerCase().endsWith('.edu')`. */
  function ValidateEmail(email: string): (r: bool)
    ensures r <==> |email| >= 4
                   && email[|email| - 4] == '.'
                   && (email[|email| - 3] == 'e' || email[|email| - 3] == 'E')
                   && (email[|email| - 2] == 'd' || email[|email| - 2] == 'D')
                   && (email[|email| - 1] == 'u' || email[|email| - 1] == 'U')
  {
    var low := Lower(email);
    var r := EndsWith(low, ".edu");
    assert r ==> low[|low| - 4..] == ".edu";
    assert r ==> low[|low| - 4] == '.' && low[|low| - 3] == 'e' && low[|low| - 2] == 'd' && low[|low| - 1] == 'u'
      by { if r { assert low[|low| - 4..][0] == '.'; assert low[|low| - 4..][1] == 'e';
                  assert low[|low| - 4..][2] == 'd'; assert low[|low| - 4..][3] == 'u'; } }
    assert (|email| >= 4 && low[|low| - 4] == '.' && low[|low| - 3] == 'e' && low[|low| - 2] == 'd' && low[|low| - 1] == 'u') ==> r
      by { if |email| >= 4 && low[|low| - 4] == '.' && low[|low| - 3] == 'e' && low[|low| - 2] == 'd' && low[|low| - 1] == 'u' {
             assert low[|low| - 4..] == ".edu"; } }
    r
  }

  /** `validateStep` with the component's `emailValid` flag: at the account
      step the `.edu` check sits between the presence check and the length
      check; every other step is as in `Signup`. */
  function StepError(step: int, d: SignupData, emailValid: bool): (r: Option<string>)
    ensures step == 2 ==> (r.None? <==> d.email != "" && d.password != "" && emailValid && JsLength(d.password) >= 6)
    ensures step == 2 && (d.email == "" || d.password == "") ==> r == Some(CredentialsMessage)
    ensures step == 2 && d.email != "" && d.password != "" && !emailValid ==> r == Some(EduMessage)
    ensures step == 2 && d.email != "" && d.password != "" && emailValid && JsLength(d.password) < 6 ==> r == Some(PasswordMessage)
    ensures step != 2 ==> r == Signup.StepError(step, d)
    ensures r.Some? ==> r.value != ""
  {
    if step == 1 then
      if d.firstName == "" || d.lastName == "" then Some(NamesMessage) else None
    else if step == 2 then
      if d.email == "" || d.password == "" then Some(CredentialsMessage)
      else if !emailValid then Some(EduMessage)
      else if JsLength(d.password) < 6 then Some(PasswordMessage)
      else None
    else if step == 3 then
      if d.gender == "" || d.school == "" || d.gradeLevel == "" then Some(ProfileMessage) else None
    else if step == 4 then
      if |d.interests| == 0 then Some(InterestsMessage) else None
    else None
  }

  /** With a flag that tracks the email, this wizard lets through exactly
      what `Signup` lets through, except that the account step also needs a
      `.edu` address. */
  lemma StricterThanSignup(step: int, d: SignupData)
    ensures StepError(step, d, ValidateEmail(d.email)).None?
            <==> Signup.StepError(step, d).None? && (step == 2 ==> ValidateEmail(d.email))
  {
  }

  class Wizard {
    var step: int
    var formData: SignupData
    var error: string
    var loading: bool
    var emailValid: bool

    /** `emailValid` always describes the current email: it starts false with
        an empty email and is recomputed whenever the email field changes. */
    ghost predicate Valid()
      reads this
    {
      emailValid == ValidateEmail(formData.email)
    }

    ghost predicate StepInRange()
      reads this
    {
      1 <= step <= 4
    }

    constructor ()
      ensures step == 1 && formData == EmptySignup && error == "" && !loading && !emailValid
      ensures Valid() && StepInRange()
    {
      step := 1;
      formData := EmptySignup;
      error := "";
      loading := false;
      emailValid := false;
    }

    /** `handleChange`: sets one field, clears the error and, for the email
        field only, recomputes `emailValid`. */
    method HandleChange(field: Field, value: string)
      modifies this`formData, this`error, this`emailValid
      requires Valid()
      ensures Valid()
      ensures formData == WithField(old(formData), field, value)
      ensures error == ""
      ensures field != Email ==> emailValid == old(emailValid)
    {
      formData := WithField(formData, field, value);
      error := "";
      if field == Email {
        emailValid := ValidateEmail(value);
      }
    }

    method HandleInterestToggle(interest: string)
      modifies this`formData
      requires Valid()
      ensures Valid()
      ensures formData == ToggleInterest(old(formData), interest)
    {
      formData := ToggleInterest(formData, interest);
    }

    /** `validateStep`, which reads the `emailValid` flag; under `Valid()` that
        is the `.edu` check of the current email. */
    method ValidateStep() returns (ok: bool)
      modifies this`error
      requires Valid()
      ensures ok <==> StepError(step, formData, ValidateEmail(formData.email)).None?
      ensures error == ErrorText(StepError(step, formData, ValidateEmail(formData.email)))
    {
      var check := StepError(step, formData, emailValid);
      ok := check.None?;
      error := ErrorText(check);
    }

    method HandleNext()
      modifies this`step, this`error
      requires Valid()
      ensures Valid()
      ensures var check := StepError(old(step), formData, ValidateEmail(formData.email));
              step == (if check.None? then old(step) + 1 else old(step)) && error == ErrorText(check)
    {
      var ok := ValidateStep();
      if ok {
        step := step + 1;
      }
    }

    method HandleBack()
      modifies this`step, this`error
      requires Valid()
      ensures Valid()
      ensures step == old(step) - 1
      ensures error == ""
    {
      error := "";
      step := step - 1;
    }

    /** `handleSubmit`: re-validates the current step; posts the same body as
        `Signup` when it passes. */
    method HandleSubmit(reply: SignupReply) returns (sent: Option<map<string, Json>>)
      modifies this`error, this`loading
      requires Valid()
      ensures Valid()
      ensures var check := StepError(step, formData, ValidateEmail(formData.email));
              (sent.None? <==> check.Some?)
              && (sent.None? ==> error == ErrorText(check) && loading == old(loading))
              && (sent.Some? ==> sent.value == RequestBody(formData) && error == ReplyError(reply) && !loading)
    {
      var ok := ValidateStep();
      if !ok {
        sent := None;
        return;
      }
      loading := true;
      sent := Some(RequestBody(formData));
      if !reply.Accepted? {
        error := ReplyError(reply);
      }
      loading := false;
    }

    /** A click on a rendered navigation button; the step stays in 1..4 and
        the `emailValid` flag keeps tracking the email. */
    method Press(button: Button, reply: SignupReply) returns (sent: Option<map<string, Json>>)
      modifies this
      requires Valid()
      ensures Valid()
      ensures old(StepInRange()) ==> StepInRange()
      ensures !Offered(button, old(step)) ==>
                step == old(step) && sent.None?
                && formData == old(formData) && error == old(error) && loading == old(loading)
                && emailValid == old(emailValid)
      ensures sent.Some? ==> button == CompleteSignUp && old(step) >= 4
      ensures formData == old(formData) && emailValid == old(emailValid)
      ensures Offered(button, old(step)) && button == Back ==>
                step == old(step) - 1 && error == "" && loading == old(loading) && sent.None?
      ensures Offered(button, old(step)) && button == Next ==>
                var check := StepError(old(step), formData, ValidateEmail(formData.email));
                step == (if check.None? then old(step) + 1 else old(step))
                && error == ErrorText(check) && loading == old(loading) && sent.None?
      ensures Offered(button, old(step)) && button == CompleteSignUp ==>
                var check := StepError(step, formData, ValidateEmail(formData.email));
                && step == old(step)
                && (sent.None? <==> check.Some?)
                && (sent.None? ==> error == ErrorText(check) && loading == old(loading))
                && (sent.Some? ==> sent.value == RequestBody(formData) && error == ReplyError(reply) && !loading)
    {
      sent := None;
      if !Offered(button, step) {
        return;
      }
      match button {
        case Back => HandleBack();
        case Next => HandleNext();
        case CompleteSignUp => sent := HandleSubmit(reply);
      }
    }
  }
}
