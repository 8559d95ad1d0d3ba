/** What the two four-step signup wizards (frontend/src/components/Signup.js
    and frontend/src/components/Signup2.js) have in common: the `formData`
    record, the field setter and the interest toggle, the guard messages, the
    request body they post and the replies they react to. */
module SignupForm {
  import opened Wrappers
  import opened Lists
  import opened Json

  datatype SignupData = SignupData(
    firstName: string,
    lastName: string,
    email: string,
    password: string,
    gender: string,
    school: string,
    gradeLevel: string,
    interests: seq<string>)

  const EmptySignup: SignupData := SignupData("", "", "", "", "", "", "", [])

  /** The fields `handleChange(field, value)` is called with. */
  datatype Field = FirstName | LastName | Email | Password | Gender | School | GradeLevel

  function FieldValue(d: SignupData, f: Field): string
  {
    match f
    case FirstName => d.firstName
    case LastName => d.lastName
    case Email => d.email
    case Password => d.password
    case Gender => d.gender
    case School => d.school
    case GradeLevel => d.gradeLevel
  }

  /** `{ ...prev, [field]: value }`: only the named field changes. */
  function WithField(d: SignupData, f: Field, value: string): (r: SignupData)
    ensures FieldValue(r, f) == value
    ensures forall g :: g != f ==> FieldValue(r, g) == FieldValue(d, g)
    ensures r.interests == d.interests
  {
    match f
    case FirstName => d.(firstName := value)
    case LastName => d.(lastName := value)
    case Email => d.(email := value)
    case Password => d.(password := value)
    case Gender => d.(gender := value)
    case School => d.(school := value)
    case GradeLevel => d.(gradeLevel := value)
  }

  /** `handleInterestToggle`: adds the interest if absent, removes it if
      present; no other field changes. */
  function ToggleInterest(d: SignupData, interest: string): (r: SignupData)
    ensures forall f :: FieldValue(r, f) == FieldValue(d, f)
    ensures interest in r.interests <==> interest !in d.interests
    ensures forall x :: x != interest ==> multiset(r.interests)[x] == multiset(d.interests)[x]
  {
    d.(interests := Toggle(d.interests, interest))
  }

  const NamesMessage: string := "Please enter your first and last name"
  const CredentialsMessage: string := "Please enter your email and password"
  const EduMessage: string := "Email must end with .edu"
  const PasswordMessage: string := "Password must be at least 6 characters"
  const ProfileMessage: string := "Please fill in all fields"
  const InterestsMessage: string := "Please select at least one interest"

  /** The `error` text a guard leaves behind: its message, or "" when it passes. */
  function ErrorText(check: Option<string>): string
  {
    match check
    case None => ""
    case Some(m) => m
  }

  /** The JSON body both wizards post to `/api/signup`. */
  function RequestBody(d: SignupData): map<string, Json>
  {
    map[
      "first_name" := JStr(d.firstName),
      "last_name" := JStr(d.lastName),
      "email" := JStr(d.email),
      "password" := JStr(d.password),
      "gender" := JStr(d.gender),
      "school" := JStr(d.school),
      "grade_level" := JStr(d.gradeLevel),
      "interests" := JArr(seq(|d.interests|, i requires 0 <= i < |d.interests| => JStr(d.interests[i])))]
  }

  /** How the signup request ends: a 2xx reply, a non-2xx reply carrying
      `message` ("" when it has none), or a thrown error (network failure,
      a body that is not JSON) with its message. */
  datatype SignupReply = Accepted | Refused(message: string) | Thrown(message: string)

  /** `setError(err.message)` in the `catch`: the refusal's message, or
      'Signup failed' when it has none. An accepted reply sets no error. */
  function ReplyError(reply: SignupReply): string
  {
    match reply
    case Accepted => ""
    case Refused(m) => if m == "" then "Signup failed" else m
    case Thrown(m) => m
  }

  /** The navigation buttons the wizard renders: Back only when `step > 1`;
      Next when `step < 4`, otherwise the submit button. */
  datatype Button = Back | Next | CompleteSignUp

  predicate Offered(button: Button, step: int)
  {
    match button
    case Back => step > 1
    case Next => step < 4
    case CompleteSignUp => !(step < 4)
  }
}
