/** `getGradYear` from frontend/src/components/UserProfileModal.js: the
    profile modal's "graduates in" text for a grade level. The current year,
    which the component reads from the clock, is a parameter. */
module GradYear {

  /** What `getGradYear` returns: a year, or the string 'Graduate'. */
  datatype GradYear = Year(year: int) | GraduateLabel

  /** `gradeLevels[gradeLevel] || 0`: the years left for the five listed
      levels, 0 for everything else (a missing key is `undefined`, which
      `|| 0` turns into 0). */
  function YearsUntilGrad(level: string): (n: nat)
    ensures n <= 4
    ensures n > 0 <==> level in {"Freshman", "Sophomore", "Junior", "Senior"}
  {
    if level == "Freshman" then 4
    else if level == "Sophomore" then 3
    else if level == "Junior" then 2
    else if level == "Senior" then 1
    else 0
  }

  function GetGradYear(level: string, currentYear: int): (r: GradYear)
    ensures level == "Freshman" ==> r == Year(currentYear + 4)
    ensures level == "Sophomore" ==> r == Year(currentYear + 3)
    ensures level == "Junior" ==> r == Year(currentYear + 2)
    ensures level == "Senior" ==> r == Year(currentYear + 1)
    ensures level !in {"Freshman", "Sophomore", "Junior", "Senior"} ==> r == GraduateLabel
    ensures r.Year? ==> currentYear < r.year <= currentYear + 4
  {
    var years := YearsUntilGrad(level);
    if years > 0 then Year(currentYear + years) else GraduateLabel
  }

  /** Within one year, a graduation year names exactly one grade level: the
      lookup can be read backwards. */
  lemma YearDeterminesLevel(a: string, b: string, currentYear: int)
    requires GetGradYear(a, currentYear).Year?
    requires GetGradYear(a, currentYear) == GetGradYear(b, currentYear)
    ensures a == b
  {
  }

  /** The grade levels either signup wizard offers. */
  const SignupGradeOptions: seq<string> :=
    ["9th Grade", "10th Grade", "11th Grade", "12th Grade",
     "College Freshman", "College Sophomore", "College Junior", "College Senior"]

  const Signup2GradeOptions: seq<string> :=
    ["College Freshman", "College Sophomore", "College Junior", "College Senior"]

  /** None of the levels a user can pick at signup is a key of the table,
      so every profile created through either wizard shows 'Graduate'. */
  lemma {:induction false} SignupLevelsShowGraduate(level: string, currentYear: int)
    requires level in SignupGradeOptions || level in Signup2GradeOptions
    ensures GetGradYear(level, currentYear) == GraduateLabel
  {
    assert level[0] != 'F' && level[0] != 'S' && level[0] != 'J';
  }
}
