/** The three-step signup wizard (`handleNext`, `handleBack`, `handleSubmit`):
    personal details, account details, then the optional medical history. */
module SignupPage {
  import opened Interfaces
  import opened JsString
  import opened Validators
  import opened AppState

  /** The alert `handleNext` raises, one per check, in the order checked. */
  datatype SignupError =
    | NameTooShort       // "Full name must be at least 3 characters."
    | AgeOutOfRange      // "Age must be between 1 and 120."
    | AadharInvalid      // "Aadhar number must be exactly 12 digits."
    | GenderMissing      // "Please select a gender."
    | EmailInvalid       // "Please enter a valid email."
    | PasswordTooShort   // "Password must be at least 8 characters."

  /** `x < y` for a JavaScript number and a finite bound: false for NaN. */
  predicate IsBelow(x: JsNumber, y: real) {
    match x
    case Finite(v) => v < y
    case NaN => false
    case PositiveInfinity => false
    case NegativeInfinity => true
  }

  /** `x > y` for a JavaScript number and a finite bound: false for NaN. */
  predicate IsAbove(x: JsNumber, y: real) {
    match x
    case Finite(v) => v > y
    case NaN => false
    case PositiveInfinity => true
    case NegativeInfinity => false
  }

  /** The age check `ageNum < 1 || ageNum > 120` on `ageNum = Number(age)`. */
  predicate AgeRejected(age: JsNumber) {
    IsBelow(age, 1.0) || IsAbove(age, 120.0)
  }

  /** A finite age passes exactly when it lies in [1, 120]; a value that is
      not a number passes too, since both comparisons are false for it. */
  lemma AgeCheckMeaning(age: JsNumber)
    ensures !AgeRejected(age) <==> age.NaN? || (age.Finite? && 1.0 <= age.value <= 120.0)
  {
  }

  /** Step 1's requirements. */
  predicate PersonalDetailsValid(form: UserData, age: JsNumber) {
    |Trim(form.fullName)| >= 3 && !AgeRejected(age)
    && IsTwelveDigits(form.aadhar) && form.gender != []
  }

  /** Step 2's requirements, with the e-mail pattern as the regular
      expression defines it. */
  ghost predicate AccountDetailsValid(form: UserData) {
    MatchesEmailPattern(form.email) && |form.password| >= 8
  }

  /** The first failing check of `handleNext` at `step`, if any. `age` is
      `Number(form.age)`. Step 3 has no mandatory field. */
  function StepError(step: int, form: UserData, age: JsNumber): (r: Option<SignupError>)
    ensures r.None? <==> (step == 1 ==> PersonalDetailsValid(form, age))
                         && (step == 2 ==> AccountDetailsValid(form))
    ensures r.Some? ==> step == 1 || step == 2
    // Step 1 reports its first failing check: name, age, Aadhar, gender.
    ensures step == 1 && |Trim(form.fullName)| < 3 ==> r == Some(NameTooShort)
    ensures step == 1 && |Trim(form.fullName)| >= 3 && AgeRejected(age)
            ==> r == Some(AgeOutOfRange)
    ensures step == 1 && |Trim(form.fullName)| >= 3 && !AgeRejected(age) && !IsTwelveDigits(form.aadhar)
            ==> r == Some(AadharInvalid)
    ensures step == 1 && |Trim(form.fullName)| >= 3 && !AgeRejected(age) && IsTwelveDigits(form.aadhar)
            && form.gender == []
            ==> r == Some(GenderMissing)
    // Step 2 reports its first failing check: e-mail, then password.
    ensures step == 2 && !MatchesEmailPattern(form.email) ==> r == Some(EmailInvalid)
    ensures step == 2 && MatchesEmailPattern(form.email) && |form.password| < 8
            ==> r == Some(PasswordTooShort)
  {
    if step == 1 then
      if |Trim(form.fullName)| < 3 then Some(NameTooShort)
      else if AgeRejected(age) then Some(AgeOutOfRange)
      else if !IsTwelveDigits(form.aadhar) then Some(AadharInvalid)
      else if form.gender == [] then Some(GenderMissing)
      else None
    else if step == 2 then
      if !IsEmail(form.email) then Some(EmailInvalid)
      else if |form.password| < 8 then Some(PasswordTooShort)
      else None
    else None
  }

  class SignupWizard {
    const app: App
    var step: int
    var form: UserData

    ghost predicate Valid()
      reads this
    {
      1 <= step <= 3
    }

    constructor (root: App)
      ensures Valid() && app == root && step == 1 && form == EmptyUserData
    {
      app := root;
      step := 1;
      form := EmptyUserData;
    }

    /** The fields' `onChange` handlers. */
    method EditForm(f: UserData)
      modifies this`form
      ensures form == f
    {
      form := f;
    }

    /** `handleNext`: moves one step forward when the current step's checks
        pass and the wizard is not at its last step. */
    method HandleNext(age: JsNumber) returns (error: Option<SignupError>)
      requires Valid()
      modifies this`step
      ensures Valid()
      ensures error == StepError(old(step), form, age)
      ensures step == if error.None? && old(step) < 3 then old(step) + 1 else old(step)
    {
      error := StepError(step, form, age);
      if error.None? && step < 3 {
        step := step + 1;
      }
    }

    /** `handleBack`: one step back, never below the first. */
    method HandleBack()
      requires Valid()
      modifies this`step
      ensures Valid()
      ensures step == if old(step) > 1 then old(step) - 1 else old(step)
    {
      if step > 1 {
        step := step - 1;
      }
    }

    /** `handleSubmit`: stores the profile, logs the user in and opens the
        diagnosis page. It checks nothing. The alert it raises reads
        "Account created successfully! Welcome to MediBot." */
    method Submit()
      requires app.Valid()
      modifies app`userData, app`isLoggedIn, app`currentPage
      ensures app.Valid()
      ensures app.userData == Some(form) && app.isLoggedIn && app.currentPage == Diagnose
    {
      app.userData := Some(form);
      app.isLoggedIn := true;
      app.currentPage := Diagnose;
    }
  }
}
