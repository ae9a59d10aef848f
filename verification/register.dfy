/** The registration form's checks (src/pages/Register.tsx). Sign-up and
    sign-in are remote calls whose outcomes are inputs. */
module Register {
  import opened Wrappers
  import EmailValidator

  /** `email.endsWith('@srit.ac.in')`: the domain test the register and
      whitelist forms use in place of the validator. */
  predicate HasSritSuffix(email: string) {
    |EmailValidator.SritDomain| <= |email| && email[|email| - |EmailValidator.SritDomain|..] == EmailValidator.SritDomain
  }

  /** The shortest password accepted. */
  const MinPasswordLength := 6

  /** Where `handleSubmit`'s checks stop. */
  datatype Check = DomainError | MismatchError | WeakPasswordError | SignUp

  /** The checks in order: the domain, then the confirmation, then the
      length; sign-up is attempted only when all three pass. */
  function SubmitChecks(email: string, password: string, confirmPassword: string): (c: Check)
    ensures c == DomainError <==> !HasSritSuffix(email)
    ensures c == MismatchError <==> HasSritSuffix(email) && password != confirmPassword
    ensures c == WeakPasswordError <==> HasSritSuffix(email) && password == confirmPassword && |password| < 6
    ensures c == SignUp <==> HasSritSuffix(email) && password == confirmPassword && |password| >= 6
  {
    if !HasSritSuffix(email) then DomainError
    else if password != confirmPassword then MismatchError
    else if |password| < MinPasswordLength then WeakPasswordError
    else SignUp
  }

  /** What follows the sign-up: its error message is shown, or the page
      moves to the login page when the automatic sign-in fails, or to
      `from` when it succeeds. */
  datatype AfterSubmit = ShowCheckError(check: Check) | ShowSignUpError(message: string) | GoToLogin | GoTo(path: string)

  /** `handleSubmit` end to end. `signUpError` is the sign-up's error
      message, `signInFailed` whether the automatic sign-in failed. */
  function HandleSubmit(email: string, password: string, confirmPassword: string,
                        signUpError: Option<string>, signInFailed: bool, from: string): (r: AfterSubmit)
    ensures SubmitChecks(email, password, confirmPassword) != SignUp ==> r == ShowCheckError(SubmitChecks(email, password, confirmPassword))
    ensures SubmitChecks(email, password, confirmPassword) == SignUp && signUpError.Some? ==> r == ShowSignUpError(signUpError.value)
    ensures r == GoToLogin <==> SubmitChecks(email, password, confirmPassword) == SignUp && signUpError.None? && signInFailed
    ensures r.GoTo? <==> SubmitChecks(email, password, confirmPassword) == SignUp && signUpError.None? && !signInFailed
    ensures r.GoTo? ==> r.path == from
  {
    var c := SubmitChecks(email, password, confirmPassword);
    if c != SignUp then ShowCheckError(c)
    else if signUpError.Some? then ShowSignUpError(signUpError.value)
    else if signInFailed then GoToLogin
    else GoTo(from)
  }

  /** The gate is weaker than the validator: every valid SRIT address
      passes it, and so does the bare domain, which the validator rejects. */
  lemma GateWeakerThanValidator(e: string)
    ensures EmailValidator.IsValidSRITEmail(e) ==> HasSritSuffix(e)
    ensures HasSritSuffix(EmailValidator.SritDomain) && !EmailValidator.IsValidSRITEmail(EmailValidator.SritDomain)
    ensures SubmitChecks(EmailValidator.SritDomain, "secret", "secret") == SignUp
  {
    EmailValidator.SritIsStrict();
    if EmailValidator.IsValidSRITEmail(e) {
      var k := EmailValidator.LocalRun(e);
      assert e[k..] == EmailValidator.SritDomain;
      assert |e| - |EmailValidator.SritDomain| == k;
    }
    assert EmailValidator.SritDomain[0..] == EmailValidator.SritDomain;
  }
}
