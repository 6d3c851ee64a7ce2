/**
 * The reset-password form rules (`resetPasswordSchema`), its own copy of the
 * strong-password rule, and the form's default values.
 */
module ResetPasswordSchema {
  import opened CharClasses
  import Checker = PasswordStrengthChecker
  import Register = RegisterSchema

  /**
   * The `requirements` array of this file's own `validateStrongPassword`; the
   * file repeats the registration form's array rather than importing it.
   */
  function StrongPasswordFlags(password: string): (flags: seq<bool>)
    ensures |flags| == 5
  {
    [ |password| >= 9,
      HasUpper(password),
      HasLower(password),
      HasDigit(password),
      HasListedSpecial(password) ]
  }

  predicate ValidateStrongPassword(password: string)
  {
    Register.AllTrue(StrongPasswordFlags(password))
  }

  /** This copy agrees with the registration form's, and so with the checker's. */
  lemma ValidateAgreesWithRegister(password: string)
    ensures ValidateStrongPassword(password) <==> Register.ValidateStrongPassword(password)
    ensures ValidateStrongPassword(password) <==> Checker.ValidateStrongPassword(password)
  {
    Register.ValidateAgreesWithChecker(password);
    var flags := StrongPasswordFlags(password);
    assert Register.AllTrue(flags) <==> flags[0] && flags[1] && flags[2] && flags[3] && flags[4];
  }

  datatype Field = Password | ConfirmPassword

  datatype ResetForm = ResetForm(password: string, confirmPassword: string)

  const TooShortMessage: string := "Password must be at least 9 characters long"
  const WeakMessage: string := "Password must contain uppercase, lowercase, number, and special character"
  const ConfirmMessage: string := "Please confirm your password"
  const MismatchMessage: string := "Passwords don't match"

  /** The two field rules, in declaration order. */
  function FieldIssues(form: ResetForm): seq<Register.Issue<Field>>
  {
    Register.Rule(Password, |form.password| >= 9, TooShortMessage)
    + Register.Rule(Password, ValidateStrongPassword(form.password), WeakMessage)
    + Register.Rule(ConfirmPassword, |form.confirmPassword| >= 1, ConfirmMessage)
  }

  /** The field issues, then the refinement comparing the two passwords. */
  function Issues(form: ResetForm): seq<Register.Issue<Field>>
  {
    FieldIssues(form) + Register.Rule(ConfirmPassword, form.password == form.confirmPassword, MismatchMessage)
  }

  predicate IsValid(form: ResetForm)
  {
    Issues(form) == []
  }

  /** The form is valid exactly when the password is strong and repeated. */
  lemma ValidIff(form: ResetForm)
    ensures IsValid(form) <==>
      Checker.ValidateStrongPassword(form.password) && form.password == form.confirmPassword
  {
    ValidateAgreesWithRegister(form.password);
    Checker.ValidateIffFiveTests(form.password);
    var a := Register.Rule(Password, |form.password| >= 9, TooShortMessage);
    var b := Register.Rule(Password, ValidateStrongPassword(form.password), WeakMessage);
    var c := Register.Rule(ConfirmPassword, |form.confirmPassword| >= 1, ConfirmMessage);
    var d := Register.Rule(ConfirmPassword, form.password == form.confirmPassword, MismatchMessage);
    assert |a + b + c + d| == |a| + |b| + |c| + |d|;
  }

  /** With both field rules met, a mismatch is the only issue, and it is reported on `confirmPassword`. */
  lemma MismatchOnConfirmPath(form: ResetForm)
    requires FieldIssues(form) == []
    requires form.password != form.confirmPassword
    ensures Issues(form) == [Register.Issue(ConfirmPassword, MismatchMessage)]
  {
  }

  /** `resetPasswordDefaults`. */
  const ResetPasswordDefaults: ResetForm := ResetForm("", "")

  /** The empty defaults fail: too short, not strong, and no confirmation. */
  lemma DefaultsDoNotValidate()
    ensures Issues(ResetPasswordDefaults) ==
      [ Register.Issue(Password, TooShortMessage),
        Register.Issue(Password, WeakMessage),
        Register.Issue(ConfirmPassword, ConfirmMessage) ]
    ensures !IsValid(ResetPasswordDefaults)
  {
    assert !ValidateStrongPassword("") by {
      assert !StrongPasswordFlags("")[0];
    }
  }
}
