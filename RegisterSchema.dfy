/**
 * The registration form rules (`registerSchema`) as predicates over the form
 * values, with zod's validation result modelled as the list of issues it
 * reports: one issue per failing rule, each with the path of its field.
 */
module RegisterSchema {
  import opened CharClasses
  import Checker = PasswordStrengthChecker

  /** `flags.every(Boolean)`. */
  function AllTrue(flags: seq<bool>): (all: bool)
    ensures all <==> forall k :: 0 <= k < |flags| ==> flags[k]
  {
    if flags == [] then true else flags[0] && AllTrue(flags[1..])
  }

  /** The `requirements` array of this file's own `validateStrongPassword`. */
  function StrongPasswordFlags(password: string): (flags: seq<bool>)
    ensures |flags| == 5
  {
    [ |password| >= 9,
      HasUpper(password),
      HasLower(password),
      HasDigit(password),
      HasListedSpecial(password) ]
  }

  predicate ValidateStrongPassword(password: string)
  {
    AllTrue(StrongPasswordFlags(password))
  }

  /** This copy of the password rule agrees with the checker's on every string. */
  lemma ValidateAgreesWithChecker(password: string)
    ensures ValidateStrongPassword(password) <==> Checker.ValidateStrongPassword(password)
  {
    Checker.ValidateIffFiveTests(password);
    var flags := StrongPasswordFlags(password);
    assert AllTrue(flags) <==> flags[0] && flags[1] && flags[2] && flags[3] && flags[4];
  }

  datatype Field = FirstName | LastName | Email | CompanyName | PhoneNumber | Password | ConfirmPassword | Terms

  /**
   * A zod issue: the path it is reported on and its message. Generic in the
   * field type so that the reset-password form reports its issues the same way.
   */
  datatype Issue<F> = Issue(path: F, message: string)

  datatype RegisterForm = RegisterForm(
    firstName: string,
    lastName: string,
    email: string,
    companyName: string,
    phoneNumber: string,
    password: string,
    confirmPassword: string,
    terms: bool)

  predicate IsNameChar(c: char) { IsUpper(c) || IsLower(c) || c == ' ' }

  /** `/^[A-Za-z ]+$/`: one or more letters and spaces, nothing else. */
  predicate MatchesNamePattern(s: string)
  {
    |s| >= 1 && forall k :: 0 <= k < |s| ==> IsNameChar(s[k])
  }

  /** One rule of a field: no issue when it holds, its message when it fails. */
  function Rule<F>(field: F, holds: bool, message: string): (issues: seq<Issue<F>>)
    ensures issues == [] <==> holds
    ensures forall i :: i in issues ==> i.path == field
  {
    if holds then [] else [Issue(field, message)]
  }

  /** `.min(1)`, `.max(50)` and the letters-and-spaces pattern of a name field. */
  function NameRules(field: Field, value: string, required: string, tooLong: string, pattern: string): seq<Issue<Field>>
  {
    Rule(field, |value| >= 1, required)
    + Rule(field, |value| <= 50, tooLong)
    + Rule(field, MatchesNamePattern(value), pattern)
  }

  /**
   * The issues of one field's own rules. The email format check belongs to
   * zod and is the parameter `isEmail`.
   */
  function FieldRules(form: RegisterForm, field: Field, isEmail: string -> bool): (issues: seq<Issue<Field>>)
    ensures forall i :: i in issues ==> i.path == field
  {
    match field
    case FirstName =>
      NameRules(FirstName, form.firstName, "First Name is required",
        "First Name can be at most 50 characters long", "First Name can only contain letters and spaces")
    case LastName =>
      NameRules(LastName, form.lastName, "Last Name is required",
        "Last Name can be at most 50 characters long", "Last Name can only contain letters and spaces")
    case Email =>
      Rule(Email, isEmail(form.email), "Please enter a valid email address")
    case CompanyName =>
      NameRules(CompanyName, form.companyName, "Company name is required",
        "Company Name can be at most 50 characters long", "Company Name can only contain letters and spaces")
    case PhoneNumber =>
      Rule(PhoneNumber, |form.phoneNumber| >= 10, "Phone number is required")
    case Password =>
      Rule(Password, |form.password| >= 9, "Password must be at least 9 characters long")
      + Rule(Password, ValidateStrongPassword(form.password),
          "Password must contain at least one uppercase letter, one lowercase letter, one number, and one special character")
    case ConfirmPassword =>
      Rule(ConfirmPassword, |form.confirmPassword| >= 1, "Please confirm your password")
    case Terms =>
      Rule(Terms, form.terms, "You must accept the Terms & Conditions")
  }

  /** The field rules of the whole object, in declaration order. */
  function FieldIssues(form: RegisterForm, isEmail: string -> bool): seq<Issue<Field>>
  {
    FieldRules(form, FirstName, isEmail)
    + FieldRules(form, LastName, isEmail)
    + FieldRules(form, Email, isEmail)
    + FieldRules(form, CompanyName, isEmail)
    + FieldRules(form, PhoneNumber, isEmail)
    + FieldRules(form, Password, isEmail)
    + FieldRules(form, ConfirmPassword, isEmail)
    + FieldRules(form, Terms, isEmail)
  }

  const MismatchMessage: string := "Passwords don't match"

  /**
   * Everything `registerSchema` reports: the field issues, then the
   * object-level refinement that compares the two passwords.
   */
  function Issues(form: RegisterForm, isEmail: string -> bool): seq<Issue<Field>>
  {
    FieldIssues(form, isEmail) + Rule(ConfirmPassword, form.password == form.confirmPassword, MismatchMessage)
  }

  predicate IsValid(form: RegisterForm, isEmail: string -> bool)
  {
    Issues(form, isEmail) == []
  }

  /** What a name field needs: 1 to 50 characters, all letters or spaces. */
  predicate NameAcceptable(s: string)
  {
    1 <= |s| <= 50 && forall k :: 0 <= k < |s| ==> IsNameChar(s[k])
  }

  /** A name field passes its three rules exactly when it is acceptable. */
  lemma NameRulesMeaning(field: Field, value: string, required: string, tooLong: string, pattern: string)
    ensures NameRules(field, value, required, tooLong, pattern) == [] <==> NameAcceptable(value)
  {
    var a := Rule(field, |value| >= 1, required);
    var b := Rule(field, |value| <= 50, tooLong);
    var c := Rule(field, MatchesNamePattern(value), pattern);
    assert |a + b + c| == |a| + |b| + |c|;
  }

  /** Each field's rules, read as a condition on its value. */
  lemma FieldRulesMeaning(form: RegisterForm, field: Field, isEmail: string -> bool)
    ensures FieldRules(form, field, isEmail) == [] <==>
      match field
      case FirstName => NameAcceptable(form.firstName)
      case LastName => NameAcceptable(form.lastName)
      case Email => isEmail(form.email)
      case CompanyName => NameAcceptable(form.companyName)
      case PhoneNumber => |form.phoneNumber| >= 10
      case Password => Checker.ValidateStrongPassword(form.password)
      case ConfirmPassword => |form.confirmPassword| >= 1
      case Terms => form.terms
  {
    match field
    case FirstName =>
      NameRulesMeaning(FirstName, form.firstName, "First Name is required",
        "First Name can be at most 50 characters long", "First Name can only contain letters and spaces");
    case LastName =>
      NameRulesMeaning(LastName, form.lastName, "Last Name is required",
        "Last Name can be at most 50 characters long", "Last Name can only contain letters and spaces");
    case CompanyName =>
      NameRulesMeaning(CompanyName, form.companyName, "Company name is required",
        "Company Name can be at most 50 characters long", "Company Name can only contain letters and spaces");
    case Password =>
      ValidateAgreesWithChecker(form.password);
      Checker.ValidateIffFiveTests(form.password);
    case Email =>
    case PhoneNumber =>
    case ConfirmPassword =>
    case Terms =>
  }

  /** The field rules report nothing exactly when no single field reports anything. */
  lemma NoFieldIssues(form: RegisterForm, isEmail: string -> bool)
    ensures FieldIssues(form, isEmail) == [] <==>
      && FieldRules(form, FirstName, isEmail) == []
      && FieldRules(form, LastName, isEmail) == []
      && FieldRules(form, Email, isEmail) == []
      && FieldRules(form, CompanyName, isEmail) == []
      && FieldRules(form, PhoneNumber, isEmail) == []
      && FieldRules(form, Password, isEmail) == []
      && FieldRules(form, ConfirmPassword, isEmail) == []
      && FieldRules(form, Terms, isEmail) == []
  {
    var a := FieldRules(form, FirstName, isEmail);
    var b := FieldRules(form, LastName, isEmail);
    var c := FieldRules(form, Email, isEmail);
    var d := FieldRules(form, CompanyName, isEmail);
    var e := FieldRules(form, PhoneNumber, isEmail);
    var f := FieldRules(form, Password, isEmail);
    var g := FieldRules(form, ConfirmPassword, isEmail);
    var h := FieldRules(form, Terms, isEmail);
    assert |FieldIssues(form, isEmail)| == |a| + |b| + |c| + |d| + |e| + |f| + |g| + |h|;
  }

  /** The form is valid exactly when every field rule holds and the two passwords are equal. */
  lemma ValidIff(form: RegisterForm, isEmail: string -> bool)
    ensures IsValid(form, isEmail) <==>
      && NameAcceptable(form.firstName)
      && NameAcceptable(form.lastName)
      && isEmail(form.email)
      && NameAcceptable(form.companyName)
      && |form.phoneNumber| >= 10
      && Checker.ValidateStrongPassword(form.password)
      && form.password == form.confirmPassword
      && form.terms
  {
    NoFieldIssues(form, isEmail);
    FieldRulesMeaning(form, FirstName, isEmail);
    FieldRulesMeaning(form, LastName, isEmail);
    FieldRulesMeaning(form, Email, isEmail);
    FieldRulesMeaning(form, CompanyName, isEmail);
    FieldRulesMeaning(form, PhoneNumber, isEmail);
    FieldRulesMeaning(form, Password, isEmail);
    FieldRulesMeaning(form, ConfirmPassword, isEmail);
    FieldRulesMeaning(form, Terms, isEmail);
    Checker.ValidateIffFiveTests(form.password);
  }

  /** With every field rule met, the only possible complaint is the mismatch, on `confirmPassword`. */
  lemma MismatchOnConfirmPath(form: RegisterForm, isEmail: string -> bool)
    requires FieldIssues(form, isEmail) == []
    ensures IsValid(form, isEmail) <==> form.password == form.confirmPassword
    ensures form.password != form.confirmPassword ==>
      Issues(form, isEmail) == [Issue(ConfirmPassword, MismatchMessage)]
  {
  }
}
