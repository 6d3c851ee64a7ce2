/**
 * The frontend password checker: the table of five requirements, the
 * `every`/`filter` summaries the component computes from it, the strength
 * label it renders, and the exported `validateStrongPassword`.
 */
module PasswordStrengthChecker {
  import opened CharClasses
  import Backend = StrongPasswordProcessor

  /** The `id`s of the entries of `passwordRequirements`, in table order. */
  datatype Requirement = Length | Uppercase | Lowercase | Number | Special

  const PasswordRequirements: seq<Requirement> := [Length, Uppercase, Lowercase, Number, Special]

  /** The `test` of each entry. */
  predicate Test(req: Requirement, password: string)
  {
    match req
    case Length => |password| >= 9
    case Uppercase => HasUpper(password)
    case Lowercase => HasLower(password)
    case Number => HasDigit(password)
    case Special => HasListedSpecial(password)
  }

  /** `reqs.every(req => req.test(password))`. */
  function Every(reqs: seq<Requirement>, password: string): (all: bool)
    ensures all <==> forall k :: 0 <= k < |reqs| ==> Test(reqs[k], password)
  {
    if reqs == [] then true
    else Test(reqs[0], password) && Every(reqs[1..], password)
  }

  /**
   * `reqs.filter(req => req.test(password))`: the passing entries, each taken
   * from the table at most as often as it occurs there.
   */
  function Passing(reqs: seq<Requirement>, password: string): (met: seq<Requirement>)
    ensures |met| <= |reqs|
    ensures multiset(met) <= multiset(reqs)
    ensures forall r :: r in met <==> r in reqs && Test(r, password)
    ensures |met| == |reqs| <==> Every(reqs, password)
  {
    assert reqs != [] ==> reqs == [reqs[0]] + reqs[1..];
    if reqs == [] then []
    else if Test(reqs[0], password) then [reqs[0]] + Passing(reqs[1..], password)
    else Passing(reqs[1..], password)
  }

  predicate AllRequirementsMet(password: string)
  {
    Every(PasswordRequirements, password)
  }

  /** 1 for a test that holds, 0 for one that fails. */
  function Indicator(b: bool): nat
  {
    if b then 1 else 0
  }

  /** `metRequirements.length`: how many of the five tests hold. */
  function MetRequirementsCount(password: string): (count: nat)
    ensures count <= 5
    ensures count == 5 <==> AllRequirementsMet(password)
    ensures count ==
      Indicator(|password| >= 9) + Indicator(HasUpper(password)) + Indicator(HasLower(password))
      + Indicator(HasDigit(password)) + Indicator(HasListedSpecial(password))
  {
    CountIsSumOfTests(password);
    |Passing(PasswordRequirements, password)|
  }

  /** Walks the filter down the five-entry table, one entry at a time. */
  lemma CountIsSumOfTests(password: string)
    ensures |Passing(PasswordRequirements, password)| ==
      Indicator(|password| >= 9) + Indicator(HasUpper(password)) + Indicator(HasLower(password))
      + Indicator(HasDigit(password)) + Indicator(HasListedSpecial(password))
  {
    var r0 := PasswordRequirements;
    var r1 := r0[1..];
    var r2 := r1[1..];
    var r3 := r2[1..];
    var r4 := r3[1..];
    assert r0[0] == Length && r1[0] == Uppercase && r2[0] == Lowercase;
    assert r3[0] == Number && r4[0] == Special && r4[1..] == [];
    PassingStep(r0, password);
    PassingStep(r1, password);
    PassingStep(r2, password);
    PassingStep(r3, password);
    PassingStep(r4, password);
  }

  /** The filter keeps the first entry exactly when it passes. */
  lemma PassingStep(reqs: seq<Requirement>, password: string)
    requires reqs != []
    ensures |Passing(reqs, password)| == Indicator(Test(reqs[0], password)) + |Passing(reqs[1..], password)|
  {
  }

  /** The exported `validateStrongPassword`. */
  predicate ValidateStrongPassword(password: string)
  {
    Every(PasswordRequirements, password)
  }

  /** The five tests spelled out: what a password needs to be accepted by the checker. */
  lemma ValidateIffFiveTests(password: string)
    ensures ValidateStrongPassword(password) <==>
      && |password| >= 9
      && HasUpper(password)
      && HasLower(password)
      && HasDigit(password)
      && HasListedSpecial(password)
  {
    var reqs := PasswordRequirements;
    assert reqs[0] == Length && reqs[1] == Uppercase && reqs[2] == Lowercase;
    assert reqs[3] == Number && reqs[4] == Special;
  }

  /** The checker is at least as strict as the backend. */
  lemma ValidateImpliesBackend(password: string)
    requires ValidateStrongPassword(password)
    ensures Backend.IsStrongPassword(password)
  {
    ValidateIffFiveTests(password);
    ListedSpecialGivesNonAlnum(password);
  }

  /** ... and strictly so: a password with '~' as its only symbol passes the backend only. */
  lemma BackendAcceptsWhatCheckerRejects()
    ensures Backend.IsStrongPassword("Abcdefgh1~")
    ensures !ValidateStrongPassword("Abcdefgh1~")
  {
    Backend.SpaceTildeBacktickAccepted();
    var s := "Abcdefgh1~";
    ValidateIffFiveTests(s);
    forall i | 0 <= i < |s| ensures !IsListedSpecial(s[i]) {
      if i < 9 {
        assert IsAlnum(s[i]);
        if IsListedSpecial(s[i]) { ListedSpecialIsNotAlnum(s[i]); }
      } else {
        assert s[i] == '~';
        UnlistedPunctuation();
      }
    }
  }

  /** The label shown next to "Password Strength:". */
  datatype Strength = Weak | Fair | Good | Strong

  /**
   * The four conditional fragments the component renders, in order; each
   * contributes its label when its condition holds and nothing otherwise.
   */
  function RenderedLabels(count: nat, allMet: bool): seq<Strength>
  {
    (if count < 2 then [Weak] else [])
    + (if count >= 2 && count < 4 then [Fair] else [])
    + (if count >= 4 && !allMet then [Good] else [])
    + (if allMet then [Strong] else [])
  }

  /**
   * The label for a met-count and the all-met flag, as the fragments choose
   * it: whenever the flag means "all five met", exactly one fragment renders.
   */
  function LabelFor(count: nat, allMet: bool): (s: Strength)
    requires count <= 5 && (count == 5 <==> allMet)
    ensures RenderedLabels(count, allMet) == [s]
    ensures s == Weak <==> count < 2
    ensures s == Fair <==> 2 <= count < 4
    ensures s == Good <==> 4 <= count && !allMet
    ensures s == Strong <==> allMet
  {
    if count < 2 then Weak
    else if count < 4 then Fair
    else if !allMet then Good
    else Strong
  }

  /** The label shown for a password: the fragments always render exactly one. */
  function StrengthOf(password: string): (s: Strength)
    ensures RenderedLabels(MetRequirementsCount(password), AllRequirementsMet(password)) == [s]
    ensures s == Weak <==> MetRequirementsCount(password) < 2
    ensures s == Fair <==> 2 <= MetRequirementsCount(password) < 4
    ensures s == Good <==> 4 <= MetRequirementsCount(password) && !AllRequirementsMet(password)
    ensures s == Strong <==> ValidateStrongPassword(password)
  {
    LabelFor(MetRequirementsCount(password), AllRequirementsMet(password))
  }

  function Rank(s: Strength): nat
  {
    match s
    case Weak => 0
    case Fair => 1
    case Good => 2
    case Strong => 3
  }

  /** Meeting more requirements never shows a worse label. */
  lemma StrengthMonotone(p: string, q: string)
    ensures MetRequirementsCount(p) <= MetRequirementsCount(q) ==> Rank(StrengthOf(p)) <= Rank(StrengthOf(q))
  {
  }
}
