/**
 * The backend password predicate `isStrongPassword`: a length bound and four
 * "some character in a class" tests, the last of which accepts any character
 * outside `[A-Za-z0-9]`.
 */
module StrongPasswordProcessor {
  import opened CharClasses

  const MinLength: nat := 9

  predicate IsStrongPassword(password: string)
  {
    && |password| >= MinLength
    && HasUpper(password)
    && HasLower(password)
    && HasDigit(password)
    && HasNonAlnum(password)
  }

  /** Length alone rules a password out: nothing shorter than nine characters passes. */
  lemma ShortPasswordRejected(password: string)
    requires |password| < MinLength
    ensures !IsStrongPassword(password)
  {
  }

  /** Appending characters never turns an accepted password into a rejected one. */
  lemma {:induction false} AppendKeepsStrong(password: string, suffix: string)
    requires IsStrongPassword(password)
    ensures IsStrongPassword(password + suffix)
  {
    var s := password + suffix;
    var u :| 0 <= u < |password| && IsUpper(password[u]);
    assert s[u] == password[u];
    var l :| 0 <= l < |password| && IsLower(password[l]);
    assert s[l] == password[l];
    var d :| 0 <= d < |password| && IsDigit(password[d]);
    assert s[d] == password[d];
    var x :| 0 <= x < |password| && !IsAlnum(password[x]);
    assert s[x] == password[x];
  }

  /**
   * Any non-alphanumeric character is special here: a password of at least
   * nine characters with an upper-case letter, a lower-case letter and a digit
   * but no special character becomes strong by appending `c` exactly when `c`
   * is not in `[A-Za-z0-9]` (space, '~' and '`' included).
   */
  lemma {:induction false} AnyNonAlnumCompletes(stem: string, c: char)
    requires |stem| >= MinLength && HasUpper(stem) && HasLower(stem) && HasDigit(stem)
    requires !HasNonAlnum(stem)
    ensures IsStrongPassword(stem + [c]) <==> !IsAlnum(c)
  {
    var s := stem + [c];
    var u :| 0 <= u < |stem| && IsUpper(stem[u]);
    assert s[u] == stem[u];
    var l :| 0 <= l < |stem| && IsLower(stem[l]);
    assert s[l] == stem[l];
    var d :| 0 <= d < |stem| && IsDigit(stem[d]);
    assert s[d] == stem[d];
    assert s[|stem|] == c;
    if IsStrongPassword(s) {
      var x :| 0 <= x < |s| && !IsAlnum(s[x]);
      assert x == |stem|;
    }
  }

  /** The three ASCII characters that only the backend counts as special. */
  lemma SpaceTildeBacktickAccepted()
    ensures IsStrongPassword("Abcdefgh1 ")
    ensures IsStrongPassword("Abcdefgh1~")
    ensures IsStrongPassword("Abcdefgh1`")
  {
    var stem := "Abcdefgh1";
    assert IsUpper(stem[0]) && IsLower(stem[1]) && IsDigit(stem[8]);
    assert forall i :: 0 <= i < |stem| ==> IsAlnum(stem[i]);
    AnyNonAlnumCompletes(stem, ' ');
    AnyNonAlnumCompletes(stem, '~');
    AnyNonAlnumCompletes(stem, '`');
    assert "Abcdefgh1 " == "Abcdefgh1" + [' '];
    assert "Abcdefgh1~" == "Abcdefgh1" + ['~'];
    assert "Abcdefgh1`" == "Abcdefgh1" + ['`'];
  }
}
