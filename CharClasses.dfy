/**
 * The character classes the password rules test with regular expressions.
 * A character is a Dafny `char`; the bracket classes `[A-Z]`, `[a-z]` and
 * `[0-9]` are the ASCII ranges, and `/[C]/.test(s)` holds when some
 * character of `s` is in the class `C`.
 */
module CharClasses {

  predicate IsUpper(c: char) { 'A' <= c <= 'Z' }
  predicate IsLower(c: char) { 'a' <= c <= 'z' }
  predicate IsDigit(c: char) { '0' <= c <= '9' }

  /** `[A-Za-z0-9]`; the backend's `[^A-Za-z0-9]` is its complement. */
  predicate IsAlnum(c: char) { IsUpper(c) || IsLower(c) || IsDigit(c) }

  /**
   * The members of the frontend's special-character class
   * `[!@#$%^&*()_+\-=\[\]{};':"\\|,.<>\/?]`, once each: thirty ASCII
   * punctuation characters. Space, '~' and '`' are not among them.
   */
  const ListedSpecials: set<char> := {
    '!', '@', '#', '$', '%', '^', '&', '*', '(', ')', '_', '+', '-', '=', '[', ']', '{', '}', ';', '\'', ':', '\"', '\\', '|', ',', '.', '<', '>', '/', '?'
  }

  predicate IsListedSpecial(c: char) { c in ListedSpecials }

  predicate HasUpper(s: string) { exists i :: 0 <= i < |s| && IsUpper(s[i]) }
  predicate HasLower(s: string) { exists i :: 0 <= i < |s| && IsLower(s[i]) }
  predicate HasDigit(s: string) { exists i :: 0 <= i < |s| && IsDigit(s[i]) }
  predicate HasNonAlnum(s: string) { exists i :: 0 <= i < |s| && !IsAlnum(s[i]) }
  predicate HasListedSpecial(s: string) { exists i :: 0 <= i < |s| && IsListedSpecial(s[i]) }

  /** Every listed special character lies outside `[A-Za-z0-9]`. */
  lemma ListedSpecialIsNotAlnum(c: char)
    requires IsListedSpecial(c)
    ensures !IsAlnum(c)
  {
  }

  /** So a string with a listed special character has a non-alphanumeric one. */
  lemma ListedSpecialGivesNonAlnum(s: string)
    requires HasListedSpecial(s)
    ensures HasNonAlnum(s)
  {
    var i :| 0 <= i < |s| && IsListedSpecial(s[i]);
    ListedSpecialIsNotAlnum(s[i]);
  }

  /** The ASCII punctuation that the listed class leaves out. */
  lemma UnlistedPunctuation()
    ensures !IsListedSpecial(' ') && !IsListedSpecial('~') && !IsListedSpecial('`')
    ensures !IsAlnum(' ') && !IsAlnum('~') && !IsAlnum('`')
  {
  }
}
