/** ASCII case folding, the model of Java's String.toLowerCase and
    String.toUpperCase used by the distance command. Only the letters
    'A'..'Z' and 'a'..'z' are folded; every other character is left as is. */
module Ascii {

  predicate IsUpperLetter(c: char) { 'A' <= c <= 'Z' }

  predicate IsLowerLetter(c: char) { 'a' <= c <= 'z' }

  function LowerChar(c: char): char {
    if IsUpperLetter(c) then (c as int + 32) as char else c
  }

  function UpperChar(c: char): char {
    if IsLowerLetter(c) then (c as int - 32) as char else c
  }

  /** String.toLowerCase, character by character. */
  function ToLower(s: string): string {
    seq(|s|, i requires 0 <= i < |s| => LowerChar(s[i]))
  }

  /** String.toUpperCase, character by character. */
  function ToUpper(s: string): string {
    seq(|s|, i requires 0 <= i < |s| => UpperChar(s[i]))
  }

  /** Lower-casing twice is lower-casing once. */
  lemma ToLowerIdempotent(s: string)
    ensures ToLower(ToLower(s)) == ToLower(s)
  {
  }

  /** For a name spelled in capital letters only, `t` upper-cases to that
      name exactly when `t` lower-cases to the name's lower-case spelling:
      both say that `t` is the name, ignoring case. */
  lemma UpperMatchIffLowerMatch(t: string, name: string)
    requires forall i :: 0 <= i < |name| ==> IsUpperLetter(name[i])
    ensures ToUpper(t) == name <==> ToLower(t) == ToLower(name)
  {
    if |t| == |name| {
      forall i | 0 <= i < |t|
        ensures (UpperChar(t[i]) == name[i]) == (LowerChar(t[i]) == LowerChar(name[i]))
      {
      }
      if ToUpper(t) == name {
        assert forall i :: 0 <= i < |t| ==> ToUpper(t)[i] == name[i];
        assert forall i :: 0 <= i < |t| ==> ToLower(t)[i] == ToLower(name)[i];
      }
      if ToLower(t) == ToLower(name) {
        forall i | 0 <= i < |t| ensures ToUpper(t)[i] == name[i] {
          assert ToLower(t)[i] == ToLower(name)[i];
        }
      }
    }
  }
}
