/**
 * The four fixed character classes the generator draws from, exactly as
 * written in the screen's source, each tied to an independent description:
 * a range of code points for the three alphanumeric ones.
 */
module CharClasses {

  const UpperCaseChars: string := "ABCDEFGHIJKLMNOPQRSTUVWXYZ"
  const LowerCaseChars: string := "abcdefghijklmnopqrstuvwxyz"
  const NumbersChars: string := "0123456789"
  /** 29 characters: the source's `\'` escape is a plain apostrophe. */
  const SpecialChars: string := "!@#$%^&*()_+[]';/.,{}|:?> <`~"

  predicate IsUpper(c: char) { 'A' <= c <= 'Z' }
  predicate IsLower(c: char) { 'a' <= c <= 'z' }
  predicate IsDigit(c: char) { '0' <= c <= '9' }
  predicate IsAlphanumeric(c: char) { IsUpper(c) || IsLower(c) || IsDigit(c) }

  lemma UpperCaseCharsAre(c: char)
    ensures |UpperCaseChars| == 26
    ensures c in UpperCaseChars <==> IsUpper(c)
  {
  }

  lemma LowerCaseCharsAre(c: char)
    ensures |LowerCaseChars| == 26
    ensures c in LowerCaseChars <==> IsLower(c)
  {
  }

  lemma NumbersCharsAre(c: char)
    ensures |NumbersChars| == 10
    ensures c in NumbersChars <==> IsDigit(c)
  {
  }

  /** The symbol class has 29 members, none of them a letter or a digit. */
  lemma SpecialCharsAre(c: char)
    ensures |SpecialChars| == 29
    ensures c in SpecialChars ==> !IsAlphanumeric(c)
  {
  }

  /** The four classes are pairwise disjoint. */
  lemma ClassesDisjoint(c: char)
    ensures !(c in UpperCaseChars && c in LowerCaseChars)
    ensures !(c in UpperCaseChars && c in NumbersChars)
    ensures !(c in LowerCaseChars && c in NumbersChars)
    ensures !(c in SpecialChars && (c in UpperCaseChars || c in LowerCaseChars || c in NumbersChars))
  {
    UpperCaseCharsAre(c);
    LowerCaseCharsAre(c);
    NumbersCharsAre(c);
    SpecialCharsAre(c);
  }
}
