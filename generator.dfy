/**
 * Password generation: the character pool built from the enabled classes,
 * and the loop that appends one pool character per requested position.
 *
 * The source draws each index as `Math.round(Math.random() * pool.length)`,
 * a whole number in [0, |pool|] inclusive. The model takes those draws as an
 * injected sequence; a draw equal to |pool| makes `charAt` return the empty
 * string, so that position adds nothing to the password.
 */
module Generator {
  import opened CharClasses

  /** The four checkbox flags of the screen. */
  datatype Flags = Flags(lowerCase: bool, upperCase: bool, numbers: bool, symbols: bool)
  {
    /** No class is enabled: the condition under which the form shows its warning. */
    predicate NoneSelected() {
      !lowerCase && !upperCase && !numbers && !symbols
    }
  }

  /** The pool: the enabled class literals, in the source's order upper, lower, digits, symbols. */
  function Pool(f: Flags): string {
    (if f.upperCase then UpperCaseChars else "")
    + (if f.lowerCase then LowerCaseChars else "")
    + (if f.numbers then NumbersChars else "")
    + (if f.symbols then SpecialChars else "")
  }

  /** `c` belongs to one of the classes `f` enables, stated without reference to the literals. */
  predicate InEnabledClass(c: char, f: Flags) {
    (f.upperCase && IsUpper(c))
    || (f.lowerCase && IsLower(c))
    || (f.numbers && IsDigit(c))
    || (f.symbols && c in SpecialChars)
  }

  /** JavaScript's `String.prototype.charAt` for a non-negative index. */
  function CharAt(s: string, i: nat): string {
    if i < |s| then [s[i]] else ""
  }

  /** Every draw lies in [0, poolSize], the range of `Math.round(Math.random() * poolSize)`. */
  predicate DrawsInRange(draws: seq<nat>, poolSize: nat) {
    forall k :: 0 <= k < |draws| ==> draws[k] <= poolSize
  }

  /** Every draw is a valid index of a pool of size `poolSize`. */
  predicate AllDrawsHit(draws: seq<nat>, poolSize: nat) {
    forall k :: 0 <= k < |draws| ==> draws[k] < poolSize
  }

  /** The password the loop produces: one `charAt` per draw, appended in order. */
  function Generated(pool: string, draws: seq<nat>): string
    decreases |draws|
  {
    if draws == [] then ""
    else Generated(pool, draws[..|draws| - 1]) + CharAt(pool, draws[|draws| - 1])
  }

  /** The number of draws that fall outside the pool. */
  function Misses(pool: string, draws: seq<nat>): nat
    decreases |draws|
  {
    if draws == [] then 0
    else Misses(pool, draws[..|draws| - 1]) + (if draws[|draws| - 1] < |pool| then 0 else 1)
  }

  // ---------------------------------------------------------------- the pool

  lemma PoolLength(f: Flags)
    ensures |Pool(f)| == (if f.upperCase then 26 else 0) + (if f.lowerCase then 26 else 0)
                         + (if f.numbers then 10 else 0) + (if f.symbols then 29 else 0)
  {
    UpperCaseCharsAre('A');
    LowerCaseCharsAre('a');
    NumbersCharsAre('0');
    SpecialCharsAre('!');
  }

  lemma PoolEmptyIff(f: Flags)
    ensures Pool(f) == "" <==> f.NoneSelected()
  {
    PoolLength(f);
  }

  lemma PoolMembers(f: Flags, c: char)
    ensures c in Pool(f) <==> InEnabledClass(c, f)
  {
    UpperCaseCharsAre(c);
    LowerCaseCharsAre(c);
    NumbersCharsAre(c);
  }

  // ---------------------------------------------------------- the generation

  /** Each position adds at most one character; exactly as many as are missing were misses. */
  lemma {:induction false} GeneratedLength(pool: string, draws: seq<nat>)
    ensures |Generated(pool, draws)| + Misses(pool, draws) == |draws|
    decreases |draws|
  {
    if draws != [] {
      GeneratedLength(pool, draws[..|draws| - 1]);
    }
  }

  lemma {:induction false} MissesZeroIff(pool: string, draws: seq<nat>)
    ensures Misses(pool, draws) == 0 <==> AllDrawsHit(draws, |pool|)
    decreases |draws|
  {
    if draws != [] {
      var init := draws[..|draws| - 1];
      MissesZeroIff(pool, init);
      assert forall k :: 0 <= k < |init| ==> init[k] == draws[k];
    }
  }

  /** The password is never longer than requested, and is exactly as long iff no draw equals |pool|. */
  lemma {:induction false} GeneratedFullLength(pool: string, draws: seq<nat>)
    requires DrawsInRange(draws, |pool|)
    ensures |Generated(pool, draws)| <= |draws|
    ensures |Generated(pool, draws)| == |draws| <==> forall k :: 0 <= k < |draws| ==> draws[k] != |pool|
  {
    GeneratedLength(pool, draws);
    MissesZeroIff(pool, draws);
  }

  /** When every draw hits the pool, position k of the password is exactly pool[draws[k]]. */
  lemma {:induction false} GeneratedAt(pool: string, draws: seq<nat>, k: nat)
    requires AllDrawsHit(draws, |pool|)
    requires k < |draws|
    ensures |Generated(pool, draws)| == |draws|
    ensures Generated(pool, draws)[k] == pool[draws[k]]
    decreases |draws|
  {
    var init := draws[..|draws| - 1];
    assert AllDrawsHit(init, |pool|) by {
      assert forall j :: 0 <= j < |init| ==> init[j] == draws[j];
    }
    GeneratedLength(pool, init);
    MissesZeroIff(pool, init);
    if k < |init| {
      GeneratedAt(pool, init, k);
    }
  }

  /** Every character of the password is a character of the pool. */
  lemma {:induction false} GeneratedFromPool(pool: string, draws: seq<nat>)
    ensures forall j :: 0 <= j < |Generated(pool, draws)| ==> Generated(pool, draws)[j] in pool
    decreases |draws|
  {
    if draws != [] {
      GeneratedFromPool(pool, draws[..|draws| - 1]);
    }
  }

  /** With no class enabled the pool is empty and so is the password, whatever the draws. */
  lemma {:induction false} NoClassEmptyPassword(f: Flags, draws: seq<nat>)
    requires f.NoneSelected()
    ensures Pool(f) == "" && Generated(Pool(f), draws) == ""
  {
    GeneratedFromPool(Pool(f), draws);
    if Generated(Pool(f), draws) != "" {
      assert Generated(Pool(f), draws)[0] in Pool(f);
    }
  }

  /** Every character of the password belongs to an enabled class. */
  lemma {:induction false} PasswordFromEnabledClasses(f: Flags, draws: seq<nat>)
    ensures forall j :: 0 <= j < |Generated(Pool(f), draws)| ==> InEnabledClass(Generated(Pool(f), draws)[j], f)
  {
    GeneratedFromPool(Pool(f), draws);
    forall j | 0 <= j < |Generated(Pool(f), draws)|
      ensures InEnabledClass(Generated(Pool(f), draws)[j], f)
    {
      PoolMembers(f, Generated(Pool(f), draws)[j]);
    }
  }

  /** With only lowercase enabled (the screen's initial selection) the password is lowercase letters. */
  lemma {:induction false} LowerCaseOnlyPassword(draws: seq<nat>)
    ensures forall j :: 0 <= j < |Generated(Pool(Flags(true, false, false, false)), draws)| ==>
              IsLower(Generated(Pool(Flags(true, false, false, false)), draws)[j])
  {
    PasswordFromEnabledClasses(Flags(true, false, false, false), draws);
  }

  lemma MissesSnoc(pool: string, draws: seq<nat>, d: nat)
    ensures Misses(pool, draws + [d]) == Misses(pool, draws) + (if d < |pool| then 0 else 1)
  {
    assert (draws + [d])[..|draws|] == draws;
  }

  /** A draw equal to the pool size shortens the password: 8 draws, one of them 26, give 7 letters. */
  lemma ShortenedPasswordExample()
    ensures |Generated(Pool(Flags(true, false, false, false)), [0, 1, 2, 26, 3, 4, 5, 6])| == 7
  {
    var pool := Pool(Flags(true, false, false, false));
    PoolLength(Flags(true, false, false, false));
    var draws: seq<nat> := [];
    var d: nat;
    for i := 0 to 8
      invariant |draws| == i
      invariant draws == [0, 1, 2, 26, 3, 4, 5, 6][..i]
      invariant Misses(pool, draws) == if i <= 3 then 0 else 1
    {
      d := [0, 1, 2, 26, 3, 4, 5, 6][i];
      MissesSnoc(pool, draws, d);
      draws := draws + [d];
    }
    assert draws == [0, 1, 2, 26, 3, 4, 5, 6];
    GeneratedLength(pool, draws);
  }

  // ------------------------------------------------------------- the methods

  /** Builds the pool by appending each enabled class literal in turn. */
  method BuildPool(f: Flags) returns (characters: string)
    ensures characters == Pool(f)
  {
    characters := "";
    if f.upperCase {
      characters := characters + UpperCaseChars;
    }
    assert characters == (if f.upperCase then UpperCaseChars else "");
    if f.lowerCase {
      characters := characters + LowerCaseChars;
    }
    assert characters == (if f.upperCase then UpperCaseChars else "")
                         + (if f.lowerCase then LowerCaseChars else "");
    if f.numbers {
      characters := characters + NumbersChars;
    }
    assert characters == (if f.upperCase then UpperCaseChars else "")
                         + (if f.lowerCase then LowerCaseChars else "")
                         + (if f.numbers then NumbersChars else "");
    if f.symbols {
      characters := characters + SpecialChars;
    }
  }

  /** The generation loop: for each of `passwordLength` positions, append `charAt` of the next draw. */
  method DrawPassword(characters: string, passwordLength: nat, draws: seq<nat>) returns (result: string)
    requires |draws| == passwordLength
    requires DrawsInRange(draws, |characters|)
    ensures result == Generated(characters, draws)
    ensures |result| <= passwordLength
    ensures forall j :: 0 <= j < |result| ==> result[j] in characters
  {
    result := "";
    var i := 0;
    while i < passwordLength
      invariant 0 <= i <= passwordLength
      invariant result == Generated(characters, draws[..i])
    {
      var characterIndex := draws[i];
      assert draws[..i + 1][..i] == draws[..i];
      result := result + CharAt(characters, characterIndex);
      i := i + 1;
    }
    assert draws[..passwordLength] == draws;
    GeneratedFullLength(characters, draws);
    GeneratedFromPool(characters, draws);
  }
}
