/**
 * The screen's local state and its transitions: generating a password,
 * resetting, and the four checkbox toggles.
 */
module Screen {
  import opened Wrappers
  import opened Generator
  import opened Validation

  datatype CharClass = Lower | Upper | Numbers | Symbols

  /** The whole observable state of the screen. */
  datatype ScreenState = ScreenState(password: string, isPasswordGenerated: bool, flags: Flags)

  /** Only lowercase letters are selected when the screen opens and after a reset. */
  const InitialFlags: Flags := Flags(lowerCase := true, upperCase := false, numbers := false, symbols := false)
  const InitialState: ScreenState := ScreenState("", false, InitialFlags)

  function Enabled(f: Flags, k: CharClass): bool {
    match k
    case Lower => f.lowerCase
    case Upper => f.upperCase
    case Numbers => f.numbers
    case Symbols => f.symbols
  }

  /** The flags after pressing the checkbox of class `k`. */
  function Toggled(f: Flags, k: CharClass): Flags {
    match k
    case Lower => f.(lowerCase := !f.lowerCase)
    case Upper => f.(upperCase := !f.upperCase)
    case Numbers => f.(numbers := !f.numbers)
    case Symbols => f.(symbols := !f.symbols)
  }

  /** A toggle flips its own flag and leaves the other three as they were. */
  lemma ToggleFlipsOwnFlag(f: Flags, k: CharClass, j: CharClass)
    ensures Enabled(Toggled(f, k), j) == (if j == k then !Enabled(f, j) else Enabled(f, j))
  {
  }

  /** Pressing the same checkbox twice restores the flags. */
  lemma ToggleInvolution(f: Flags, k: CharClass)
    ensures Toggled(Toggled(f, k), k) == f
  {
  }

  /** Toggles of different checkboxes are independent: their order does not matter. */
  lemma TogglesCommute(f: Flags, k: CharClass, j: CharClass)
    ensures Toggled(Toggled(f, k), j) == Toggled(Toggled(f, j), k)
  {
  }

  /** In the initial state the pool is the lowercase alphabet and generation is enabled. */
  lemma InitialPoolIsLowerCase()
    ensures Pool(InitialFlags) == CharClasses.LowerCaseChars
    ensures !GenerateDisabled(InitialFlags, true) && GenerateDisabled(InitialFlags, false)
  {
  }

  class PasswordScreen {
    var password: string
    var isPasswordGenerated: bool
    var lowerCase: bool
    var upperCase: bool
    var numbers: bool
    var symbols: bool

    function CurrentFlags(): Flags
      reads this
    {
      Flags(lowerCase, upperCase, numbers, symbols)
    }

    function State(): ScreenState
      reads this
    {
      ScreenState(password, isPasswordGenerated, CurrentFlags())
    }

    constructor ()
      ensures State() == InitialState
    {
      password := "";
      isPasswordGenerated := false;
      lowerCase := true;
      upperCase := false;
      numbers := false;
      symbols := false;
    }

    /**
     * Builds the pool from the current flags, draws `passwordLength` characters
     * from it and shows the result. `draws` stands for the successive values
     * of `Math.round(Math.random() * pool.length)`.
     */
    method GeneratePassword(passwordLength: nat, draws: seq<nat>)
      requires |draws| == passwordLength
      requires DrawsInRange(draws, |Pool(CurrentFlags())|)
      modifies this
      ensures State() == old(State()).(password := Generated(Pool(old(CurrentFlags())), draws), isPasswordGenerated := true)
      ensures |password| <= passwordLength
      ensures forall j :: 0 <= j < |password| ==> InEnabledClass(password[j], CurrentFlags())
    {
      var characters := BuildPool(CurrentFlags());
      var result := DrawPassword(characters, passwordLength, draws);
      password := result;
      isPasswordGenerated := true;
      PasswordFromEnabledClasses(CurrentFlags(), draws);
    }

    /** Returns the screen to its initial state; a second reset changes nothing further. */
    method ResetStates()
      modifies this
      ensures State() == InitialState
    {
      password := "";
      isPasswordGenerated := false;
      lowerCase := true;
      numbers := false;
      upperCase := false;
      symbols := false;
    }

    method ToggleLowerCase()
      modifies this
      ensures State() == old(State()).(flags := Toggled(old(CurrentFlags()), Lower))
    {
      lowerCase := !lowerCase;
    }

    method ToggleUpperCase()
      modifies this
      ensures State() == old(State()).(flags := Toggled(old(CurrentFlags()), Upper))
    {
      upperCase := !upperCase;
    }

    method ToggleNumbers()
      modifies this
      ensures State() == old(State()).(flags := Toggled(old(CurrentFlags()), Numbers))
    {
      numbers := !numbers;
    }

    method ToggleSymbols()
      modifies this
      ensures State() == old(State()).(flags := Toggled(old(CurrentFlags()), Symbols))
    {
      symbols := !symbols;
    }

    /**
     * A press of the Generate button. A disabled button ignores the press;
     * otherwise the form validates the length and, when it is accepted,
     * generates. `formValid` is the form library's own validity flag.
     */
    method PressGenerate(input: Option<int>, formValid: bool, draws: seq<nat>)
      requires ValidateLength(input).Ok? ==> |draws| == input.value
      requires DrawsInRange(draws, |Pool(CurrentFlags())|)
      modifies this
      ensures if !GenerateDisabled(old(CurrentFlags()), formValid) && ValidateLength(input).Ok?
              then State() == old(State()).(password := Generated(Pool(old(CurrentFlags())), draws), isPasswordGenerated := true)
              else State() == old(State())
      ensures isPasswordGenerated && !old(isPasswordGenerated) ==> 4 <= |draws| <= 16 && Pool(CurrentFlags()) != ""
    {
      if !GenerateDisabled(CurrentFlags(), formValid) {
        var checked := ValidateLength(input);
        if checked.Ok? {
          GenerateEnabledIff(CurrentFlags(), formValid);
          GeneratePassword(checked.value, draws);
        }
      }
    }
  }

  /** Resetting twice leaves the same state as resetting once. */
  method ResetIsIdempotent(s: PasswordScreen)
    modifies s
    ensures s.State() == InitialState
  {
    s.ResetStates();
    ghost var once := s.State();
    s.ResetStates();
    assert s.State() == once;
  }
}
