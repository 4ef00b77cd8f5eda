# Password generator screen, modelled in Dafny

A mobile screen lets the user enter a password length and tick four
character classes: lowercase letters, uppercase letters, numbers and symbols.
It then builds a random password from the ticked classes. This project models
the screen's logic:

- `CharClasses` (`char_classes.dfy`): the four class literals, transcribed
  exactly. A lemma ties each alphanumeric literal to the code-point range it
  spells out (`A`..`Z`, `a`..`z`, `0`..`9`). The symbol literal has 29
  characters and holds no letter or digit. The four classes are pairwise
  disjoint.
- `Generator` (`generator.dfy`): the pool and the generation loop.
  - The pool is the enabled class literals in the order upper, lower,
    digits, symbols (`Pool`, built by the method `BuildPool`).
  - The random index `Math.round(Math.random() * pool.length)` is taken as an
    injected sequence of draws, each in `[0, |pool|]`.
  - `charAt` past the end yields the empty string (`CharAt`). So a draw
    equal to `|pool|` adds nothing, and the password can be shorter than
    requested.
  - `Generated` is the functional specification of the loop. `DrawPassword`
    is the loop itself, proved against it.
- `Validation` (`validation.dfy`): the length schema (a required number from 4
  to 16, with its two messages) and the predicate that disables the Generate
  button.
- `Screen` (`screen.dfy`): the class `PasswordScreen` has the state fields
  `password`, `isPasswordGenerated` and the four flags. Its methods are the
  transitions: generate, reset, the four checkbox toggles, and a press of the
  Generate button, which goes through the button's disabled state and the
  length validation.

The pool starts with the uppercase letters (App.tsx:32-43). The symbol
literal at App.tsx:30 has 29 characters once its `\'` escape is read as a
plain apostrophe.

The off-by-one in the index range is reproduced, not corrected:
- `GeneratedLength` and `GeneratedFullLength` state exactly how long the
  password is.
- `ShortenedPasswordExample` shows a concrete 8-position run that yields 7
  characters.

## Model

| member | source | states |
|---|---|---|
| `CharClasses.UpperCaseCharsAre` | App.tsx:27 | the uppercase literal has 26 characters, and a character is in it iff it lies in `A`..`Z` |
| `CharClasses.LowerCaseCharsAre` | App.tsx:28 | the lowercase literal has 26 characters, and a character is in it iff it lies in `a`..`z` |
| `CharClasses.NumbersCharsAre` | App.tsx:29 | the digit literal has 10 characters, and a character is in it iff it lies in `0`..`9` |
| `CharClasses.SpecialCharsAre` | App.tsx:30 | the symbol literal has 29 characters, none of them a letter or a digit |
| `CharClasses.ClassesDisjoint` | App.tsx:27-30 | no character belongs to two of the four classes |
| `Generator.PoolLength` | App.tsx:26-43 | the pool's length is the sum of the enabled class sizes 26, 26, 10 and 29 |
| `Generator.PoolEmptyIff` | App.tsx:26-43 | the pool is empty iff all four flags are false |
| `Generator.PoolMembers` | App.tsx:32-43 | a character is in the pool iff it belongs to one of the enabled classes |
| `Generator.BuildPool` | App.tsx:26-43 | appending the enabled literals one by one in the order upper, lower, digits, symbols yields exactly the pool |
| `Generator.GeneratedLength` | App.tsx:45-49 | the password's length plus the number of draws at or past the pool's end equals the number of positions |
| `Generator.MissesZeroIff` | App.tsx:47-48 | no draw misses the pool iff every draw is a valid pool index |
| `Generator.GeneratedFullLength` | App.tsx:46-48 | for draws between 0 and the pool size the password is at most as long as requested, and exactly as long iff no draw equals the pool size |
| `Generator.GeneratedAt` | App.tsx:47-48 | when every draw is a valid index, the password has full length and its position `k` is `pool[draws[k]]` |
| `Generator.GeneratedFromPool` | App.tsx:45-49 | every character of the password is a character of the pool |
| `Generator.NoClassEmptyPassword` | App.tsx:32-49 | with no class enabled the pool is empty and the password is empty, whatever the draws |
| `Generator.PasswordFromEnabledClasses` | App.tsx:32-49 | every character of the password belongs to an enabled class |
| `Generator.LowerCaseOnlyPassword` | App.tsx:35-49 | with only lowercase enabled, every character of the password is in `a`..`z` |
| `Generator.MissesSnoc` | App.tsx:46-48 | one more draw adds one miss iff it is not a valid pool index |
| `Generator.ShortenedPasswordExample` | App.tsx:46-48 | eight lowercase positions, one of whose draws is 26, give a 7-character password |
| `Generator.DrawPassword` | App.tsx:45-49 | the loop's result is the specified password, at most `passwordLength` long, drawn from the pool's characters |
| `Validation.ValidateLength` | App.tsx:8-11 | a length is accepted iff present and in `[4, 16]`; absent or too small gives the minimum message, too large the maximum message |
| `Validation.LengthBoundaries` | App.tsx:8-11 | 4 and 16 are accepted; 3, 0 and a missing value get the minimum message; 17 gets the maximum message |
| `Validation.GenerateEnabledIff` | App.tsx:176 | the button is enabled iff the form is valid and the pool is non-empty; the pool then has at least 10 characters |
| `Screen.ToggleFlipsOwnFlag` | App.tsx:115-154 | a toggle flips exactly its own class's flag and keeps the other three |
| `Screen.ToggleInvolution` | App.tsx:115-154 | toggling the same class twice restores the flags |
| `Screen.TogglesCommute` | App.tsx:115-154 | toggles of two classes give the same flags in either order |
| `Screen.InitialPoolIsLowerCase` | App.tsx:20-23 | in the initial selection the pool is the lowercase alphabet, and generation is enabled iff the form is valid |
| `Screen.PasswordScreen.constructor` | App.tsx:18-23 | the screen opens with an empty password, nothing generated, lowercase on and the other flags off |
| `Screen.PasswordScreen.GeneratePassword` | App.tsx:25-53 | the password becomes the generated string and `isPasswordGenerated` true; the flags do not change; the result is at most `passwordLength` long and only uses enabled classes |
| `Screen.PasswordScreen.ResetStates` | App.tsx:55-62 | the state becomes the initial state, whatever it was before |
| `Screen.PasswordScreen.ToggleLowerCase` | App.tsx:115-118 | only the lowercase flag flips; the password and the generated flag are unchanged |
| `Screen.PasswordScreen.ToggleUpperCase` | App.tsx:127-130 | only the uppercase flag flips; the password and the generated flag are unchanged |
| `Screen.PasswordScreen.ToggleNumbers` | App.tsx:139-142 | only the numbers flag flips; the password and the generated flag are unchanged |
| `Screen.PasswordScreen.ToggleSymbols` | App.tsx:151-154 | only the symbols flag flips; the password and the generated flag are unchanged |
| `Screen.PasswordScreen.PressGenerate` | App.tsx:77-80 | a press generates iff the button is enabled and the length validates, otherwise the state is unchanged; a fresh password always comes from a length in `[4, 16]` and a non-empty pool |
| `Screen.ResetIsIdempotent` | App.tsx:55-62 | two resets in a row end in the initial state |

## Left out

- Rendering, styles and widgets (`ScrollView`, `TextInput`, `BouncyCheckbox`, `Button`, `StyleSheet`): presentation only.
- The form library's internals:
  - `handleReset`, which the Reset button calls before `resetStates`;
  - the `touched`/`errors` display;
  - the duplicate `values.*Severity` writes in the toggles.

  Each flag is modelled once. The form's `isValid` becomes the parameter `formValid` of `PressGenerate` and `GenerateDisabled`.
- Two copies of the flags: the Generate button's disabled test (App.tsx:160, 176) reads the form's `values.lowSeverity` … `values.advSeverity`, while the pool (App.tsx:32-43) reads the React state flags. The model assumes the two copies always agree and passes the state flags to both.
  - That agreement rests on the toggles writing both copies (App.tsx:116, 128, 140, 152).
  - It also rests on `handleReset` (App.tsx:183) giving back exactly the lowercase-only selection.
  - The risk: the toggles change the form's values object in place. If that object is the one the form keeps as its initial values, a Reset could give back flags the toggles changed, and the two copies would then disagree.
  - Whether that happens depends on the form library's internals, which are not part of this model.
- `Math.random()` and `Math.round()`: floating point. The model takes the rounded results as an injected sequence of draws in `[0, |pool|]`. It does not model their probability distribution, in which the two end values are half as likely as the others.
- Turning the typed text into a number (`+values.passwordLength`), and the schema's type error for text that is not a number: JavaScript parsing. The length arrives as an optional integer. A non-integer length such as 4.5 passes the schema but is not modelled.
- `console.log` of the submitted values: I/O.
