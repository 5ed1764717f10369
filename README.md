# Random string generator: a Dafny model

The system is a single browser component that generates a random string of a chosen
length and lets the user copy it to the clipboard. Its state is five variables: the
length (8 at start), whether digits are included (on at start), whether symbols are
included (off at start), the string on display, and a "copied" flag. This project models
that state and the logic that updates it.

- `CharSets` (charsets.dfy) holds the three character sets as literals. The letters are
  the 52 upper- and lower-case Latin letters and the numbers are the ten decimal digits.
  The symbols are the punctuation literal exactly as written, `` !@#$%^&*()_+[]{}|;:,.<>?/~`-= ``,
  which is 29 characters long. `Alphabet` composes the sets from the two
  flags: letters first, then digits if enabled, then symbols if enabled. The lemmas show
  that the alphabet is never empty. They also show exactly which characters it holds,
  using character ranges defined independently of the literals.
- `Generation` (generation.dfy) models the generation loop. The random source is a
  parameter: `draws` lists the values in [0, 1) that it returns, in the order the loop
  requests them. `PickIndex` turns one draw into an index by computing
  floor(draw × alphabet size), as the component does. `Generated` is the reference
  definition of the loop's result. `BuildString` is the loop itself, written as a `for`
  loop that appends one character per pass and proved equal to `Generated`.
- `StringGeneratorApp` (app.dfy) models the component as the class `App`. Its fields are
  the five state variables. `Valid()` is the invariant that every operation keeps: the
  displayed string has the configured length, every character of it is in the configured
  alphabet, and the copied flag is set only when a string is displayed. Each setter first
  updates its field. If the value actually changed, the setter then regenerates the
  string, as the component's change effect does. The constructor models the first
  render, including the generation that runs when the component mounts. The outcome of
  the clipboard write is passed to `HandleCopy` as a boolean.

## Model

| member | source | states |
|---|---|---|
| `CharSets.Alphabet` | random-string-generator/src/App.jsx:18-21 | The alphabet has 52 characters, plus 10 if numbers are included, plus 29 if symbols are included. Its first 52 characters are the letters. When numbers are included, the digits occupy positions 52 to 61. When symbols are included, the symbols are the last 29 characters. |
| `CharSets.LettersExactly` | random-string-generator/src/App.jsx:4 | A character is in the letter literal if and only if it is an ASCII letter, A–Z or a–z. |
| `CharSets.NumbersExactly` | random-string-generator/src/App.jsx:5 | A character is in the number literal if and only if it is a decimal digit, 0–9. |
| `CharSets.SymbolsAreNeitherLettersNorDigits` | random-string-generator/src/App.jsx:6 | No character of the symbol literal is a letter or a digit, so the three sets are disjoint. |
| `CharSets.AlphabetNonEmpty` | random-string-generator/src/App.jsx:18-23 | Whatever the flags, the alphabet has at least 52 characters. The empty-alphabet guard therefore never fires. |
| `CharSets.AlphabetMembership` | random-string-generator/src/App.jsx:18-21 | A character is in the alphabet if and only if it is a letter, or a digit with numbers included, or a symbol with symbols included. |
| `CharSets.NoDigitWithoutNumbers` | random-string-generator/src/App.jsx:20 | With numbers not included, no digit is in the alphabet, whatever the symbols flag. |
| `CharSets.SymbolOnlyWithSymbols` | random-string-generator/src/App.jsx:21 | If a symbol is in the alphabet, symbols are included. |
| `Generation.PickIndex` | random-string-generator/src/App.jsx:27 | For a draw in [0, 1) and a non-empty alphabet, the index is the floor of draw × size. The index is always below the size. |
| `Generation.GeneratedAt` | random-string-generator/src/App.jsx:25-29 | The result of `count` passes has exactly `count` characters. Character k is the alphabet character at the index picked from draw k. |
| `Generation.GeneratedDrawnFrom` | random-string-generator/src/App.jsx:26-28 | Every generated character is a member of the alphabet it was drawn from. |
| `Generation.BuildString` | random-string-generator/src/App.jsx:25-29 | The loop returns a string of exactly `count` characters. Character k is `chars[PickIndex(draw k)]`. The result equals the reference definition `Generated`. |
| `Generation.GeneratedForOptions` | random-string-generator/src/App.jsx:18-29 | For any flags, the generated string has the configured length. Each character is a letter, a digit or a symbol. A digit appears only if numbers are included, and a symbol only if symbols are included. |
| `Generation.SliderLengthNonEmpty` | random-string-generator/src/App.jsx:134-141 | For any length the slider allows (4 to 32), the generated string has exactly that many characters, so it is never empty. |
| `StringGeneratorApp.App.constructor` | random-string-generator/src/App.jsx:10-14 | The starting state is length 8, numbers on and symbols off. The mount effect then generates an 8-character string from letters and digits, and the copied flag is false. The invariant holds. |
| `StringGeneratorApp.App.GenerateString` | random-string-generator/src/App.jsx:17-33 | The displayed string becomes the string generated from the current options, and the copied flag becomes false. Length and flags are unchanged, and the invariant holds. |
| `StringGeneratorApp.App.SetLength` | random-string-generator/src/App.jsx:139 | Sets the length, as the slider's change handler does; regeneration is the effect at App.jsx:33-38. A new value regenerates the string and clears the copied flag. The same value leaves the string and the flag as they were. The flags are unchanged. |
| `StringGeneratorApp.App.SetIncludeNumbers` | random-string-generator/src/App.jsx:158 | Sets the numbers flag, as the checkbox handler does; regeneration is the effect at App.jsx:33-38. A toggle regenerates the string from the new alphabet and clears the copied flag. Setting the same value changes nothing else. |
| `StringGeneratorApp.App.SetIncludeSymbols` | random-string-generator/src/App.jsx:167 | Sets the symbols flag, as the checkbox handler does; regeneration is the effect at App.jsx:33-38. A toggle regenerates the string from the new alphabet and clears the copied flag. Setting the same value changes nothing else. |
| `StringGeneratorApp.App.HandleCopy` | random-string-generator/src/App.jsx:40-49 | With no string displayed, nothing changes. Otherwise the copied flag becomes true if the write succeeded and false if it failed. The string is never modified, and the invariant holds. |

## Left out

- Rendering, styles and markup (App.jsx:51-194) are presentation only. The two buttons
  are modelled by the methods they call: `GenerateString` and `HandleCopy`.
- React's `useState`, `useCallback` and `useEffect` are replaced by plain fields and by
  setters that regenerate when their value changes. The setters model React skipping a
  same-value update, which renders no change and runs no effect.
- `Math.random()` is modelled by the `draws` parameter: values in [0, 1) in request
  order. `Math.floor(r * n)` is computed on exact reals. Floating-point rounding is not
  modelled. It cannot push the index to `n` for alphabet sizes this small. Uniformity and
  the statistical distribution of the output are probabilistic claims and are not
  stated.
- `navigator.clipboard.writeText` is a foreign asynchronous browser call. Its outcome is
  the `writeSucceeded` parameter. `HandleCopy` runs as one atomic step, so the model does
  not cover a regeneration landing while the write is still pending. In that case the
  source's `setCopied(true)` would flag the newer string as copied.
- `console.error` on a failed copy is I/O and is not modelled.
- `Number(length)` is not modelled: the slider delivers its value as a string, and the
  model takes the length as a `nat`.
- The empty-alphabet guard `if (!chars) return;` is not modelled as a branch, because it
  is unreachable. `CharSets.AlphabetNonEmpty` proves that.
