/**
 The generator component's state and its operations. Each state variable of
 the component is a field; each setter updates its field and, when the value
 actually changes, regenerates the string, as the component's effect does
 after any change of length or options. The clipboard write is outside the
 model: its outcome is a parameter.
 */
module StringGeneratorApp {
  import opened CharSets
  import opened Generation

  class App {
    var length: nat
    var includeNumbers: bool
    var includeSymbols: bool
    var randomString: string
    var copied: bool

    /**
     The state every operation keeps: the shown string has the configured
     length and is drawn from the configured alphabet, and it is only ever
     flagged as copied when there was something to copy.
     */
    ghost predicate Valid()
      reads this
    {
      && |randomString| == length
      && (forall c | c in randomString :: c in Alphabet(includeNumbers, includeSymbols))
      && (copied ==> randomString != "")
    }

    /**
     The first render: length 8, numbers on, symbols off, no string, not
     copied; the mount effect then generates the first string.
     */
    constructor (draws: seq<real>)
      requires IsDrawStream(draws, 8)
      ensures Valid()
      ensures length == 8 && includeNumbers && !includeSymbols
      ensures randomString == Generated(Alphabet(true, false), draws, 8) && !copied
    {
      length := 8;
      includeNumbers := true;
      includeSymbols := false;
      randomString := "";
      copied := false;
      new;
      GenerateString(draws);
    }

    /**
     Builds a fresh string from the current options, shows it and clears the
     copied flag; the options are left as they were.
     */
    method GenerateString(draws: seq<real>)
      requires IsDrawStream(draws, length)
      modifies this`randomString, this`copied
      ensures Valid()
      ensures randomString == Generated(Alphabet(includeNumbers, includeSymbols), draws, length)
      ensures !copied
    {
      var chars := Alphabet(includeNumbers, includeSymbols);
      AlphabetNonEmpty(includeNumbers, includeSymbols);
      var result := BuildString(chars, draws, length);
      randomString := result;
      copied := false;
    }

    /** The length slider: a new length regenerates; the same length changes nothing. */
    method SetLength(newLength: nat, draws: seq<real>)
      requires Valid() && IsDrawStream(draws, newLength)
      modifies this`length, this`randomString, this`copied
      ensures Valid() && length == newLength
      ensures newLength != old(length) ==>
                randomString == Generated(Alphabet(includeNumbers, includeSymbols), draws, newLength) && !copied
      ensures newLength == old(length) ==> randomString == old(randomString) && copied == old(copied)
    {
      if newLength != length {
        length := newLength;
        GenerateString(draws);
      }
    }

    /** The numbers checkbox: a toggle regenerates; setting the same value changes nothing. */
    method SetIncludeNumbers(enabled: bool, draws: seq<real>)
      requires Valid() && IsDrawStream(draws, length)
      modifies this`includeNumbers, this`randomString, this`copied
      ensures Valid() && includeNumbers == enabled
      ensures enabled != old(includeNumbers) ==>
                randomString == Generated(Alphabet(enabled, includeSymbols), draws, length) && !copied
      ensures enabled == old(includeNumbers) ==> randomString == old(randomString) && copied == old(copied)
    {
      if enabled != includeNumbers {
        includeNumbers := enabled;
        GenerateString(draws);
      }
    }

    /** The symbols checkbox: a toggle regenerates; setting the same value changes nothing. */
    method SetIncludeSymbols(enabled: bool, draws: seq<real>)
      requires Valid() && IsDrawStream(draws, length)
      modifies this`includeSymbols, this`randomString, this`copied
      ensures Valid() && includeSymbols == enabled
      ensures enabled != old(includeSymbols) ==>
                randomString == Generated(Alphabet(includeNumbers, enabled), draws, length) && !copied
      ensures enabled == old(includeSymbols) ==> randomString == old(randomString) && copied == old(copied)
    {
      if enabled != includeSymbols {
        includeSymbols := enabled;
        GenerateString(draws);
      }
    }

    /**
     The copy button. With nothing shown it does nothing; otherwise the flag
     records whether the clipboard write succeeded. The string is never touched.
     */
    method HandleCopy(writeSucceeded: bool)
      requires Valid()
      modifies this`copied
      ensures Valid() && randomString == old(randomString)
      ensures old(randomString) == "" ==> copied == old(copied)
      ensures old(randomString) != "" ==> copied == writeSucceeded
    {
      if randomString == "" {
        return;
      }
      copied := writeSucceeded;
    }
  }
}
