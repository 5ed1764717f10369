/**
 The three character sets the generator draws from, and the alphabet that the
 two option flags compose out of them: the 52 Latin letters always, then the
 ten digits when numbers are included, then the punctuation set when symbols
 are included, in that fixed order.
 */
module CharSets {

  const Letters: string := "ABCDEFGHIJKLMNOPQRSTUVWXYZabcdefghijklmnopqrstuvwxyz"
  const Numbers: string := "0123456789"
  /** The punctuation set exactly as the component's `CHAR_SETS.symbols` spells it: 29 characters. */
  const Symbols: string := "!@#$%^&*()_+[]{}|;:,.<>?/~`-="

  /** Character classes stated independently of the literals above. */
  predicate IsAsciiLetter(c: char) {
    ('A' <= c <= 'Z') || ('a' <= c <= 'z')
  }

  predicate IsDigit(c: char) {
    '0' <= c <= '9'
  }

  predicate IsSymbol(c: char) {
    c in Symbols
  }

  /** The alphabet for the given options, built as the component builds it. */
  function Alphabet(includeNumbers: bool, includeSymbols: bool): (chars: string)
    ensures |chars| == 52 + (if includeNumbers then 10 else 0) + (if includeSymbols then 29 else 0)
    ensures chars[..52] == Letters
    ensures includeNumbers ==> chars[52..62] == Numbers
    ensures includeSymbols ==> chars[|chars| - 29..] == Symbols
  {
    Letters + (if includeNumbers then Numbers else "") + (if includeSymbols then Symbols else "")
  }

  /** Position i of a run of consecutive characters starting at `first`. */
  predicate IsRunFrom(s: string, first: char)
  {
    forall i | 0 <= i < |s| :: s[i] as int == first as int + i
  }

  lemma UpperRun()
    ensures Letters[..26] == "ABCDEFGHIJKLMNOPQRSTUVWXYZ"
    ensures IsRunFrom(Letters[..26], 'A')
  {
    var upper := "ABCDEFGHIJKLMNOPQRSTUVWXYZ";
    assert IsRunFrom(upper, 'A');
    assert Letters == upper + "abcdefghijklmnopqrstuvwxyz";
    assert Letters[..26] == upper;
  }

  lemma LowerRun()
    ensures Letters[26..] == "abcdefghijklmnopqrstuvwxyz"
    ensures IsRunFrom(Letters[26..], 'a')
  {
    assert Letters == "ABCDEFGHIJKLMNOPQRSTUVWXYZ" + "abcdefghijklmnopqrstuvwxyz";
  }

  /** A run of n characters from `first` holds exactly the characters first .. first + n - 1. */
  lemma {:induction false} RunMembership(s: string, first: char, c: char)
    requires IsRunFrom(s, first)
    ensures c in s <==> first as int <= c as int < first as int + |s|
  {
    if first as int <= c as int < first as int + |s| {
      assert s[c as int - first as int] == c;
    }
  }

  /** The letter literal holds exactly the upper- and lower-case Latin letters. */
  lemma LettersExactly(c: char)
    ensures c in Letters <==> IsAsciiLetter(c)
  {
    UpperRun();
    LowerRun();
    RunMembership(Letters[..26], 'A', c);
    RunMembership(Letters[26..], 'a', c);
    assert Letters == Letters[..26] + Letters[26..];
  }

  /** The number literal holds exactly the ten decimal digits. */
  lemma NumbersExactly(c: char)
    ensures c in Numbers <==> IsDigit(c)
  {
    assert IsRunFrom(Numbers, '0');
    RunMembership(Numbers, '0', c);
  }

  /** No symbol is a letter or a digit, so the three sets are disjoint. */
  lemma SymbolsAreNeitherLettersNorDigits(c: char)
    requires IsSymbol(c)
    ensures !IsAsciiLetter(c) && !IsDigit(c)
  {
  }

  /** The alphabet is never empty: the letters are unconditional. */
  lemma AlphabetNonEmpty(includeNumbers: bool, includeSymbols: bool)
    ensures |Alphabet(includeNumbers, includeSymbols)| >= 52
  {
  }

  /**
   Membership in the composed alphabet: a letter always, a digit exactly when
   numbers are included, a symbol exactly when symbols are included, and
   nothing else.
   */
  lemma AlphabetMembership(includeNumbers: bool, includeSymbols: bool, c: char)
    ensures c in Alphabet(includeNumbers, includeSymbols) <==>
            IsAsciiLetter(c) || (includeNumbers && IsDigit(c)) || (includeSymbols && IsSymbol(c))
  {
    LettersExactly(c);
    NumbersExactly(c);
    var chars := Letters + (if includeNumbers then Numbers else "") + (if includeSymbols then Symbols else "");
    assert Alphabet(includeNumbers, includeSymbols) == chars;
  }

  /** Without the numbers option no digit is in the alphabet. */
  lemma NoDigitWithoutNumbers(includeSymbols: bool, c: char)
    requires IsDigit(c)
    ensures c !in Alphabet(false, includeSymbols)
  {
    AlphabetMembership(false, includeSymbols, c);
    if IsSymbol(c) {
      SymbolsAreNeitherLettersNorDigits(c);
    }
  }

  /** A symbol belongs to the alphabet only when symbols are included. */
  lemma SymbolOnlyWithSymbols(includeNumbers: bool, includeSymbols: bool, c: char)
    requires IsSymbol(c) && c in Alphabet(includeNumbers, includeSymbols)
    ensures includeSymbols
  {
    AlphabetMembership(includeNumbers, includeSymbols, c);
    SymbolsAreNeitherLettersNorDigits(c);
  }
}
