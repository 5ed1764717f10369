/**
 Building the random string: for each of `length` positions one value is drawn
 from the random source (a real in [0, 1)), scaled by the alphabet size and
 rounded down to give an index, and the character at that index is appended.
 The random source is a parameter: `draws` holds the values it returns, in
 the order the loop asks for them.
 */
module Generation {
  import opened CharSets

  /** What the random source guarantees: enough values, each in [0, 1). */
  predicate IsDrawStream(draws: seq<real>, count: nat)
  {
    count <= |draws| && forall k | 0 <= k < |draws| :: 0.0 <= draws[k] < 1.0
  }

  /** The index chosen from one draw: floor(draw * size), always a valid index. */
  function PickIndex(draw: real, size: nat): (index: nat)
    requires 0.0 <= draw < 1.0 && size > 0
    ensures index < size
    ensures index as real <= draw * size as real < index as real + 1.0
  {
    assert draw * size as real < size as real by {
      assert (size as real) - draw * size as real == (1.0 - draw) * size as real;
    }
    (draw * size as real).Floor
  }

  /**
   The first `count` characters the loop produces: one per draw, in draw
   order, each read from the alphabet at the picked index.
   */
  function Generated(chars: string, draws: seq<real>, count: nat): string
    requires |chars| > 0 && IsDrawStream(draws, count)
  {
    if count == 0 then ""
    else Generated(chars, draws, count - 1) + [chars[PickIndex(draws[count - 1], |chars|)]]
  }

  /** The generated string has exactly `count` characters and its k-th is picked by the k-th draw. */
  lemma {:induction false} GeneratedAt(chars: string, draws: seq<real>, count: nat)
    requires |chars| > 0 && IsDrawStream(draws, count)
    ensures |Generated(chars, draws, count)| == count
    ensures forall k | 0 <= k < count ::
              Generated(chars, draws, count)[k] == chars[PickIndex(draws[k], |chars|)]
  {
    if count > 0 {
      GeneratedAt(chars, draws, count - 1);
    }
  }

  /** Every generated character is a member of the alphabet it was drawn from. */
  lemma GeneratedDrawnFrom(chars: string, draws: seq<real>, count: nat)
    requires |chars| > 0 && IsDrawStream(draws, count)
    ensures forall c | c in Generated(chars, draws, count) :: c in chars
  {
    GeneratedAt(chars, draws, count);
  }

  /**
   The loop of the component: `count` passes, each appending the character at
   the index picked from the next draw.
   */
  method BuildString(chars: string, draws: seq<real>, count: nat) returns (result: string)
    requires |chars| > 0 && IsDrawStream(draws, count)
    ensures |result| == count
    ensures forall k | 0 <= k < count :: result[k] == chars[PickIndex(draws[k], |chars|)]
    ensures result == Generated(chars, draws, count)
  {
    result := "";
    for i := 0 to count
      invariant |result| == i
      invariant forall k | 0 <= k < i :: result[k] == chars[PickIndex(draws[k], |chars|)]
    {
      var index := PickIndex(draws[i], |chars|);
      result := result + [chars[index]];
    }
    GeneratedAt(chars, draws, count);
  }

  /**
   What the component generates for a configuration: the result has the
   configured length, every character is in the configured alphabet, a digit
   appears only when numbers are included and a symbol only when symbols are.
   */
  lemma GeneratedForOptions(includeNumbers: bool, includeSymbols: bool, draws: seq<real>, length: nat)
    requires IsDrawStream(draws, length)
    ensures var s := Generated(Alphabet(includeNumbers, includeSymbols), draws, length);
            && |s| == length
            && (forall c | c in s :: IsAsciiLetter(c) || IsDigit(c) || IsSymbol(c))
            && (forall c | c in s && IsDigit(c) :: includeNumbers)
            && (forall c | c in s && IsSymbol(c) :: includeSymbols)
  {
    var chars := Alphabet(includeNumbers, includeSymbols);
    var s := Generated(chars, draws, length);
    GeneratedAt(chars, draws, length);
    forall c | c in s
      ensures IsAsciiLetter(c) || IsDigit(c) || IsSymbol(c)
      ensures IsDigit(c) ==> includeNumbers
      ensures IsSymbol(c) ==> includeSymbols
    {
      GeneratedDrawnFrom(chars, draws, length);
      AlphabetMembership(includeNumbers, includeSymbols, c);
      if IsDigit(c) && !includeNumbers {
        NoDigitWithoutNumbers(includeSymbols, c);
      }
      if IsSymbol(c) {
        SymbolOnlyWithSymbols(includeNumbers, includeSymbols, c);
      }
    }
  }

  /** Any length the slider allows (4 to 32) yields a non-empty string. */
  lemma SliderLengthNonEmpty(includeNumbers: bool, includeSymbols: bool, draws: seq<real>, length: nat)
    requires 4 <= length <= 32 && IsDrawStream(draws, length)
    ensures |Generated(Alphabet(includeNumbers, includeSymbols), draws, length)| == length
    ensures 4 <= |Generated(Alphabet(includeNumbers, includeSymbols), draws, length)| <= 32
  {
    GeneratedAt(Alphabet(includeNumbers, includeSymbols), draws, length);
  }
}
