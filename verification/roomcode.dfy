/**
 * Room codes: how the host draws one and which strings a guest may type.
 */
module RoomCode {
  import JsString

  /** The 36 symbols a code is drawn from, in the order the generator indexes them. */
  const Alphabet := "ABCDEFGHIJKLMNOPQRSTUVWXYZ0123456789"

  const CodeLength := 6

  /** One use of `Math.floor(Math.random() * chars.length)`: an index into the alphabet. */
  type Draw = i: int | 0 <= i < 36

  /** The six random indices one call of the generator consumes. */
  type Draws = d: seq<Draw> | |d| == 6 witness [0, 0, 0, 0, 0, 0]

  /** One character of the pattern `[A-Z0-9]`. */
  predicate IsCodeChar(c: char)
  {
    'A' <= c <= 'Z' || '0' <= c <= '9'
  }

  /** The test `/^[A-Z0-9]{6}$/.test(code)`. */
  predicate ValidRoomCode(code: string)
  {
    |code| == CodeLength && forall i :: 0 <= i < |code| ==> IsCodeChar(code[i])
  }

  /** The code the generator builds from the given draws. */
  function CodeOf(d: Draws): (code: string)
    ensures |code| == CodeLength
    ensures forall k :: 0 <= k < CodeLength ==> code[k] == Alphabet[d[k]]
  {
    seq(CodeLength, k requires 0 <= k < CodeLength => Alphabet[d[k]])
  }

  /** `generateRoomCode`: append one alphabet symbol per draw, six times. */
  method GenerateRoomCode(d: Draws) returns (code: string)
    ensures ValidRoomCode(code)
    ensures code == CodeOf(d)
  {
    code := "";
    var i := 0;
    while i < CodeLength
      invariant 0 <= i <= CodeLength
      invariant |code| == i
      invariant forall k :: 0 <= k < i ==> code[k] == Alphabet[d[k]]
    {
      code := code + [Alphabet[d[i]]];
      i := i + 1;
    }
    GeneratedCodesAreValid(d);
  }

  /** Where a code character sits in the alphabet. */
  function SymbolIndex(c: char): (i: Draw)
    requires IsCodeChar(c)
    ensures Alphabet[i] == c
  {
    if 'A' <= c <= 'Z' then c as int - 'A' as int else 26 + c as int - '0' as int
  }

  /** The alphabet lists the letters A-Z and then the digits 0-9, each in its usual order. */
  lemma AlphabetLayout(i: Draw)
    ensures Alphabet[i] as int == if i < 26 then 'A' as int + i else '0' as int + i - 26
  {
  }

  /** Every alphabet symbol matches `[A-Z0-9]`. */
  lemma AlphabetSymbolsAreCodeChars(i: Draw)
    ensures IsCodeChar(Alphabet[i])
    ensures SymbolIndex(Alphabet[i]) == i
  {
    AlphabetLayout(i);
  }

  /** Every character of the class `[A-Z0-9]` is in the generator's alphabet. */
  lemma CodeCharInAlphabet(c: char)
    requires IsCodeChar(c)
    ensures c in Alphabet
  {
    assert Alphabet[SymbolIndex(c)] == c;
  }

  /** Every symbol of the generator's alphabet is in the class `[A-Z0-9]`. */
  lemma AlphabetMemberIsCodeChar(c: char)
    requires c in Alphabet
    ensures IsCodeChar(c)
  {
    var i :| 0 <= i < |Alphabet| && Alphabet[i] == c;
    AlphabetSymbolsAreCodeChars(i);
  }

  /** A string passes validation exactly when it is six symbols of the generator's alphabet. */
  lemma ValidIffOverAlphabet(s: string)
    ensures ValidRoomCode(s) <==> |s| == CodeLength && forall i :: 0 <= i < |s| ==> s[i] in Alphabet
  {
    forall i | 0 <= i < |s|
      ensures IsCodeChar(s[i]) <==> s[i] in Alphabet
    {
      if IsCodeChar(s[i]) {
        CodeCharInAlphabet(s[i]);
      }
      if s[i] in Alphabet {
        AlphabetMemberIsCodeChar(s[i]);
      }
    }
  }

  /** Every generated code passes validation. */
  lemma GeneratedCodesAreValid(d: Draws)
    ensures ValidRoomCode(CodeOf(d))
  {
    forall k | 0 <= k < CodeLength
      ensures IsCodeChar(CodeOf(d)[k])
    {
      AlphabetSymbolsAreCodeChars(d[k]);
    }
  }

  /** Different draws give different codes: each position is a one-to-one choice among 36 symbols. */
  lemma GenerationInjective(d1: Draws, d2: Draws)
    requires CodeOf(d1) == CodeOf(d2)
    ensures d1 == d2
  {
    forall k | 0 <= k < CodeLength
      ensures d1[k] == d2[k]
    {
      assert Alphabet[d1[k]] == Alphabet[d2[k]];
      AlphabetSymbolsAreCodeChars(d1[k]);
      AlphabetSymbolsAreCodeChars(d2[k]);
    }
  }

  /** Every valid code is generated by exactly one choice of draws. */
  lemma ValidCodesAreGenerated(code: string)
    requires ValidRoomCode(code)
    ensures exists d: Draws :: CodeOf(d) == code
  {
    var d: Draws := seq(CodeLength, k requires 0 <= k < CodeLength => SymbolIndex(code[k]));
    assert CodeOf(d) == code;
  }

  /** A valid code is its own normal form: `trim` and `toUpperCase` leave it alone. */
  lemma ValidCodeIsNormal(code: string)
    requires ValidRoomCode(code)
    ensures JsString.ToUpperCase(JsString.Trim(code)) == code
  {
    JsString.TrimOfTrimmed(code);
    JsString.ToUpperCaseAscii(code);
  }
}
