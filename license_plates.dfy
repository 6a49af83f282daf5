/** The Swedish licence plate generator (new registration format):
    three letters from an extended alphabet, a space, two digits and one
    letter from a restricted alphabet.

    `java.util.Random().ints(length, 0, source.length)` is replaced by a
    caller-supplied sequence of draws: exactly `length` indices, each in
    `[0, |source|)`, which is what that stream promises. */
module LicensePlates {

  /** The plate value class: a string, produced rather than validated. */
  datatype LicensePlate = LicensePlate(value: string)

  const FirstCharacters: string := "ABCDEFGHIJKLMNOPQRSTUVWXYZÅÄÖ"
  const LastCharacters: string := "ABCDEFGHJKLMNPRSTUWXYZ"
  const Digits: string := "0123456789"

  /** Every draw is an index into a source of the given size. */
  predicate InRange(draws: seq<nat>, size: nat) {
    forall k :: 0 <= k < |draws| ==> draws[k] < size
  }

  /** The random indices one call of `generate` consumes, one stream per
      call of `randomize`: three for the first part, two for the digits and
      one for the final letter. */
  datatype PlateDraws = PlateDraws(letters: seq<nat>, digits: seq<nat>, last: seq<nat>)

  predicate ValidDraws(d: PlateDraws) {
    |d.letters| == 3 && InRange(d.letters, |FirstCharacters|) &&
    |d.digits| == 2 && InRange(d.digits, |Digits|) &&
    |d.last| == 1 && InRange(d.last, |LastCharacters|)
  }

  /** The character classes of the format, stated by code-point ranges
      rather than by the alphabet strings: a letter of the Swedish alphabet,
      a decimal digit, and an ASCII capital other than the confusable I, O, Q
      and V (the Swedish letters Å, Ä and Ö lie outside A-Z). */
  predicate IsSwedishLetter(c: char) {
    'A' <= c <= 'Z' || c == 'Å' || c == 'Ä' || c == 'Ö'
  }

  predicate IsDigit(c: char) {
    '0' <= c <= '9'
  }

  predicate IsUnambiguousLetter(c: char) {
    'A' <= c <= 'Z' && c != 'I' && c != 'O' && c != 'Q' && c != 'V'
  }

  /** The format rule, stated position by position, independently of how a
      plate is generated. */
  predicate IsSwedishPlate(s: string) {
    |s| == 7 &&
    IsSwedishLetter(s[0]) && IsSwedishLetter(s[1]) && IsSwedishLetter(s[2]) &&
    s[3] == ' ' &&
    IsDigit(s[4]) && IsDigit(s[5]) &&
    IsUnambiguousLetter(s[6])
  }

  /** Every character of the first alphabet is a Swedish letter. */
  lemma FirstCharacterIsSwedishLetter(k: nat)
    requires k < |FirstCharacters|
    ensures IsSwedishLetter(FirstCharacters[k])
  {
  }

  /** Every character of the digit alphabet is a decimal digit. */
  lemma DigitIsDigit(k: nat)
    requires k < |Digits|
    ensures IsDigit(Digits[k])
  {
  }

  /** Every character of the last alphabet is an unambiguous letter. */
  lemma LastCharacterIsUnambiguous(k: nat)
    requires k < |LastCharacters|
    ensures IsUnambiguousLetter(LastCharacters[k])
  {
  }

  /** Where a Swedish letter stands in the first alphabet: every Swedish
      letter is there. */
  function SwedishLetterIndex(c: char): (k: nat)
    requires IsSwedishLetter(c)
    ensures k < |FirstCharacters| && FirstCharacters[k] == c
  {
    if c == 'Å' then 26 else if c == 'Ä' then 27 else if c == 'Ö' then 28 else c as int - 'A' as int
  }

  /** Where a digit stands in the digit alphabet: every digit is there. */
  function DigitIndex(c: char): (k: nat)
    requires IsDigit(c)
    ensures k < |Digits| && Digits[k] == c
  {
    c as int - '0' as int
  }

  /** Where an unambiguous letter stands in the last alphabet: every
      unambiguous letter is there. */
  function UnambiguousLetterIndex(c: char): (k: nat)
    requires IsUnambiguousLetter(c)
    ensures k < |LastCharacters| && LastCharacters[k] == c
  {
    var n := c as int - 'A' as int;
    if n < 8 then n else if n < 14 then n - 1 else if n < 16 then n - 2 else if n < 21 then n - 3 else n - 4
  }

  /** `randomize`: maps each draw to the character at that index of the
      source and joins them. The requested length is the number of draws
      supplied. */
  function Randomize(source: string, draws: seq<nat>): (r: string)
    requires InRange(draws, |source|)
    ensures |r| == |draws|
    ensures forall k :: 0 <= k < |draws| ==> r[k] == source[draws[k]]
  {
    if draws == [] then "" else [source[draws[0]]] + Randomize(source, draws[1..])
  }

  /** `firstPart`: three Swedish letters. */
  function FirstPart(letters: seq<nat>): (r: string)
    requires |letters| == 3 && InRange(letters, |FirstCharacters|)
    ensures |r| == 3 && IsSwedishLetter(r[0]) && IsSwedishLetter(r[1]) && IsSwedishLetter(r[2])
  {
    FirstCharacterIsSwedishLetter(letters[0]);
    FirstCharacterIsSwedishLetter(letters[1]);
    FirstCharacterIsSwedishLetter(letters[2]);
    Randomize(FirstCharacters, letters)
  }

  /** `secondPart`: two digits followed by one unambiguous letter. */
  function SecondPart(digits: seq<nat>, last: seq<nat>): (r: string)
    requires |digits| == 2 && InRange(digits, |Digits|)
    requires |last| == 1 && InRange(last, |LastCharacters|)
    ensures |r| == 3 && IsDigit(r[0]) && IsDigit(r[1]) && IsUnambiguousLetter(r[2])
  {
    DigitIsDigit(digits[0]);
    DigitIsDigit(digits[1]);
    LastCharacterIsUnambiguous(last[0]);
    Randomize(Digits, digits) + Randomize(LastCharacters, last)
  }

  /** `generate`: the two parts joined by a space. Every result obeys the
      format rule, so in particular its last letter is never I, O, Q, V, Å,
      Ä or Ö. */
  function Generate(d: PlateDraws): (p: LicensePlate)
    requires ValidDraws(d)
    ensures IsSwedishPlate(p.value)
  {
    LicensePlate(FirstPart(d.letters) + " " + SecondPart(d.digits, d.last))
  }

  /** The first index at which `c` occurs in `source`. */
  function IndexOf(source: string, c: char): (i: nat)
    requires c in source
    ensures i < |source| && source[i] == c
    ensures forall j :: 0 <= j < i ==> source[j] != c
  {
    if source[0] == c then 0 else 1 + IndexOf(source[1..], c)
  }

  /** The draws under which `randomize` reproduces `s`. */
  function DrawsFor(source: string, s: string): (draws: seq<nat>)
    requires forall k :: 0 <= k < |s| ==> s[k] in source
    ensures |draws| == |s| && InRange(draws, |source|)
    ensures forall k :: 0 <= k < |s| ==> source[draws[k]] == s[k]
  {
    seq(|s|, k requires 0 <= k < |s| => IndexOf(source, s[k]))
  }

  /** Every string over the source alphabet is a possible result of `randomize`. */
  lemma RandomizeReaches(source: string, s: string)
    requires forall k :: 0 <= k < |s| ==> s[k] in source
    ensures exists draws :: |draws| == |s| && InRange(draws, |source|) && Randomize(source, draws) == s
  {
    var draws := DrawsFor(source, s);
    assert Randomize(source, draws) == s;
  }

  /** Any three Swedish letters are the first part under some draws. */
  lemma FirstPartReaches(a: string)
    requires |a| == 3 && IsSwedishLetter(a[0]) && IsSwedishLetter(a[1]) && IsSwedishLetter(a[2])
    ensures exists x :: |x| == 3 && InRange(x, |FirstCharacters|) && FirstPart(x) == a
  {
    var x := [SwedishLetterIndex(a[0]), SwedishLetterIndex(a[1]), SwedishLetterIndex(a[2])];
    assert |x| == 3 && InRange(x, |FirstCharacters|) && FirstPart(x) == a;
  }

  /** Any two digits followed by an unambiguous letter are the second part
      under some draws. */
  lemma SecondPartReaches(b: string)
    requires |b| == 3 && IsDigit(b[0]) && IsDigit(b[1]) && IsUnambiguousLetter(b[2])
    ensures exists y, z :: |y| == 2 && InRange(y, |Digits|) && |z| == 1 && InRange(z, |LastCharacters|) &&
                           SecondPart(y, z) == b
  {
    var y := [DigitIndex(b[0]), DigitIndex(b[1])];
    var z := [UnambiguousLetterIndex(b[2])];
    assert |y| == 2 && InRange(y, |Digits|) && |z| == 1 && InRange(z, |LastCharacters|) && SecondPart(y, z) == b;
  }

  /** Conversely to Generate's contract, every string obeying the format rule
      is the plate some draws produce: the generator reaches the whole format. */
  lemma GenerateReachesEveryPlate(s: string)
    requires IsSwedishPlate(s)
    ensures exists d :: ValidDraws(d) && Generate(d).value == s
  {
    var a, b := s[..3], s[4..];
    assert s == a + " " + b;
    FirstPartReaches(a);
    SecondPartReaches(b);
    var x :| |x| == 3 && InRange(x, |FirstCharacters|) && FirstPart(x) == a;
    var y, z :| |y| == 2 && InRange(y, |Digits|) && |z| == 1 && InRange(z, |LastCharacters|) && SecondPart(y, z) == b;
    var d := PlateDraws(x, y, z);
    assert ValidDraws(d) && Generate(d).value == s;
  }
}
