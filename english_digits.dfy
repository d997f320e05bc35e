/**
 * The text field of the forms normalises what is typed: Persian (Extended Arabic-Indic) digits
 * U+06F0..U+06F9 and Arabic-Indic digits U+0660..U+0669 become the ASCII digits of the same
 * value, and every other character is kept.
 */
module EnglishDigits {
  import opened Text

  predicate IsPersianDigit(c: char) { '\U{06F0}' <= c <= '\U{06F9}' }

  predicate IsArabicDigit(c: char) { '\U{0660}' <= c <= '\U{0669}' }

  predicate IsEasternDigit(c: char) { IsPersianDigit(c) || IsArabicDigit(c) }

  /** The value an eastern digit stands for. */
  function EasternValue(c: char): (v: nat)
    requires IsEasternDigit(c)
    ensures v < 10
  {
    if IsPersianDigit(c) then c as int - 0x06F0 else c as int - 0x0660
  }

  /** The replacement of one character: the ASCII digit of an eastern digit, any other character as it is. */
  function EnglishDigit(c: char): (r: char)
    ensures IsEasternDigit(c) ==> r == DigitChar(EasternValue(c))
    ensures !IsEasternDigit(c) ==> r == c
  {
    if IsEasternDigit(c) then (c as int - (if IsPersianDigit(c) then 0x06F0 else 0x0660) + '0' as int) as char
    else c
  }

  /** toEnglishDigits: every character replaced on its own. */
  function ToEnglishDigits(input: string): (r: string)
    ensures |r| == |input|
    ensures forall i :: 0 <= i < |input| ==> r[i] == EnglishDigit(input[i])
  {
    seq(|input|, i requires 0 <= i < |input| => EnglishDigit(input[i]))
  }

  /** No eastern digit is left, and text without one comes back unchanged. */
  lemma NormalisedText(input: string)
    ensures forall i :: 0 <= i < |input| ==> !IsEasternDigit(ToEnglishDigits(input)[i])
    ensures (forall i :: 0 <= i < |input| ==> !IsEasternDigit(input[i])) ==> ToEnglishDigits(input) == input
  {
    var r := ToEnglishDigits(input);
    forall i | 0 <= i < |input|
      ensures !IsEasternDigit(r[i])
    {
      if IsEasternDigit(input[i]) {
        assert IsDigit(r[i]);
      }
    }
  }

  /** Normalising twice is normalising once. */
  lemma Idempotent(input: string)
    ensures ToEnglishDigits(ToEnglishDigits(input)) == ToEnglishDigits(input)
  {
    NormalisedText(input);
    NormalisedText(ToEnglishDigits(input));
  }

  /** A number typed in eastern digits reads as the same number once normalised. */
  lemma {:induction false} SameNumber(input: string)
    requires forall i :: 0 <= i < |input| ==> IsEasternDigit(input[i])
    ensures AllDigits(ToEnglishDigits(input))
    ensures DigitsValue(ToEnglishDigits(input)) == EasternNumber(input)
  {
    var r := ToEnglishDigits(input);
    assert forall i :: 0 <= i < |input| ==> IsDigit(r[i]);
    if input != [] {
      var n := |input| - 1;
      SameNumber(input[..n]);
      assert r[..n] == ToEnglishDigits(input[..n]);
      assert r[n] == DigitChar(EasternValue(input[n]));
    }
  }

  /** The value of a string of eastern digits, most significant first. */
  function EasternNumber(s: string): nat
    requires forall i :: 0 <= i < |s| ==> IsEasternDigit(s[i])
  {
    if s == [] then 0 else EasternNumber(s[..|s| - 1]) * 10 + EasternValue(s[|s| - 1])
  }
}
