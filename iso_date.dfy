/**
 * The date helpers of the front end that work on text: completing the date and time shapes the
 * back ends send into full ISO-8601 UTC strings, and the start-before-end check of date ranges.
 */
module IsoDate {
  import opened Common
  import opened Text

  /** `n` decimal digits at position `i` of `s`. */
  predicate DigitsAt(s: string, i: nat, n: nat)
  {
    i + n <= |s| && forall k :: i <= k < i + n ==> IsDigit(s[k])
  }

  /** `\d{4}-\d{2}-\d{2}` at the start of `s`. */
  predicate DateAtStart(s: string)
  {
    |s| >= 10 && DigitsAt(s, 0, 4) && s[4] == '-' && DigitsAt(s, 5, 2) && s[7] == '-' && DigitsAt(s, 8, 2)
  }

  /** `\d{2}:\d{2}:\d{2}` at position 11 of `s`. */
  predicate TimeAt11(s: string)
  {
    |s| >= 19 && DigitsAt(s, 11, 2) && s[13] == ':' && DigitsAt(s, 14, 2) && s[16] == ':' && DigitsAt(s, 17, 2)
  }

  /** A date and a time with the given separator, and nothing after them. */
  predicate DateTime(s: string, sep: char)
  {
    |s| == 19 && DateAtStart(s) && s[10] == sep && TimeAt11(s)
  }

  /** `.\d{3}` at position 19 of `s`. */
  predicate MillisAt19(s: string)
  {
    |s| >= 23 && s[19] == '.' && DigitsAt(s, 20, 3)
  }

  /** The full shape: date, 'T', time, optional milliseconds, 'Z'. */
  predicate FullIso(s: string)
  {
    || (|s| == 20 && DateAtStart(s) && s[10] == 'T' && TimeAt11(s) && s[19] == 'Z')
    || (|s| == 24 && DateAtStart(s) && s[10] == 'T' && TimeAt11(s) && MillisAt19(s) && s[23] == 'Z')
  }

  /** Date, 'T', time and milliseconds, without the 'Z'. */
  predicate MillisNoZone(s: string)
  {
    |s| == 23 && DateAtStart(s) && s[10] == 'T' && TimeAt11(s) && MillisAt19(s)
  }

  predicate DateOnly(s: string)
  {
    |s| == 10 && DateAtStart(s)
  }

  /** One of the shapes toISODate accepts. */
  predicate Accepted(s: string)
  {
    FullIso(s) || DateTime(s, 'T') || DateTime(s, ' ') || MillisNoZone(s) || DateOnly(s)
  }

  /**
   * toISODate: '' for a missing, empty or non-string value; a full ISO string as it is; the other
   * accepted shapes completed with 'T', milliseconds and 'Z'; '' for anything else. A result that
   * is not empty is a full ISO string with the date and the time it was given.
   */
  function ToIsoDate(date: JsValue): (r: string)
    ensures r == "" || FullIso(r)
    ensures r != "" <==> date.Str? && Accepted(date.s)
    ensures date.Str? && FullIso(date.s) ==> r == date.s
    ensures r != "" ==> r[..10] == date.s[..10] && (|date.s| >= 19 ==> r[11..19] == date.s[11..19])
  {
    if !date.Str? || date.s == "" then ""
    else
      var s := date.s;
      if FullIso(s) then s
      else if DateTime(s, 'T') then s + ".000Z"
      else if DateTime(s, ' ') then s[..10] + "T" + s[11..] + ".000Z"
      else if MillisNoZone(s) then s + "Z"
      else if DateOnly(s) then s + "T00:00:00.000Z"
      else ""
  }

  /** Completing is idempotent: a completed string is returned as it is. */
  lemma ToIsoDateIdempotent(date: JsValue)
    ensures ToIsoDate(Str(ToIsoDate(date))) == ToIsoDate(date)
  {
  }

  /** isStartBeforeEnd: true when either bound is missing or empty, otherwise start <= end. */
  predicate IsStartBeforeEnd(start: Option<string>, end: Option<string>)
  {
    if start.None? || start.value == "" || end.None? || end.value == "" then true
    else LessEq(start.value, end.value)
  }

  /** The value of a date-only string, as year, month and day read in that order. */
  function DateKey(s: string): nat
    requires DateOnly(s)
  {
    DigitsValue(s[..4]) * 10000 + DigitsValue(s[5..7]) * 100 + DigitsValue(s[8..10])
  }

  /** For two dates written "YYYY-MM-DD", the string order is the calendar order. */
  lemma DateOrderIsStringOrder(a: string, b: string)
    requires DateOnly(a) && DateOnly(b)
    ensures IsStartBeforeEnd(Some(a), Some(b)) <==> DateKey(a) <= DateKey(b)
  {
    DateFields(a, b);
    DigitOrder(a[..4], b[..4]);
    DigitOrder(a[5..7], b[5..7]);
    DigitOrder(a[8..10], b[8..10]);
    DigitsBound(a[5..7]);
    DigitsBound(b[5..7]);
    DigitsBound(a[8..10]);
    DigitsBound(b[8..10]);
    KeyOrder(DigitsValue(a[..4]), DigitsValue(a[5..7]), DigitsValue(a[8..10]),
      DigitsValue(b[..4]), DigitsValue(b[5..7]), DigitsValue(b[8..10]));
  }

  /** Two dates compare as their years, then their months, then their days. */
  lemma DateFields(a: string, b: string)
    requires DateOnly(a) && DateOnly(b)
    ensures LessEq(a, b) <==>
      LessEq(a[..4], b[..4]) && (a[..4] == b[..4] ==>
        LessEq(a[5..7], b[5..7]) && (a[5..7] == b[5..7] ==> LessEq(a[8..10], b[8..10])))
  {
    LessEqSplit(a, b, 4);
    assert a[4..] == [a[4]] + a[5..] && b[4..] == [b[4]] + b[5..];
    var a5, b5 := a[5..], b[5..];
    LessEqSplit(a5, b5, 2);
    assert a5[..2] == a[5..7] && b5[..2] == b[5..7];
    assert a5[2..] == [a[7]] + a[8..10] && b5[2..] == [b[7]] + b[8..10];
  }

  /** A key of year, two-digit month and two-digit day orders keys as the fields in turn. */
  lemma KeyOrder(ya: nat, ma: nat, da: nat, yb: nat, mb: nat, db: nat)
    requires ma < 100 && da < 100 && mb < 100 && db < 100
    ensures ya * 10000 + ma * 100 + da <= yb * 10000 + mb * 100 + db <==>
      ya < yb || (ya == yb && (ma < mb || (ma == mb && da <= db)))
  {
    if ya < yb {
      assert ya * 10000 + 10000 <= yb * 10000;
    } else if yb < ya {
      assert yb * 10000 + 10000 <= ya * 10000;
    } else if ma < mb {
      assert ma * 100 + 100 <= mb * 100;
    } else if mb < ma {
      assert mb * 100 + 100 <= ma * 100;
    }
  }

  /** Comparing two strings compares their first `n` characters, then, when those agree, the rest. */
  lemma {:induction false} LessEqSplit(a: string, b: string, n: nat)
    requires n <= |a| && n <= |b|
    ensures LessEq(a, b) <==> LessEq(a[..n], b[..n]) && (a[..n] == b[..n] ==> LessEq(a[n..], b[n..]))
  {
    if n > 0 {
      LessEqSplit(a[1..], b[1..], n - 1);
      assert a[1..][..n - 1] == a[1..n] && b[1..][..n - 1] == b[1..n];
      assert a[1..][n - 1..] == a[n..] && b[1..][n - 1..] == b[n..];
      assert a[..n][1..] == a[1..n] && b[..n][1..] == b[1..n];
      if a[0] == b[0] {
        assert a[..n] == b[..n] <==> a[1..n] == b[1..n] by {
          if a[1..n] == b[1..n] {
            assert a[..n] == [a[0]] + a[1..n];
            assert b[..n] == [b[0]] + b[1..n];
          }
        }
      } else {
        assert a[..n][0] != b[..n][0];
      }
    } else {
      assert a[..0] == b[..0];
      assert a[0..] == a && b[0..] == b;
    }
  }

  /** For digit strings of one length, the string order is the numeric order. */
  lemma {:induction false} DigitOrder(a: string, b: string)
    requires |a| == |b| && AllDigits(a) && AllDigits(b)
    ensures LessEq(a, b) <==> DigitsValue(a) <= DigitsValue(b)
    ensures a == b <==> DigitsValue(a) == DigitsValue(b)
    decreases |a|
  {
    if |a| > 0 {
      var n := |a| - 1;
      DigitOrder(a[..n], b[..n]);
      LessEqSplit(a, b, n);
      assert a[n..] == [a[n]] && b[n..] == [b[n]];
      DigitsBound(a[..n]);
      DigitsBound(b[..n]);
      if a[..n] == b[..n] {
        if a[n] == b[n] {
          assert a == a[..n] + [a[n]] && b == b[..n] + [b[n]];
        }
      } else if DigitsValue(a[..n]) < DigitsValue(b[..n]) {
        assert DigitsValue(a) < DigitsValue(b);
      } else {
        assert DigitsValue(a) > DigitsValue(b);
        assert a != b;
      }
    }
  }

  /** A digit string of length n is worth less than 10^n. */
  lemma {:induction false} DigitsBound(s: string)
    requires AllDigits(s)
    ensures DigitsValue(s) < Pow10(|s|)
  {
    if s != [] {
      DigitsBound(s[..|s| - 1]);
    }
  }

  function Pow10(n: nat): nat
  {
    if n == 0 then 1 else 10 * Pow10(n - 1)
  }
}
