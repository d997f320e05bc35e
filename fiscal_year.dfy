/**
 * The fiscal-year formatters of the front end. A fiscal-year boundary is stored as day and month
 * digits run together ("3009" for 30 September) and shown as "DD/MM"; `AddingMonths` gives the
 * end of the fiscal year that starts on a given day.
 */
module FiscalYear {
  import opened Common
  import opened Text

  /** formatFiscalYearToDayMonth: pad to four characters, then the first two, a slash, the next two. */
  function ToDayMonth(value: string): (r: string)
    ensures |value| <= 4 ==> |r| == 5 && r[2] == '/' && r[..2] + r[3..] == PadStart(value, 4, '0')
    ensures |value| >= 4 ==> r == value[..2] + "/" + value[2..4]
  {
    var str := PadStart(value, 4, '0');
    Slice(str, 0, 2) + "/" + Slice(str, 2, 4)
  }

  /** `replace(/^0+/, '')`: the string without its leading zeros. */
  function StripLeadingZeros(s: string): (r: string)
    ensures r == [] || r[0] != '0'
    ensures exists k :: 0 <= k <= |s| && r == s[k..] && forall i :: 0 <= i < k ==> s[i] == '0'
  {
    if s != [] && s[0] == '0' then
      var r := StripLeadingZeros(s[1..]);
      var k :| 0 <= k <= |s[1..]| && r == s[1..][k..] && forall i :: 0 <= i < k ==> s[1..][i] == '0';
      assert r == s[k + 1..];
      r
    else
      assert s == s[0..];
      s
  }

  /**
   * formatFiscalYearToChar: "0" for an empty value or one that is not two pieces around a slash;
   * otherwise the day without leading zeros ("0" if nothing is left) followed by the month padded
   * to two characters and cut to two.
   */
  function ToChar(value: string): (r: string)
    ensures r == "0" <==> value == "" || |Split(value, '/')| != 2
  {
    if value == "" then "0"
    else
      var parts := Split(value, '/');
      if |parts| != 2 then "0"
      else
        var stripped := StripLeadingZeros(parts[0]);
        var day := if stripped == "" then "0" else stripped;
        var month := Slice(PadStart(parts[1], 2, '0'), 0, 2);
        day + month
  }

  /** For a two-character day and month, formatting the stored form of "DD/MM" gives "DD/MM" back. */
  lemma DayMonthRoundTrip(dd: string, mm: string)
    requires |dd| == 2 && |mm| == 2 && '/' !in dd && '/' !in mm
    ensures ToDayMonth(ToChar(dd + "/" + mm)) == dd + "/" + mm
  {
    SplitOnce(dd, mm, '/');
    var stripped := StripLeadingZeros(dd);
    var day := if stripped == "" then "0" else stripped;
    assert Slice(PadStart(mm, 2, '0'), 0, 2) == mm;
    var c := day + mm;
    if dd[0] != '0' {
      assert stripped == dd;
    } else if dd[1] != '0' {
      assert stripped == dd[1..];
      assert PadStart(c, 4, '0') == dd + mm;
    } else {
      assert stripped == StripLeadingZeros(dd[1..]) == StripLeadingZeros(dd[2..]);
      assert PadStart(c, 4, '0') == dd + mm;
    }
  }

  /** The code keeps a one-digit month unpadded in front: "3/9" is stored as "309". */
  lemma ToCharOfShortDay()
    ensures ToChar("3/9") == "309"
  {
    SplitOnce("3", "9", '/');
    assert "3/9" == "3" + "/" + "9";
    assert StripLeadingZeros("3") == "3";
    assert PadStart("9", 2, '0') == "09";
    assert Slice("09", 0, 2) == "09";
  }

  /** The last day of a month of the Solar Hijri calendar: 31 in months 1-6, 30 in 7-11, 29 in 12. */
  function MaxDay(month: int): int
  {
    if 1 <= month <= 6 then 31 else if 7 <= month <= 11 then 30 else if month == 12 then 29 else 31
  }

  /** The month before: 1 wraps to 12. */
  function PrevMonth(month: int): int
  {
    if month <= 1 then 12 else month - 1
  }

  /** The day before (day, month) in the same calendar, with the day clamped to the month. */
  function DayBefore(day: int, month: int): (int, int)
  {
    if day >= 2 then (Min(day - 1, MaxDay(month)), month) else (MaxDay(PrevMonth(month)), PrevMonth(month))
  }

  /** A day or month as two characters, as `toString().padStart(2, '0')` writes it. */
  function TwoDigits(n: int): string
  {
    PadStart(IntToString(n), 2, '0')
  }

  /** Whether a boundary is a four-digit string or number as addingMonths documents it: at most four decimal digits, padded on the left. */
  predicate IsBoundary(value: string)
  {
    |value| <= 4 && AllDigits(value)
  }

  function DayOf(value: string): nat
    requires IsBoundary(value)
  {
    var str := PadStart(value, 4, '0');
    assert AllDigits(str);
    DigitsValue(str[..2])
  }

  function MonthOf(value: string): nat
    requires IsBoundary(value)
  {
    var str := PadStart(value, 4, '0');
    assert AllDigits(str);
    DigitsValue(str[2..4])
  }

  /**
   * addingMonths: one day is taken off, a day before the first moving to the last day of the
   * previous month; twelve months are added, which brings the month back to itself; and the day
   * is clamped to the month.
   */
  function AddingMonths(value: string): string
    requires IsBoundary(value)
  {
    var day0 := DayOf(value) - 1;
    var month0 := MonthOf(value);
    var month1 := if day0 < 1 then (if month0 - 1 < 1 then 12 else month0 - 1) else month0;
    var day1 :=
      if day0 < 1 then
        (if 1 <= month1 <= 6 then 31 else if 7 <= month1 <= 11 then 30 else if month1 == 12 then 29 else day0)
      else day0;
    var month3 := AddTwelveMonths(month1);
    var day2 := if day1 > MaxDay(month3) then MaxDay(month3) else day1;
    TwoDigits(day2) + TwoDigits(month3)
  }

  /** Twelve months on: past 12 the month is taken modulo 12, with 0 read as 12. */
  function AddTwelveMonths(month: int): int
  {
    var m := month + 12;
    if m > 12 then (if m % 12 == 0 then 12 else m % 12) else m
  }

  /** Twelve months on from a month of the year is the same month. */
  lemma AddTwelveMonthsKeeps(month: int)
    requires 1 <= month <= 12
    ensures AddTwelveMonths(month) == month
  {
    assert (month + 12) % 12 == month % 12;
  }

  /**
   * For a month from 1 to 12, the result is the day before the start, in the same month or, from
   * the first, on the last day of the previous month.
   */
  lemma AddingMonthsIsDayBefore(value: string)
    requires IsBoundary(value) && 1 <= MonthOf(value) <= 12
    ensures AddingMonths(value) == TwoDigits(DayBefore(DayOf(value), MonthOf(value)).0) + TwoDigits(DayBefore(DayOf(value), MonthOf(value)).1)
  {
    var month := MonthOf(value);
    AddTwelveMonthsKeeps(month);
    AddTwelveMonthsKeeps(PrevMonth(month));
  }

  /** So "3009" gives "2909", the day before in the same month, not "2910". */
  lemma AddingMonthsExample()
    ensures AddingMonths("3009") == "2909"
  {
    assert IsBoundary("3009");
    assert PadStart("3009", 4, '0') == "3009";
    assert DigitsValue("30") == 30 && DigitsValue("09") == 9;
    assert DayOf("3009") == 30 && MonthOf("3009") == 9;
    AddingMonthsIsDayBefore("3009");
    assert NatToString(29) == "29";
    assert TwoDigits(29) == "29" && TwoDigits(9) == "09";
  }

  /** A fiscal-year record: its start and end boundaries and every other field. */
  datatype FiscalYearRow<R> = FiscalYearRow(start: string, end: string, rest: R)

  /** formatFiscalYearsToDayMonth: both boundaries of every record shown as "DD/MM"; nothing else changes. */
  function AllToDayMonth<R>(rows: seq<FiscalYearRow<R>>): (r: seq<FiscalYearRow<R>>)
    ensures |r| == |rows|
    ensures forall i :: 0 <= i < |rows| ==>
      r[i].start == ToDayMonth(rows[i].start) && r[i].end == ToDayMonth(rows[i].end) && r[i].rest == rows[i].rest
  {
    seq(|rows|, i requires 0 <= i < |rows| => rows[i].(start := ToDayMonth(rows[i].start), end := ToDayMonth(rows[i].end)))
  }

  /** formatFiscalYearsToChar: both boundaries of every record in stored form; nothing else changes. */
  function AllToChar<R>(rows: seq<FiscalYearRow<R>>): (r: seq<FiscalYearRow<R>>)
    ensures |r| == |rows|
    ensures forall i :: 0 <= i < |rows| ==>
      r[i].start == ToChar(rows[i].start) && r[i].end == ToChar(rows[i].end) && r[i].rest == rows[i].rest
  {
    seq(|rows|, i requires 0 <= i < |rows| => rows[i].(start := ToChar(rows[i].start), end := ToChar(rows[i].end)))
  }

  /** Records whose boundaries are written "DD/MM" come back unchanged from storing and showing again. */
  lemma AllRoundTrip<R>(rows: seq<FiscalYearRow<R>>)
    requires forall i :: 0 <= i < |rows| ==> IsDayMonth(rows[i].start) && IsDayMonth(rows[i].end)
    ensures AllToDayMonth(AllToChar(rows)) == rows
  {
    forall i | 0 <= i < |rows|
      ensures AllToDayMonth(AllToChar(rows))[i] == rows[i]
    {
      DayMonthRoundTripOf(rows[i].start);
      DayMonthRoundTripOf(rows[i].end);
    }
  }

  /** A boundary shown as two characters, a slash and two characters, neither pair holding a slash. */
  predicate IsDayMonth(s: string)
  {
    |s| == 5 && s[2] == '/' && '/' !in s[..2] && '/' !in s[3..]
  }

  lemma DayMonthRoundTripOf(s: string)
    requires IsDayMonth(s)
    ensures ToDayMonth(ToChar(s)) == s
  {
    assert s == s[..2] + "/" + s[3..];
    DayMonthRoundTrip(s[..2], s[3..]);
  }
}
