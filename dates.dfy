/**
  Date handling shared by the form engine and the student edit screen.

  JavaScript's `new Date(v)` followed by `getFullYear()`, `getMonth() + 1` and
  `getDate()` in the local time zone is an abstract partial function, a
  `DateParser`; only the `YYYY-MM-DD` formatting that follows it is modelled.
 */
module Dates {
  import opened Js

  datatype CalendarDate = CalendarDate(year: int, month: int, day: int)

  predicate ValidDate(d: CalendarDate) {
    1 <= d.month <= 12 && 1 <= d.day <= 31
  }

  /** What a valid JavaScript `Date` reports for its local year, month and day. */
  type ParsedDate = d: CalendarDate | ValidDate(d) witness CalendarDate(1970, 1, 1)

  /** `new Date(v)`, None when `getTime()` is NaN. */
  type DateParser = Value -> Option<ParsedDate>

  /** `s.padStart(2, "0")` */
  function PadStart2(s: string): string {
    if |s| >= 2 then s else seq(2 - |s|, _ => '0') + s
  }

  /** `${yyyy}-${mm}-${dd}` with month and day zero-padded and the year left as `String(year)`. */
  function FormatDate(d: CalendarDate): string {
    IntToString(d.year) + "-" + PadStart2(IntToString(d.month)) + "-" + PadStart2(IntToString(d.day))
  }

  /** An optionally signed run of decimal digits, and nothing else. */
  function ParseIntStrict(s: string): Option<int> {
    if |s| > 0 && s[0] == '-' then
      if |s| > 1 && AllDigits(s[1..]) then Some(-(DigitsValue(s[1..]) as int)) else None
    else if |s| > 0 && AllDigits(s) then Some(DigitsValue(s))
    else None
  }

  /** Reads `Y-MM-DD` back: the year is whatever precedes the last six characters. */
  function DecodeDate(s: string): Option<CalendarDate> {
    if |s| < 7 then None
    else
      var y, r := s[..|s| - 6], s[|s| - 6..];
      if r[0] == '-' && r[3] == '-' && AllDigits(r[1..3]) && AllDigits(r[4..6]) then
        match ParseIntStrict(y)
        case Some(year) => Some(CalendarDate(year, DigitsValue(r[1..3]), DigitsValue(r[4..6])))
        case None => None
      else None
  }

  lemma ParseIntStrictRoundTrip(n: int)
    ensures ParseIntStrict(IntToString(n)) == Some(n)
  {
    var m: nat := if n < 0 then -n else n;
    NatToStringDigits(m);
    if n < 0 {
      assert IntToString(n)[1..] == NatToString(m);
    } else {
      assert NatToString(m)[0] != '-';
    }
  }

  /** A month or day from 1 to 31 is written as exactly two digits that read back as itself. */
  lemma TwoDigitField(n: int)
    requires 1 <= n <= 31
    ensures var p := PadStart2(IntToString(n)); |p| == 2 && AllDigits(p) && DigitsValue(p) == n
  {
    NatToStringDigits(n);
    var s := NatToString(n);
    var p := PadStart2(s);
    if n < 10 {
      assert p == ['0'] + s;
      assert p[..1] == "0";
    }
  }

  lemma DecodeParts(y: string, mm: string, dd: string)
    requires |mm| == 2 && |dd| == 2 && AllDigits(mm) && AllDigits(dd) && ParseIntStrict(y).Some?
    ensures DecodeDate(y + "-" + mm + "-" + dd)
         == Some(CalendarDate(ParseIntStrict(y).value, DigitsValue(mm), DigitsValue(dd)))
  {
    var s := y + "-" + mm + "-" + dd;
    var r := "-" + mm + "-" + dd;
    assert s == y + r;
    assert |r| == 6;
    assert s[..|s| - 6] == y && s[|s| - 6..] == r by {
      assert s[..|y|] == y;
      assert s[|y|..] == r;
    }
    assert r[1..3] == mm && r[4..6] == dd && r[0] == '-' && r[3] == '-';
  }

  /** The formatted date decodes back to the same year, month and day: the zero
      padding loses nothing, whatever the (unpadded) year. */
  lemma {:induction false} FormatDateRoundTrip(d: CalendarDate)
    requires ValidDate(d)
    ensures DecodeDate(FormatDate(d)) == Some(d)
  {
    TwoDigitField(d.month);
    TwoDigitField(d.day);
    ParseIntStrictRoundTrip(d.year);
    DecodeParts(IntToString(d.year), PadStart2(IntToString(d.month)), PadStart2(IntToString(d.day)));
  }

  /** A natural number below 1000 prints with at most three digits. */
  lemma ShortNatString(n: nat)
    requires n < 1000
    ensures |NatToString(n)| <= 3
  {
    if n >= 10 {
      var m := n / 10;
      if m >= 10 {
        assert |NatToString(m / 10)| == 1;
        assert |NatToString(m)| == 2;
      }
      assert |NatToString(n)| == |NatToString(m)| + 1;
    }
  }

  /** The year is not padded: the text is `String(year)` followed by the six
      characters `-MM-DD`, so a year below 1000 gives fewer than ten characters. */
  lemma {:induction false} UnpaddedYear(d: CalendarDate)
    requires ValidDate(d)
    ensures var s, y := FormatDate(d), IntToString(d.year);
            |s| == |y| + 6 && s[..|y|] == y && s[|y|] == '-'
    ensures 0 <= d.year < 1000 ==> |FormatDate(d)| <= 9
  {
    TwoDigitField(d.month);
    TwoDigitField(d.day);
    var y := IntToString(d.year);
    var s := FormatDate(d);
    assert s == y + ("-" + PadStart2(IntToString(d.month)) + "-" + PadStart2(IntToString(d.day)));
    if 0 <= d.year < 1000 {
      ShortNatString(d.year);
    }
  }

  /** `normalizeDate` in the record hydration of the form: "" for a falsy or
      unparseable value, otherwise the formatted local date. */
  function NormalizeDate(val: Value, parse: DateParser): (r: string)
    ensures !Truthy(val) ==> r == ""
    ensures Truthy(val) && parse(val).None? ==> r == ""
    ensures Truthy(val) && parse(val).Some? ==> r == FormatDate(parse(val).value) && DecodeDate(r) == Some(parse(val).value)
  {
    if !Truthy(val) then ""
    else match parse(val)
      case None => ""
      case Some(d) => FormatDateRoundTrip(d); FormatDate(d)
  }
}
