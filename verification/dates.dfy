/** Dates as the invoice class accepts them: either a string the caller has
    already formatted, or a date object that `DateTime::format("Y-m-d")` turns
    into text. */
module Dates {
  import opened Values

  predicate IsDigit(c: char)
  {
    '0' <= c <= '9'
  }

  predicate AllDigits(s: string)
  {
    forall i :: 0 <= i < |s| ==> IsDigit(s[i])
  }

  function DigitChar(d: nat): (c: char)
    requires d < 10
    ensures IsDigit(c) && c as int - '0' as int == d
  {
    ('0' as int + d) as char
  }

  /** The number a string of decimal digits denotes (leading zeros allowed). */
  function DigitsValue(s: string): nat
    requires AllDigits(s)
  {
    if s == [] then 0
    else DigitsValue(s[..|s| - 1]) * 10 + (s[|s| - 1] as int - '0' as int)
  }

  /** The shortest decimal spelling of `n`; it denotes `n`. */
  function Decimal(n: nat): (r: string)
    ensures |r| >= 1 && AllDigits(r)
    ensures DigitsValue(r) == n
    ensures n < 10 ==> |r| == 1
    ensures n < 100 ==> |r| <= 2
    ensures n < 1000 ==> |r| <= 3
    ensures n < 10000 ==> |r| <= 4
  {
    if n < 10 then [DigitChar(n)]
    else
      var r := Decimal(n / 10) + [DigitChar(n % 10)];
      assert r[..|r| - 1] == Decimal(n / 10);
      r
  }

  /** `s` with zeros put in front until it is at least `width` long. */
  function PadLeft(s: string, width: nat): (r: string)
    ensures |r| == if |s| >= width then |s| else width
    ensures |r| >= |s| && r[|r| - |s|..] == s
    ensures forall i :: 0 <= i < |r| - |s| ==> r[i] == '0'
  {
    if |s| >= width then s else seq(width - |s|, _ => '0') + s
  }

  /** Leading zeros do not change the number a digit string denotes. */
  lemma {:induction false} LeadingZeroValue(s: string)
    requires AllDigits(s)
    ensures AllDigits(['0'] + s) && DigitsValue(['0'] + s) == DigitsValue(s)
  {
    var z := ['0'] + s;
    if s != [] {
      assert z[..|z| - 1] == ['0'] + s[..|s| - 1];
      LeadingZeroValue(s[..|s| - 1]);
    } else {
      assert z[..0] == [];
    }
  }

  lemma {:induction false} PadLeftValue(s: string, width: nat)
    requires AllDigits(s)
    ensures AllDigits(PadLeft(s, width)) && DigitsValue(PadLeft(s, width)) == DigitsValue(s)
    decreases width - |s|
  {
    if |s| < width {
      LeadingZeroValue(s);
      PadLeftValue(['0'] + s, width);
      assert PadLeft(s, width) == PadLeft(['0'] + s, width);
    }
  }

  /** A calendar date as a `DateTime` object holds it (years before the
      common era are not modelled). */
  datatype Date = Date(year: nat, month: nat, day: nat)

  predicate ValidDate(d: Date)
  {
    1 <= d.month <= 12 && 1 <= d.day <= 31
  }

  /** What `setDateXxx` receives: a string, or a `DateTime` object. */
  datatype Input = Text(s: string) | DateTime(d: Date)

  /** Reads `Y-m-d` back: a year of at least four digits, then a two-digit
      month and a two-digit day, separated by dashes. */
  function ParseDate(s: string): (r: Option<Date>)
    ensures r.Some? ==> ValidDate(r.value)
  {
    if |s| < 10 || s[|s| - 6] != '-' || s[|s| - 3] != '-' then None
    else
      var y, m, d := s[..|s| - 6], s[|s| - 5..|s| - 3], s[|s| - 2..];
      if !(AllDigits(y) && AllDigits(m) && AllDigits(d)) then None
      else
        var date := Date(DigitsValue(y), DigitsValue(m), DigitsValue(d));
        if ValidDate(date) then Some(date) else None
  }

  /** A string of the exact shape `YYYY-MM-DD` naming a valid date. */
  predicate IsDateText(s: string)
  {
    |s| == 10 && ParseDate(s).Some?
  }

  /** `DateTime::format("Y-m-d")`: the year in at least four digits, the month
      and the day in two, each padded with zeros. Parsing the text gives the
      date back, and for a four-digit year the text has the `YYYY-MM-DD` shape. */
  function FormatDate(d: Date): (r: string)
    ensures ValidDate(d) ==> ParseDate(r) == Some(d)
    ensures ValidDate(d) && d.year <= 9999 ==> IsDateText(r)
  {
    var r := Joined(PadLeft(Decimal(d.year), 4), PadLeft(Decimal(d.month), 2), PadLeft(Decimal(d.day), 2));
    if ValidDate(d) then FormatParses(d); r else r
  }

  function Joined(y: string, m: string, dd: string): string
  {
    y + "-" + m + "-" + dd
  }

  lemma FormatParses(d: Date)
    requires ValidDate(d)
    ensures var r := Joined(PadLeft(Decimal(d.year), 4), PadLeft(Decimal(d.month), 2), PadLeft(Decimal(d.day), 2));
      ParseDate(r) == Some(d) && (d.year <= 9999 ==> |r| == 10)
  {
    PaddedDecimal(d.year, 4);
    PaddedDecimal(d.month, 2);
    PaddedDecimal(d.day, 2);
    ParseJoined(PadLeft(Decimal(d.year), 4), PadLeft(Decimal(d.month), 2), PadLeft(Decimal(d.day), 2));
  }

  /** A zero-padded decimal field is all digits, denotes its number, and is
      exactly `width` long when the number fits. */
  lemma PaddedDecimal(n: nat, width: nat)
    ensures var p := PadLeft(Decimal(n), width);
      AllDigits(p) && DigitsValue(p) == n && |p| >= width &&
      (|Decimal(n)| <= width ==> |p| == width)
  {
    PadLeftValue(Decimal(n), width);
  }

  /** The three fields of a dash-joined date are read back from where `Joined` put them. */
  lemma ParseJoined(y: string, m: string, dd: string)
    requires |y| >= 4 && |m| == 2 && |dd| == 2
    requires AllDigits(y) && AllDigits(m) && AllDigits(dd)
    ensures var date := Date(DigitsValue(y), DigitsValue(m), DigitsValue(dd));
      ParseDate(Joined(y, m, dd)) == (if ValidDate(date) then Some(date) else None)
    ensures |Joined(y, m, dd)| == |y| + 6
  {
    var r := Joined(y, m, dd);
    assert r[|r| - 6] == '-' && r[|r| - 3] == '-';
    assert r[..|r| - 6] == y && r[|r| - 5..|r| - 3] == m && r[|r| - 2..] == dd;
  }

  /** `convertDate`: a `DateTime` is formatted, anything else passes through. */
  function ConvertDate(v: Input): (r: string)
    ensures v.Text? ==> r == v.s
    ensures v.DateTime? && ValidDate(v.d) ==> ParseDate(r) == Some(v.d)
  {
    match v
    case Text(s) => s
    case DateTime(d) => FormatDate(d)
  }
}
