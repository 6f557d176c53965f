/**
 * Departure-time formatting of the search client: a departure time such as
 * "8:05" becomes "YYYY-MM-DDTHH:mm:00+09:00" on the current date. The
 * JavaScript built-ins it uses (`String`, `padStart`, `split`, `Number`) are
 * modelled for the inputs they meet here, and a parser of the produced
 * timestamp is the partner that shows nothing is lost for two-digit fields.
 */
module Timestamp {
  import opened Wrappers

  /** The current local date as the clock gives it; `month` is 1-based. */
  datatype Date = Date(year: nat, month: nat, day: nat)

  /** The fields a formatted timestamp encodes. */
  datatype Stamp = Stamp(date: Date, hours: nat, minutes: nat)

  predicate IsDigit(c: char) {
    '0' <= c <= '9'
  }

  predicate AllDigits(s: string) {
    forall i :: 0 <= i < |s| ==> IsDigit(s[i])
  }

  function DigitChar(d: nat): (c: char)
    requires d < 10
    ensures IsDigit(c) && c as int - '0' as int == d
  {
    ('0' as int + d) as char
  }

  /** `String(n)` for a non-negative integer: its shortest decimal numeral. */
  function Decimal(n: nat): (s: string)
    ensures |s| >= 1 && AllDigits(s)
    ensures s[0] == '0' ==> n == 0
    ensures n < 10 <==> |s| == 1
    ensures n < 100 <==> |s| <= 2
  {
    if n < 10 then [DigitChar(n)] else Decimal(n / 10) + [DigitChar(n % 10)]
  }

  /** The value of a digit string read as decimal; the empty string counts 0, as `Number("")` does. */
  function DigitsValue(s: string): nat
    requires AllDigits(s)
  {
    if s == [] then 0 else DigitsValue(s[..|s| - 1]) * 10 + (s[|s| - 1] as int - '0' as int)
  }

  /** Reading a numeral back gives the number it was printed from. */
  lemma {:induction false} DecimalRoundTrip(n: nat)
    ensures DigitsValue(Decimal(n)) == n
  {
    if n >= 10 {
      var s := Decimal(n);
      assert s[..|s| - 1] == Decimal(n / 10);
      DecimalRoundTrip(n / 10);
    }
  }

  /** Leading zeros do not change the value of a digit string. */
  lemma {:induction false} LeadingZero(s: string)
    requires AllDigits(s)
    ensures AllDigits(['0'] + s) && DigitsValue(['0'] + s) == DigitsValue(s)
  {
    if s != [] {
      var t := ['0'] + s;
      assert t[..|t| - 1] == ['0'] + s[..|s| - 1];
      LeadingZero(s[..|s| - 1]);
    }
  }

  /**
   * `s.padStart(width, fill)` for a one-character fill: `fill` is prepended
   * until the string is `width` long; a string already that long is kept.
   */
  function PadStart(s: string, width: nat, fill: char): (r: string)
    ensures |r| == if |s| >= width then |s| else width
    ensures r[|r| - |s|..] == s
    ensures forall i :: 0 <= i < |r| - |s| ==> r[i] == fill
    decreases width - |s|
  {
    if |s| >= width then s else PadStart([fill] + s, width, fill)
  }

  /** A two-digit field: `String(n).padStart(2, '0')`. */
  function Pad2(s: string): string {
    PadStart(s, 2, '0')
  }

  /** A number below 100 prints as exactly two digits that read back as the number. */
  lemma Pad2Decimal(n: nat)
    requires n < 100
    ensures |Pad2(Decimal(n))| == 2 && AllDigits(Pad2(Decimal(n)))
    ensures DigitsValue(Pad2(Decimal(n))) == n
  {
    var s := Decimal(n);
    DecimalRoundTrip(n);
    if |s| == 1 {
      assert Pad2(s) == ['0'] + s;
      LeadingZero(s);
    }
  }

  /** The parts are separated by `sep`: the inverse of `Split`. */
  function Join(parts: seq<string>, sep: char): string
    requires |parts| >= 1
  {
    if |parts| == 1 then parts[0] else parts[0] + [sep] + Join(parts[1..], sep)
  }

  /**
   * `s.split(sep)` for a one-character separator: the maximal runs between
   * separators, empty runs included, so there is one more part than there
   * are separators.
   */
  function Split(s: string, sep: char): (parts: seq<string>)
    ensures |parts| >= 1
    ensures |parts| >= 2 <==> sep in s
    ensures forall i :: 0 <= i < |parts| ==> sep !in parts[i]
    ensures Join(parts, sep) == s
  {
    if s == [] then [[]]
    else
      var rest := Split(s[1..], sep);
      if s[0] == sep then
        assert Join([[]] + rest, sep) == [sep] + Join(rest, sep);
        [[]] + rest
      else
        var parts := [[s[0]] + rest[0]] + rest[1..];
        assert parts[1..] == rest[1..];
        assert sep !in parts[0];
        parts
  }

  /**
   * `Number(part)` for a part of a departure time: a digit string gives its
   * value (the empty string gives 0); any other text gives `NaN`, written `None`.
   */
  function ToNumber(part: string): (n: Option<nat>)
    ensures n.Some? <==> AllDigits(part)
  {
    if AllDigits(part) then Some(DigitsValue(part)) else None
  }

  /** `String(x)` for what `ToNumber` returns. */
  function NumberToString(n: Option<nat>): string {
    if n.None? then "NaN" else Decimal(n.value)
  }

  /**
   * The `HH` and `mm` fields: the first two `':'`-separated parts, as numbers,
   * padded. A digit part is re-printed without its leading zeros and then
   * padded, so "8:5" and "08:05" give the same fields; a part `Number`
   * rejects prints as "NaN".
   */
  function TimeFields(departureTime: string): (hm: (string, string))
    requires ':' in departureTime
    ensures var parts := Split(departureTime, ':');
      && (AllDigits(parts[0]) ==> hm.0 == Pad2(Decimal(DigitsValue(parts[0]))))
      && (!AllDigits(parts[0]) ==> hm.0 == "NaN")
      && (AllDigits(parts[1]) ==> hm.1 == Pad2(Decimal(DigitsValue(parts[1]))))
      && (!AllDigits(parts[1]) ==> hm.1 == "NaN")
  {
    var parts := Split(departureTime, ':');
    (Pad2(NumberToString(ToNumber(parts[0]))), Pad2(NumberToString(ToNumber(parts[1]))))
  }

  /**
   * The `departure_time` query value: `YYYY-MM-DDTHH:mm:00+09:00`. Whatever
   * the input, it starts with the unpadded year and a hyphen and ends in
   * seconds 00 and offset +09:00.
   */
  function FormatDepartureTime(departureTime: string, today: Date): (t: string)
    requires ':' in departureTime
    ensures Decimal(today.year) + "-" <= t
    ensures |t| >= 9 && t[|t| - 9..] == ":00+09:00"
  {
    var hm := TimeFields(departureTime);
    var year, month, day := Decimal(today.year), Pad2(Decimal(today.month)), Pad2(Decimal(today.day));
    Layout(year, month, day, hm.0, hm.1)
  }

  /** The template `YYYY-MM-DDTHH:mm:00+09:00` filled with the given fields. */
  function Layout(year: string, month: string, day: string, hh: string, mm: string): (t: string)
    ensures year + "-" <= t && |t| >= 9 && t[|t| - 9..] == ":00+09:00"
  {
    var mid := month + "-" + day + "T" + hh + ":" + mm;
    assert Suffix(month, day, hh, mm) == "-" + (mid + ":00+09:00");
    assert year + Suffix(month, day, hh, mm) == (year + "-" + mid) + ":00+09:00";
    year + Suffix(month, day, hh, mm)
  }

  /** What follows the year: `-MM-DDTHH:mm:00+09:00`. */
  function Suffix(month: string, day: string, hh: string, mm: string): string {
    "-" + month + "-" + day + "T" + hh + ":" + mm + ":00+09:00"
  }

  /** The length of what follows the year in a timestamp with two-digit fields. */
  const SuffixLength: nat := 21

  /** Reads a timestamp with an all-digit year and two-digit fields, seconds 00 and offset +09:00. */
  function ParseTimestamp(t: string): (r: Option<Stamp>)
  {
    if |t| <= SuffixLength || !AllDigits(t[..|t| - SuffixLength]) then None
    else
      match ParseSuffix(t[|t| - SuffixLength..])
      case None => None
      case Some((month, day, hours, minutes)) =>
        Some(Stamp(Date(DigitsValue(t[..|t| - SuffixLength]), month, day), hours, minutes))
  }

  /** Reads `-MM-DDTHH:mm:00+09:00` into month, day, hours and minutes. */
  function ParseSuffix(rest: string): Option<(nat, nat, nat, nat)> {
    if |rest| == SuffixLength && rest[0] == '-' && AllDigits(rest[1..3]) && rest[3] == '-'
       && AllDigits(rest[4..6]) && rest[6] == 'T' && AllDigits(rest[7..9]) && rest[9] == ':'
       && AllDigits(rest[10..12]) && rest[12..] == ":00+09:00"
    then Some((DigitsValue(rest[1..3]), DigitsValue(rest[4..6]),
               DigitsValue(rest[7..9]), DigitsValue(rest[10..12])))
    else None
  }

  /** With two-digit fields the suffix has fixed offsets and reads back as the fields' values. */
  lemma ParseSuffixOf(month: string, day: string, hh: string, mm: string)
    requires |month| == |day| == |hh| == |mm| == 2
    requires AllDigits(month) && AllDigits(day) && AllDigits(hh) && AllDigits(mm)
    ensures ParseSuffix(Suffix(month, day, hh, mm)) ==
              Some((DigitsValue(month), DigitsValue(day), DigitsValue(hh), DigitsValue(mm)))
  {
    assert month == [month[0], month[1]] && day == [day[0], day[1]];
    assert hh == [hh[0], hh[1]] && mm == [mm[0], mm[1]];
    var rest := [ '-', month[0], month[1], '-', day[0], day[1], 'T', hh[0], hh[1], ':', mm[0], mm[1] ]
                + ":00+09:00";
    assert Suffix(month, day, hh, mm) == rest;
    assert rest[1..3] == month && rest[4..6] == day && rest[7..9] == hh && rest[10..12] == mm;
    assert rest[12..] == ":00+09:00";
  }

  /** A timestamp laid out from an all-digit year and two-digit fields parses back into their values. */
  lemma ParseLayout(year: string, month: string, day: string, hh: string, mm: string)
    requires |month| == |day| == |hh| == |mm| == 2
    requires AllDigits(year) && |year| >= 1
    requires AllDigits(month) && AllDigits(day) && AllDigits(hh) && AllDigits(mm)
    ensures ParseTimestamp(Layout(year, month, day, hh, mm)) ==
              Some(Stamp(Date(DigitsValue(year), DigitsValue(month), DigitsValue(day)),
                         DigitsValue(hh), DigitsValue(mm)))
  {
    ParseSuffixOf(month, day, hh, mm);
    var rest := Suffix(month, day, hh, mm);
    var t := year + rest;
    assert |rest| == SuffixLength;
    assert t[..|t| - SuffixLength] == year && t[|t| - SuffixLength..] == rest;
  }

  /**
   * A departure time whose first two parts are digit strings with values
   * below 100, on a date whose month and day are below 100, is formatted
   * into a timestamp that reads back as that date, hour and minute.
   */
  lemma FormatRoundTrip(departureTime: string, today: Date)
    requires ':' in departureTime
    requires today.month < 100 && today.day < 100
    requires AllDigits(Split(departureTime, ':')[0]) && AllDigits(Split(departureTime, ':')[1])
    requires DigitsValue(Split(departureTime, ':')[0]) < 100
    requires DigitsValue(Split(departureTime, ':')[1]) < 100
    ensures ParseTimestamp(FormatDepartureTime(departureTime, today)) ==
              Some(Stamp(today, DigitsValue(Split(departureTime, ':')[0]),
                         DigitsValue(Split(departureTime, ':')[1])))
  {
    var parts := Split(departureTime, ':');
    var h, m := DigitsValue(parts[0]), DigitsValue(parts[1]);
    var y, mo, d := Decimal(today.year), Pad2(Decimal(today.month)), Pad2(Decimal(today.day));
    var hh, mm := Pad2(Decimal(h)), Pad2(Decimal(m));
    Pad2Decimal(today.month);
    Pad2Decimal(today.day);
    Pad2Decimal(h);
    Pad2Decimal(m);
    DecimalRoundTrip(today.year);
    assert TimeFields(departureTime) == (hh, mm);
    assert FormatDepartureTime(departureTime, today) == Layout(y, mo, d, hh, mm);
    ParseLayout(y, mo, d, hh, mm);
  }
}
