/** The zero padding and the two timestamp layouts of the recording bot
    (`pad`, `formatDateForFileName`, `formatDateForVideoName`), together with
    the decimal reading that undoes them. */
module DateFormat {
  import opened Wrappers

  /** A moment as the local-time getters of a JavaScript Date report it:
      `getFullYear`, `getMonth` (counted from 0), `getDate`, `getHours`,
      `getMinutes`, `getSeconds`. */
  datatype Date = Date(year: int, month0: int, day: int, hours: int, minutes: int, seconds: int)

  /** The ranges those getters keep to. */
  predicate WellFormed(d: Date) {
    && 0 <= d.month0 <= 11
    && 1 <= d.day <= 31
    && 0 <= d.hours <= 23
    && 0 <= d.minutes <= 59
    && 0 <= d.seconds <= 59
  }

  predicate IsDigit(c: char) {
    '0' <= c <= '9'
  }

  predicate AllDigits(s: string) {
    forall i :: 0 <= i < |s| ==> IsDigit(s[i])
  }

  function DigitChar(d: nat): (c: char)
    requires d < 10
    ensures IsDigit(c)
  {
    ('0' as int + d) as char
  }

  function DigitValue(c: char): nat
    requires IsDigit(c)
  {
    c as int - '0' as int
  }

  /** Decimal text of a non-negative number, as JavaScript's number-to-string
      conversion gives it: no sign, no leading zero. */
  function NatToString(n: nat): (s: string)
    ensures |s| >= 1 && AllDigits(s)
    ensures s[0] == '0' ==> n == 0
  {
    if n < 10 then [DigitChar(n)] else NatToString(n / 10) + [DigitChar(n % 10)]
  }

  function IntToString(i: int): string {
    if i < 0 then "-" + NatToString(-i) else NatToString(i)
  }

  /** The value of a string of decimal digits (the empty string reads as 0). */
  function DecimalValue(s: string): nat
    requires AllDigits(s)
  {
    if s == [] then 0 else 10 * DecimalValue(s[..|s| - 1]) + DigitValue(s[|s| - 1])
  }

  /** Reads an optionally negative decimal integer; anything else is None. */
  function ParseInt(s: string): Option<int> {
    if |s| >= 2 && s[0] == '-' && AllDigits(s[1..]) then Some(-(DecimalValue(s[1..]) as int))
    else if |s| >= 1 && AllDigits(s) then Some(DecimalValue(s))
    else None
  }

  lemma {:induction false} NatRoundTrip(n: nat)
    ensures DecimalValue(NatToString(n)) == n
  {
    if n >= 10 {
      NatRoundTrip(n / 10);
      var s := NatToString(n);
      assert s[..|s| - 1] == NatToString(n / 10);
    }
  }

  /** Reading the text of an integer back gives the integer. */
  lemma IntRoundTrip(i: int)
    ensures ParseInt(IntToString(i)) == Some(i)
  {
    if i < 0 {
      var s := IntToString(i);
      assert s[1..] == NatToString(-i);
      NatRoundTrip(-i);
    } else {
      NatRoundTrip(i);
    }
  }

  /** One digit below 10, two below 100, more from 100 on. */
  lemma DigitCount(n: nat)
    ensures n < 10 <==> |NatToString(n)| == 1
    ensures n < 100 <==> |NatToString(n)| <= 2
  {
  }

  /** `pad`: numbers below ten get a leading "0"; the rest are rendered as they are. */
  function Pad(n: int): string {
    if n < 10 then "0" + IntToString(n) else IntToString(n)
  }

  /** For every non-negative number, padding keeps its value and gives
      exactly two digits precisely when the number is at most 99. */
  lemma PadKeepsValue(n: nat)
    ensures AllDigits(Pad(n)) && DecimalValue(Pad(n)) == n
    ensures |Pad(n)| == 2 <==> n <= 99
  {
    DigitCount(n);
    NatRoundTrip(n);
    if n < 10 {
      var s := Pad(n);
      assert s[..1] == "0";
    }
  }

  /** The shared layout of both formatters: year, month (from 1), day, hours,
      minutes and seconds, the last five padded, with the given separators. */
  function Stamp(d: Date, dateSep: char, midSep: char, timeSep: char): string {
    IntToString(d.year) + Tail(d, dateSep, midSep, timeSep)
  }

  /** What follows the year: the five padded fields, each after its separator. */
  function Tail(d: Date, dateSep: char, midSep: char, timeSep: char): string {
    [dateSep] + Pad(d.month0 + 1) + [dateSep] + Pad(d.day)
      + [midSep] + Pad(d.hours) + [timeSep] + Pad(d.minutes) + [timeSep] + Pad(d.seconds)
  }

  /** `formatDateForFileName`: `Y-MM-DD-HH-MM-SS`. */
  function FormatDateForFileName(d: Date): string {
    Stamp(d, '-', '-', '-')
  }

  /** `formatDateForVideoName`: `Y/MM/DD HH:MM:SS`. */
  function FormatDateForVideoName(d: Date): string {
    Stamp(d, '/', ' ', ':')
  }

  /** The number written by the two characters at `t[k]` and `t[k+1]`, if
      both are digits. */
  function TwoDigitsAt(t: string, k: nat): Option<nat>
    requires k + 2 <= |t|
  {
    if IsDigit(t[k]) && IsDigit(t[k + 1]) then Some(10 * DigitValue(t[k]) + DigitValue(t[k + 1])) else None
  }

  /** Reads a stamp back: the last fifteen characters hold the five padded
      fields and their separators, everything before them is the year. */
  function ParseStamp(s: string, dateSep: char, midSep: char, timeSep: char): Option<Date> {
    if |s| < 16 then None
    else
      var n := |s| - 15;
      var t := s[n..];
      var year := ParseInt(s[..n]);
      var month := TwoDigitsAt(t, 1);
      var day := TwoDigitsAt(t, 4);
      var hours := TwoDigitsAt(t, 7);
      var minutes := TwoDigitsAt(t, 10);
      var seconds := TwoDigitsAt(t, 13);
      if && t[0] == dateSep && t[3] == dateSep && t[6] == midSep && t[9] == timeSep && t[12] == timeSep
         && year.Some? && month.Some? && day.Some? && hours.Some? && minutes.Some? && seconds.Some?
      then Some(Date(year.value, month.value - 1, day.value, hours.value, minutes.value, seconds.value))
      else None
  }

  /** Two digits read as a pair are their decimal value. */
  lemma TwoDigitsValue(p: string)
    requires |p| == 2 && AllDigits(p)
    ensures TwoDigitsAt(p, 0) == Some(DecimalValue(p))
  {
    assert p[..|p| - 1] == [p[0]];
    assert DecimalValue([p[0]]) == DigitValue(p[0]) by {
      assert [p[0]][..0] == [];
    }
  }

  /** A value from 0 to 99 pads to two characters that read back as it. */
  lemma PadPair(n: nat)
    requires n <= 99
    ensures |Pad(n)| == 2 && TwoDigitsAt(Pad(n), 0) == Some(n)
  {
    PadKeepsValue(n);
    TwoDigitsValue(Pad(n));
  }

  /** The layout of a tail built from five two-character fields: the
      separators sit at 0, 3, 6, 9 and 12 and the fields are read at 1, 4,
      7, 10 and 13. */
  lemma TailLayout(dateSep: char, midSep: char, timeSep: char, mo: string, da: string, ho: string, mi: string, se: string)
    requires |mo| == 2 && |da| == 2 && |ho| == 2 && |mi| == 2 && |se| == 2
    ensures var t := [dateSep] + mo + [dateSep] + da + [midSep] + ho + [timeSep] + mi + [timeSep] + se;
      && |t| == 15
      && t[0] == dateSep && t[3] == dateSep && t[6] == midSep && t[9] == timeSep && t[12] == timeSep
      && TwoDigitsAt(t, 1) == TwoDigitsAt(mo, 0)
      && TwoDigitsAt(t, 4) == TwoDigitsAt(da, 0)
      && TwoDigitsAt(t, 7) == TwoDigitsAt(ho, 0)
      && TwoDigitsAt(t, 10) == TwoDigitsAt(mi, 0)
      && TwoDigitsAt(t, 13) == TwoDigitsAt(se, 0)
  {
    var y1 := [dateSep] + mo;
    var y2 := y1 + [dateSep];
    var y3 := y2 + da;
    var y4 := y3 + [midSep];
    var y5 := y4 + ho;
    var y6 := y5 + [timeSep];
    var y7 := y6 + mi;
    var y8 := y7 + [timeSep];
    var t := y8 + se;
    assert |y1| == 3 && |y2| == 4 && |y3| == 6 && |y4| == 7 && |y5| == 9;
    assert |y6| == 10 && |y7| == 12 && |y8| == 13 && |t| == 15;
    forall i | 0 <= i < 13
      ensures t[i] == y8[i]
    {
    }
    forall i | 0 <= i < 12
      ensures y8[i] == y7[i]
    {
    }
    forall i | 0 <= i < 10
      ensures y7[i] == y6[i]
    {
    }
    forall i | 0 <= i < 9
      ensures y6[i] == y5[i]
    {
    }
    forall i | 0 <= i < 7
      ensures y5[i] == y4[i]
    {
    }
    forall i | 0 <= i < 6
      ensures y4[i] == y3[i]
    {
    }
    forall i | 0 <= i < 4
      ensures y3[i] == y2[i]
    {
    }
    forall i | 0 <= i < 3
      ensures y2[i] == y1[i]
    {
    }
  }

  /** In a well-formed date's tail the separators sit at 0, 3, 6, 9 and 12
      and each field reads back as the number it renders. */
  lemma TailFields(d: Date, dateSep: char, midSep: char, timeSep: char)
    requires WellFormed(d)
    ensures var t := Tail(d, dateSep, midSep, timeSep);
      && |t| == 15
      && t[0] == dateSep && t[3] == dateSep && t[6] == midSep && t[9] == timeSep && t[12] == timeSep
      && TwoDigitsAt(t, 1) == Some(d.month0 + 1)
      && TwoDigitsAt(t, 4) == Some(d.day)
      && TwoDigitsAt(t, 7) == Some(d.hours)
      && TwoDigitsAt(t, 10) == Some(d.minutes)
      && TwoDigitsAt(t, 13) == Some(d.seconds)
  {
    var mo, da, ho, mi, se := Pad(d.month0 + 1), Pad(d.day), Pad(d.hours), Pad(d.minutes), Pad(d.seconds);
    PadPair(d.month0 + 1);
    PadPair(d.day);
    PadPair(d.hours);
    PadPair(d.minutes);
    PadPair(d.seconds);
    TailLayout(dateSep, midSep, timeSep, mo, da, ho, mi, se);
  }

  /** Every well-formed date is recovered from its stamp, whatever the separators. */
  lemma StampRoundTrip(d: Date, dateSep: char, midSep: char, timeSep: char)
    requires WellFormed(d)
    ensures |Stamp(d, dateSep, midSep, timeSep)| == |IntToString(d.year)| + 15
    ensures ParseStamp(Stamp(d, dateSep, midSep, timeSep), dateSep, midSep, timeSep) == Some(d)
  {
    var y := IntToString(d.year);
    var t := Tail(d, dateSep, midSep, timeSep);
    var s := Stamp(d, dateSep, midSep, timeSep);
    TailFields(d, dateSep, midSep, timeSep);
    IntRoundTrip(d.year);
    assert s[..|s| - 15] == y;
    assert s[|s| - 15..] == t;
  }

  /** The name of a recording saved locally: the file-name stamp plus `.webm`. */
  function FallbackFileName(now: Date): string {
    FormatDateForFileName(now) + ".webm"
  }

  /** The fallback name ends in `.webm`, and what precedes it reads back as
      the date it was made from. */
  lemma FallbackFileNameRoundTrip(now: Date)
    requires WellFormed(now)
    ensures var name := FallbackFileName(now);
      |name| >= 21 && name[|name| - 5..] == ".webm"
      && ParseStamp(name[..|name| - 5], '-', '-', '-') == Some(now)
  {
    var name := FallbackFileName(now);
    StampRoundTrip(now, '-', '-', '-');
    assert name[..|name| - 5] == FormatDateForFileName(now);
  }
}
