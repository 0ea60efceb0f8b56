/**
 * The wall-clock rendering `strftime("%-I:%M %p")` used for slot start times:
 * the hour on a 12-hour clock without padding, two-digit minutes, and AM/PM.
 * Times are minutes; only the minute of the day matters.
 */
module Clock {
  import opened Wrappers

  const MinutesPerDay := 1440

  function Digit(d: int): char
    requires 0 <= d < 10
  {
    ('0' as int + d) as char
  }

  predicate IsDigit(c: char) {
    '0' <= c <= '9'
  }

  function DigitValue(c: char): int {
    c as int - '0' as int
  }

  /** `%-I`: 1 to 12, no leading zero. */
  function HourText(h: int): (s: string)
    requires 1 <= h <= 12
  {
    if h < 10 then [Digit(h)] else [Digit(h / 10), Digit(h % 10)]
  }

  /** `%-I:%M %p` of the wall-clock minute `m` (taken modulo a day). */
  function Label(m: int): (r: string)
    ensures 7 <= |r| <= 8 && r[|r| - 6] == ':' && r[|r| - 3] == ' '
    ensures r[|r| - 2..] == (if m % MinutesPerDay < 720 then "AM" else "PM")
  {
    var t := m % MinutesPerDay;
    var h := t / 60;
    var min := t % 60;
    HourText(if h % 12 == 0 then 12 else h % 12) + ":" + [Digit(min / 10), Digit(min % 10)]
      + " " + (if h < 12 then "AM" else "PM")
  }

  /**
   * Reads a label back to the minute of the day it names; the reference
   * inverse of Label.
   */
  function ParseLabel(s: string): Option<int> {
    var n := |s|;
    if n < 7 || n > 8 then None
    else if s[n - 6] != ':' || s[n - 3] != ' ' || !IsDigit(s[n - 5]) || !IsDigit(s[n - 4]) then None
    else if !IsDigit(s[0]) || (n == 8 && !IsDigit(s[1])) then None
    else if s[n - 2..] != "AM" && s[n - 2..] != "PM" then None
    else
      var h12 := if n == 7 then DigitValue(s[0]) else 10 * DigitValue(s[0]) + DigitValue(s[1]);
      var min := 10 * DigitValue(s[n - 5]) + DigitValue(s[n - 4]);
      if h12 < 1 || h12 > 12 || min >= 60 then None
      else Some(((h12 % 12) + (if s[n - 2..] == "PM" then 12 else 0)) * 60 + min)
  }

  lemma HourTextValue(h: int)
    requires 1 <= h <= 12
    ensures var s := HourText(h);
      && (|s| == 1 <==> h < 10) && 1 <= |s| <= 2
      && (forall i :: 0 <= i < |s| ==> IsDigit(s[i]))
      && (if |s| == 1 then DigitValue(s[0]) else 10 * DigitValue(s[0]) + DigitValue(s[1])) == h
  {
  }

  /** The 12-hour reading of an hour of the day, with AM/PM, gives the hour back. */
  lemma TwelveHourClock(h: int)
    requires 0 <= h < 24
    ensures var h12 := if h % 12 == 0 then 12 else h % 12;
      1 <= h12 <= 12 && (h12 % 12) + (if h < 12 then 0 else 12) == h
  {
  }

  /** Two digits read back as the number below 100 they were made from. */
  lemma TwoDigits(min: int)
    requires 0 <= min < 100
    ensures 10 * DigitValue(Digit(min / 10)) + DigitValue(Digit(min % 10)) == min
    ensures IsDigit(Digit(min / 10)) && IsDigit(Digit(min % 10))
  {
  }

  /** Every label reads back as the minute of the day it was made from. */
  lemma ParseLabelInvertsLabel(m: int)
    ensures ParseLabel(Label(m)) == Some(m % MinutesPerDay)
  {
    var t := m % MinutesPerDay;
    var h := t / 60;
    var min := t % 60;
    var h12 := if h % 12 == 0 then 12 else h % 12;
    TwelveHourClock(h);
    TwoDigits(min);
    HourTextValue(h12);
    var hs := HourText(h12);
    var mm := [Digit(min / 10), Digit(min % 10)];
    var ap := if h < 12 then "AM" else "PM";
    var s := hs + ":" + mm + " " + ap;
    assert s == Label(m);
    var n := |s|;
    assert n == |hs| + 6;
    assert s[n - 6] == ':' && s[n - 3] == ' ';
    assert s[n - 5] == mm[0] && s[n - 4] == mm[1];
    assert s[n - 2..] == ap;
    assert s[0] == hs[0];
    assert n == 8 ==> s[1] == hs[1];
    assert t == h * 60 + min;
  }

  /** Two minutes of the same day never share a label. */
  lemma LabelInjective(a: int, b: int)
    requires Label(a) == Label(b)
    ensures a % MinutesPerDay == b % MinutesPerDay
  {
    ParseLabelInvertsLabel(a);
    ParseLabelInvertsLabel(b);
  }

  /** The label of a whole hour `h` of the day. */
  lemma LabelOnTheHour(h: int)
    requires 0 <= h < 24
    ensures Label(60 * h) == HourText(if h % 12 == 0 then 12 else h % 12) + ":00 " + (if h < 12 then "AM" else "PM")
  {
    assert (60 * h) % MinutesPerDay == 60 * h;
    assert [Digit(0), Digit(0)] == "00";
    var hs := HourText(if h % 12 == 0 then 12 else h % 12);
    var ap := if h < 12 then "AM" else "PM";
    assert hs + ":" + "00" + " " + ap == hs + ":00 " + ap;
  }

  /** 14:00 reads "2:00 PM". */
  lemma TwoPmLabel()
    ensures Label(840) == "2:00 PM"
  {
    LabelOnTheHour(14);
    assert HourText(2) == "2";
  }
}
