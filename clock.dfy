/**
 * The time-of-day and weekday inputs of the daily-updates dialogue
 * (bot/bosko_bot.py:704-795): the `HH:MM` pattern, the conversion of an
 * accepted text into hour and minute, and the weekday names.
 */
module Clock {

  import opened Wrappers
  import opened Seqs

  const DefaultTimezone := "Europe/Warsaw"

  /** Indexed Sunday = 0 ... Saturday = 6, the numbering the job queue receives. */
  const DayNames: seq<string> := ["Sunday", "Monday", "Tuesday", "Wednesday", "Thursday", "Friday", "Saturday"]
  const AllDays: seq<int> := [0, 1, 2, 3, 4, 5, 6]
  const WeekdaysOnly: seq<int> := [1, 2, 3, 4, 5]

  predicate IsDigit(c: char) {
    '0' <= c <= '9'
  }

  function DigitValue(c: char): nat
    requires IsDigit(c)
  {
    c as int - '0' as int
  }

  function Digit(d: nat): char
    requires d < 10
  {
    ('0' as int + d) as char
  }

  /** The hour group `[01]?[0-9]|2[0-3]`. */
  predicate HourText(h: string) {
    || (|h| == 1 && IsDigit(h[0]))
    || (|h| == 2 && (h[0] == '0' || h[0] == '1') && IsDigit(h[1]))
    || (|h| == 2 && h[0] == '2' && '0' <= h[1] <= '3')
  }

  /** The minute group `[0-5][0-9]`. */
  predicate MinuteText(m: string) {
    |m| == 2 && '0' <= m[0] <= '5' && IsDigit(m[1])
  }

  /**
   * `re.compile(r"^([01]?[0-9]|2[0-3]):([0-5][0-9])$").match(t)`: the hour
   * group takes one or two characters, so the colon sits at index 1 or 2; an
   * accepted text is one or two digits, a colon and two digits.
   */
  function MatchesTimePattern(t: string): (r: bool)
    ensures r ==> 4 <= |t| <= 5 && t[|t| - 3] == ':'
    ensures r ==> forall k :: 0 <= k < |t| && k != |t| - 3 ==> IsDigit(t[k])
  {
    || (|t| == 4 && HourText(t[..1]) && t[1] == ':' && MinuteText(t[2..]))
    || (|t| == 5 && HourText(t[..2]) && t[2] == ':' && MinuteText(t[3..]))
  }

  /** `int(s)` for a string of one or two decimal digits. */
  function DecimalValue(s: string): nat
    requires 1 <= |s| <= 2 && forall k :: 0 <= k < |s| ==> IsDigit(s[k])
  {
    if |s| == 1 then DigitValue(s[0]) else 10 * DigitValue(s[0]) + DigitValue(s[1])
  }

  /**
   * `hour, minute = map(int, update_time.split(":"))` on an accepted text: the
   * result is always a valid time of day, so `datetime.time(hour, minute)`
   * cannot raise afterwards.
   */
  function ParseClock(t: string): (hm: (nat, nat))
    requires MatchesTimePattern(t)
    ensures hm.0 <= 23 && hm.1 <= 59
  {
    var colon := if |t| == 4 then 1 else 2;
    (DecimalValue(t[..colon]), DecimalValue(t[colon + 1..]))
  }

  /** Two decimal digits, zero-padded. */
  function TwoDigits(n: nat): string
    requires n < 100
  {
    [Digit(n / 10), Digit(n % 10)]
  }

  /**
   * The text of a time of day, with the hour zero-padded or (below 10) not:
   * one or two digits, a colon and two digits.
   */
  function ClockText(hour: nat, minute: nat, padded: bool): (t: string)
    requires hour < 24 && minute < 60
    requires !padded ==> hour < 10
    ensures |t| == (if padded then 5 else 4) && t[|t| - 3] == ':'
    ensures forall k :: 0 <= k < |t| && k != |t| - 3 ==> IsDigit(t[k])
  {
    (if padded then TwoDigits(hour) else [Digit(hour)]) + ":" + TwoDigits(minute)
  }

  /**
   * Every valid time of day is accepted in its padded form, and in its
   * unpadded form when the hour is below 10, and parses back to itself.
   */
  lemma ClockTextAccepted(hour: nat, minute: nat, padded: bool)
    requires hour < 24 && minute < 60
    requires !padded ==> hour < 10
    ensures MatchesTimePattern(ClockText(hour, minute, padded))
    ensures ParseClock(ClockText(hour, minute, padded)) == (hour, minute)
  {
    var t := ClockText(hour, minute, padded);
    if padded {
      assert t[..2] == TwoDigits(hour) && t[3..] == TwoDigits(minute);
    } else {
      assert t[..1] == [Digit(hour)] && t[2..] == TwoDigits(minute);
    }
  }

  /**
   * Conversely, every accepted text is the rendering of the time it parses to:
   * the pattern accepts exactly the hours 0-23 (optionally zero-padded) and the
   * minutes 00-59.
   */
  lemma AcceptedIsClockText(t: string)
    requires MatchesTimePattern(t)
    ensures var (hour, minute) := ParseClock(t);
            (|t| == 4 ==> hour < 10) && t == ClockText(hour, minute, |t| == 5)
  {
    var (hour, minute) := ParseClock(t);
    if |t| == 4 {
      assert t == t[..1] + ":" + t[2..];
    } else {
      assert t == t[..2] + ":" + t[3..];
    }
  }

  /** Out-of-range and malformed times are rejected. */
  lemma MalformedTimesRejected()
    ensures !MatchesTimePattern("24:00")
    ensures !MatchesTimePattern("12:60")
    ensures !MatchesTimePattern("9:5")
    ensures !MatchesTimePattern("009:00")
    ensures !MatchesTimePattern("09.00")
    ensures MatchesTimePattern("9:05") && MatchesTimePattern("09:05") && MatchesTimePattern("23:59")
  {
    assert "24:00"[..2] == "24";
    assert "9:05"[..1] == "9" && "9:05"[2..] == "05";
    assert "09:05"[..2] == "09" && "09:05"[3..] == "05";
    assert "23:59"[..2] == "23" && "23:59"[3..] == "59";
  }

  /** `day_names.index(text)`, or `None` when `text not in day_names`. */
  function DayIndex(text: string): (d: Option<nat>)
    ensures d.None? <==> text !in DayNames
    ensures d.Some? ==> d.value < 7 && DayNames[d.value] == text
  {
    IndexOf(DayNames, text)
  }

  /** The seven day names are distinct. */
  lemma DayNamesDistinct()
    ensures forall j, k :: 0 <= j < k < 7 ==> DayNames[j] != DayNames[k]
  {
    forall j, k | 0 <= j < k < 7 ensures DayNames[j] != DayNames[k] {
      assert DayNames[j][1] != DayNames[k][1] || DayNames[j][0] != DayNames[k][0];
    }
  }

  /** Each day name selects its own index. */
  lemma DayIndexOfName(i: nat)
    requires i < 7
    ensures DayIndex(DayNames[i]) == Some(i)
  {
    DayNamesDistinct();
    var d := DayIndex(DayNames[i]);
    assert d.Some? && DayNames[d.value] == DayNames[i];
  }
}
