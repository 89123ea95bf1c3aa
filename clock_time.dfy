/** Clock times as the application writes them: `"HH:MM"` strings produced with
    Python's `strftime("%H:%M")` or `f"{h:02d}:{m:02d}"` and read back with
    `strptime(s, "%H:%M")`. A time of day is a minute of the day, 0 .. 1439. */
module ClockTime {

  datatype Option<T> = None | Some(value: T)

  const MinutesPerDay: nat := 1440
  /** The snooze step, `timedelta(minutes=5)`. */
  const SnoozeMinutes: nat := 5

  predicate IsDigit(c: char) { '0' <= c <= '9' }

  function DigitValue(c: char): (d: nat)
    requires IsDigit(c)
    ensures d < 10
  {
    (c as int) - ('0' as int)
  }

  function DigitChar(d: nat): (c: char)
    requires d < 10
    ensures IsDigit(c) && DigitValue(c) == d
  {
    (('0' as int) + d) as char
  }

  /** Python's `str(n)` for a natural number: decimal digits, no leading zeros. */
  function Decimal(n: nat): (s: string)
    ensures |s| >= 1 && (|s| == 1 <==> n < 10)
    ensures forall i :: 0 <= i < |s| ==> IsDigit(s[i])
  {
    if n < 10 then [DigitChar(n)] else Decimal(n / 10) + [DigitChar(n % 10)]
  }

  /** Python's `f"{n:02d}"`: a minus sign for negative numbers, and zero padding
      to a width of two characters (the sign counts towards the width). */
  function Pad2(n: int): (s: string)
    ensures n < 0 ==> |s| >= 2 && s[0] == '-' && forall i :: 1 <= i < |s| ==> IsDigit(s[i])
    ensures n >= 0 ==> |s| >= 2 && forall i :: 0 <= i < |s| ==> IsDigit(s[i])
  {
    if n < 0 then "-" + Decimal(-n)
    else if n < 10 then "0" + Decimal(n)
    else Decimal(n)
  }

  /** Two decimal digits of a number below 100, as `strftime` writes `%H` and `%M`. */
  function TwoDigits(n: nat): (s: string)
    requires n < 100
    ensures |s| == 2 && IsDigit(s[0]) && IsDigit(s[1])
    ensures 10 * DigitValue(s[0]) + DigitValue(s[1]) == n
  {
    [DigitChar(n / 10), DigitChar(n % 10)]
  }

  /** `strftime("%H:%M")` of a minute of the day. */
  function FormatClock(t: nat): (s: string)
    requires t < MinutesPerDay
    ensures |s| == 5 && s[2] == ':'
  {
    TwoDigits(t / 60) + ":" + TwoDigits(t % 60)
  }

  /** The two-character alternatives of `%H` in `strptime`: `2[0-3]` and `[0-1]\d`. */
  predicate IsHourPair(a: char, b: char)
  {
    (a == '2' && '0' <= b <= '3') || ((a == '0' || a == '1') && IsDigit(b))
  }

  /** `%M` followed by the end of the string: `[0-5]\d` or a single `\d`. */
  function ParseMinute(s: string): (r: Option<nat>)
    ensures r.Some? ==> r.value < 60
  {
    if |s| == 2 && '0' <= s[0] <= '5' && IsDigit(s[1]) then Some(10 * DigitValue(s[0]) + DigitValue(s[1]))
    else if |s| == 1 && IsDigit(s[0]) then Some(DigitValue(s[0]))
    else None
  }

  /** `strptime(s, "%H:%M")`, giving the minute of the day, or None where Python
      raises ValueError. `%H` tries `2[0-3]`, `[0-1]\d`, then `\d`; the colon
      decides which one is used, and no characters may remain after `%M`. */
  function ParseClock(s: string): (r: Option<nat>)
    ensures r.Some? ==> r.value < MinutesPerDay
  {
    if |s| >= 3 && s[2] == ':' && IsHourPair(s[0], s[1]) then
      match ParseMinute(s[3..])
      case None => None
      case Some(m) => Some((10 * DigitValue(s[0]) + DigitValue(s[1])) * 60 + m)
    else if |s| >= 2 && s[1] == ':' && IsDigit(s[0]) then
      match ParseMinute(s[2..])
      case None => None
      case Some(m) => Some(DigitValue(s[0]) * 60 + m)
    else None
  }

  /** The new time of a snoozed alarm: `strptime`, plus five minutes, `strftime`.
      The date part of the parsed value absorbs the day overflow, so the time of
      day wraps past midnight. */
  function SnoozeTime(s: string): (r: string)
    requires ParseClock(s).Some?
    ensures |r| == 5
  {
    FormatClock((ParseClock(s).value + SnoozeMinutes) % MinutesPerDay)
  }

  /** The check made by `set_alarm`: format `f"{hour:02d}:{minute:02d}"` and
      accept it only if `strptime(..., "%H:%M")` accepts it. */
  function ValidatedTime(hour: int, minute: int): (r: Option<string>)
    ensures r.Some? ==> ParseClock(r.value).Some? && |Pad2(hour)| < |r.value| && r.value[..|Pad2(hour)|] == Pad2(hour)
  {
    var s := Pad2(hour) + ":" + Pad2(minute);
    if ParseClock(s).Some? then Some(s) else None
  }

  // ---------------------------------------------------------------------------
  // Lemmas

  lemma {:induction false} DecimalLong(n: nat)
    requires n >= 100
    ensures |Decimal(n)| >= 3
  {
    if n / 10 >= 100 {
      DecimalLong(n / 10);
    } else {
      assert Decimal(n / 10) == Decimal(n / 100) + [DigitChar(n / 10 % 10)];
    }
  }

  /** `f"{n:02d}"` and `strftime` agree below 100. */
  lemma Pad2Small(n: int)
    requires 0 <= n < 100
    ensures Pad2(n) == TwoDigits(n)
  {
    if n >= 10 {
      assert Decimal(n / 10) == [DigitChar(n / 10)];
    }
  }

  lemma ParseMinuteOfTwoDigits(m: nat)
    requires m < 60
    ensures ParseMinute(TwoDigits(m)) == Some(m)
  {
  }

  /** `strptime` reads back what `strftime` wrote. */
  lemma ParseFormat(t: nat)
    requires t < MinutesPerDay
    ensures ParseClock(FormatClock(t)) == Some(t)
  {
    var s := FormatClock(t);
    var h, m := t / 60, t % 60;
    assert s[0] == DigitChar(h / 10) && s[1] == DigitChar(h % 10);
    assert s[3..] == TwoDigits(m);
    ParseMinuteOfTwoDigits(m);
    assert IsHourPair(s[0], s[1]);
    assert 10 * (h / 10) + h % 10 == h;
  }

  /** Formatting is injective: distinct minutes give distinct strings. */
  lemma FormatInjective(t1: nat, t2: nat)
    requires t1 < MinutesPerDay && t2 < MinutesPerDay
    ensures FormatClock(t1) == FormatClock(t2) <==> t1 == t2
  {
    ParseFormat(t1);
    ParseFormat(t2);
  }

  /** A five-character string that `strptime` accepts is already in the form
      `strftime` writes, so formatting its value gives it back. */
  lemma FormatParse(s: string)
    requires ParseClock(s).Some? && |s| == 5
    ensures FormatClock(ParseClock(s).value) == s
  {
    var t := ParseClock(s).value;
    var h := 10 * DigitValue(s[0]) + DigitValue(s[1]);
    var m := 10 * DigitValue(s[3]) + DigitValue(s[4]);
    assert t == h * 60 + m;
    assert t / 60 == h && t % 60 == m;
    var f := FormatClock(t);
    assert f[0] == s[0] && f[1] == s[1] && f[2] == s[2] && f[3] == s[3] && f[4] == s[4];
  }

  /** Snoozing moves the alarm five minutes later on the 24-hour dial, and the
      result is again a well-formed `"HH:MM"`. */
  lemma SnoozeAdvances(s: string)
    requires ParseClock(s).Some?
    ensures ParseClock(SnoozeTime(s)) == Some((ParseClock(s).value + SnoozeMinutes) % MinutesPerDay)
  {
    ParseFormat((ParseClock(s).value + SnoozeMinutes) % MinutesPerDay);
  }

  /** Snoozing 23:58 wraps past midnight to 00:03. */
  lemma SnoozePastMidnight()
    ensures SnoozeTime("23:58") == "00:03"
  {
    assert ParseClock("23:58") == Some(1438) by {
      assert FormatClock(1438) == "23:58";
      ParseFormat(1438);
    }
    assert (1438 + SnoozeMinutes) % MinutesPerDay == 3;
    assert SnoozeTime("23:58") == FormatClock(3);
    assert 3 / 60 == 0 && 3 % 60 == 3;
    assert TwoDigits(0) == "00" && TwoDigits(3) == "03";
  }

  /** Snoozing 10:00 gives 10:05. */
  lemma SnoozeWithinHour()
    ensures SnoozeTime("10:00") == "10:05"
  {
    assert ParseClock("10:00") == Some(600) by {
      assert FormatClock(600) == "10:00";
      ParseFormat(600);
    }
    assert (600 + SnoozeMinutes) % MinutesPerDay == 605;
    assert SnoozeTime("10:00") == FormatClock(605);
    assert 605 / 60 == 10 && 605 % 60 == 5;
    assert TwoDigits(10) == "10" && TwoDigits(5) == "05";
  }

  /** The hour field of `f"{hour:02d}:..."` is accepted by `%H` precisely for 0 .. 23;
      the result is the parse of the minute field and the hour. */
  lemma {:induction false} ParseHourField(hour: int, rest: string)
    ensures ParseClock(Pad2(hour) + ":" + rest) ==
      if 0 <= hour < 24 then
        match ParseMinute(rest) case None => None case Some(m) => Some(hour * 60 + m)
      else None
  {
    var s := Pad2(hour) + ":" + rest;
    if hour < 0 {
      assert s[0] == '-';
    } else if hour < 24 {
      Pad2Small(hour);
      assert s[..2] == TwoDigits(hour) && s[2] == ':' && s[3..] == rest;
      assert 10 * (hour / 10) + hour % 10 == hour;
    } else if hour < 100 {
      Pad2Small(hour);
      assert s[0] == DigitChar(hour / 10) && s[1] == DigitChar(hour % 10);
      assert !IsHourPair(s[0], s[1]);
    } else {
      DecimalLong(hour);
      assert s[..|Decimal(hour)|] == Decimal(hour);
      assert IsDigit(s[1]) && IsDigit(s[2]);
    }
  }

  lemma {:induction false} ParseMinuteField(minute: int)
    ensures ParseMinute(Pad2(minute)) == if 0 <= minute < 60 then Some(minute) else None
  {
    var s := Pad2(minute);
    if minute < 0 {
      assert s[0] == '-';
    } else if minute < 100 {
      Pad2Small(minute);
    } else {
      DecimalLong(minute);
    }
  }

  /** `set_alarm` accepts exactly hour 0 .. 23 and minute 0 .. 59, and the text it
      keeps is the zero-padded `"HH:MM"` of that minute of the day. */
  lemma ValidatedTimeExact(hour: int, minute: int)
    ensures ValidatedTime(hour, minute) ==
      if 0 <= hour < 24 && 0 <= minute < 60 then Some(FormatClock(hour * 60 + minute)) else None
  {
    ParseHourField(hour, Pad2(minute));
    ParseMinuteField(minute);
    if 0 <= hour < 24 && 0 <= minute < 60 {
      Pad2Small(hour);
      Pad2Small(minute);
      assert (hour * 60 + minute) / 60 == hour && (hour * 60 + minute) % 60 == minute;
    }
  }
}
