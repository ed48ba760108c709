/** When the daily digest fires: `_parse_notify_time`, the anchor at today's
    HH:MM, the loop that moves the first fire time past the present, and the
    step `_run_loop` takes each time it polls the clock. Time is whole seconds
    since the epoch; a day starts at a multiple of 86400. */
module Schedule {
  import opened Base
  import opened Decimal

  /** The `time_of_day` setting: an int or a string. */
  datatype TimeOfDay = IntSetting(n: int) | TextSetting(text: string)

  datatype NotifyTime = NotifyTime(hour: int, minute: int)

  const DefaultNotifyTime: NotifyTime := NotifyTime(21, 0)

  const SecondsPerHour: int := 3600
  const SecondsPerDay: int := 86400

  predicate IsDigitBelow(c: char, bound: char)
  {
    '0' <= c <= bound
  }

  /** `re.match(r"(?:[01]\d|2[0-3]):(?:[0-5]\d)", s)`: `s` starts with a clock
      time from 00:00 to 23:59; anything may follow. */
  predicate IsClockPrefix(s: string)
  {
    |s| >= 5
    && ((IsDigitBelow(s[0], '1') && IsDigit(s[1])) || (s[0] == '2' && IsDigitBelow(s[1], '3')))
    && s[2] == ':'
    && IsDigitBelow(s[3], '5') && IsDigit(s[4])
  }

  /** `_parse_notify_time` as written: the minute is `int(value[-2:])`, the
      last two characters of the whole string, not of the matched clock time.
      None where that `int` raises. */
  function ParseNotifyTimeAsWritten(v: TimeOfDay): (r: Option<NotifyTime>)
    ensures v.IntSetting? ==> r == Some(NotifyTime(v.n, 0))
    ensures v.TextSetting? && !IsClockPrefix(v.text) ==> r == Some(DefaultNotifyTime)
  {
    match v
    case IntSetting(n) => Some(NotifyTime(n, 0))
    case TextSetting(s) =>
      if IsClockPrefix(s) then
        match PyInt(s[|s| - 2..])
        case None => None
        case Some(minute) => Some(NotifyTime(Value(s[..2]), minute))
      else Some(DefaultNotifyTime)
  }

  /** `_parse_notify_time` with the minute read from the matched clock time,
      which is what the pattern evidently means. */
  function ParseNotifyTime(v: TimeOfDay): (r: NotifyTime)
    ensures v.IntSetting? ==> r == NotifyTime(v.n, 0)
    ensures v.TextSetting? && !IsClockPrefix(v.text) ==> r == DefaultNotifyTime
    ensures v.TextSetting? ==> 0 <= r.hour < 24 && 0 <= r.minute < 60
  {
    match v
    case IntSetting(n) => NotifyTime(n, 0)
    case TextSetting(s) =>
      if IsClockPrefix(s) then
        ValueOfTwo(s[..2]);
        ValueOfTwo(s[3..5]);
        NotifyTime(Value(s[..2]), Value(s[3..5]))
      else DefaultNotifyTime
  }

  lemma ValueOfTwo(s: string)
    requires |s| == 2 && IsDigits(s)
    ensures Value(s) == DigitValue(s[0]) * 10 + DigitValue(s[1])
  {
    var a := s[..1];
    assert a[..|a| - 1] == [];
    assert Value(a) == DigitValue(s[0]);
  }

  /** "%02d" for 0 <= n < 100. */
  function TwoDigits(n: nat): (s: string)
    requires n < 100
    ensures |s| == 2 && IsDigits(s) && Value(s) == n
  {
    var s := [DigitChar(n / 10), DigitChar(n % 10)];
    ValueOfTwo(s);
    s
  }

  /** "HH:MM" for a time of day. */
  function ClockText(hour: nat, minute: nat): (s: string)
    requires hour < 24 && minute < 60
    ensures |s| == 5 && IsClockPrefix(s)
  {
    var s := TwoDigits(hour) + ":" + TwoDigits(minute);
    assert s[0] <= '2' && (s[0] == '2' ==> s[1] <= '3') by {
      assert s[..2] == TwoDigits(hour);
      ValueOfTwo(s[..2]);
    }
    assert s[3] <= '5' by {
      assert s[3..5] == TwoDigits(minute);
      ValueOfTwo(s[3..5]);
    }
    s
  }

  /** Any "HH:MM" prefix is read back as the time it spells, whatever text
      follows it. */
  lemma ParseNotifyTimeOfClock(hour: nat, minute: nat, rest: string)
    requires hour < 24 && minute < 60
    ensures ParseNotifyTime(TextSetting(ClockText(hour, minute) + rest)) == NotifyTime(hour, minute)
  {
    var s := ClockText(hour, minute) + rest;
    assert s[..2] == TwoDigits(hour);
    assert s[3..5] == TwoDigits(minute);
  }

  /** The version as written agrees when nothing follows the clock time. */
  lemma ParseNotifyTimeAsWrittenOfClock(hour: nat, minute: nat)
    requires hour < 24 && minute < 60
    ensures ParseNotifyTimeAsWritten(TextSetting(ClockText(hour, minute))) == Some(NotifyTime(hour, minute))
  {
    var s := ClockText(hour, minute);
    assert s[..2] == TwoDigits(hour);
    assert s[|s| - 2..] == TwoDigits(minute);
    PyIntOfDigitRun(TwoDigits(minute));
  }

  /** A clock time followed by seconds: the version as written reads the
      seconds as the minute. */
  lemma AsWrittenReadsSeconds()
    ensures ParseNotifyTimeAsWritten(TextSetting("21:30:15")) == Some(NotifyTime(21, 15))
    ensures ParseNotifyTime(TextSetting("21:30:15")) == NotifyTime(21, 30)
  {
    var s := "21:30:15";
    assert IsClockPrefix(s);
    assert s[..2] == "21" && s[|s| - 2..] == "15" && s[3..5] == "30";
    PyIntOfDigitRun("15");
  }

  /** A clock time followed by a letter: the version as written raises. */
  lemma AsWrittenRaisesOnSuffix()
    ensures ParseNotifyTimeAsWritten(TextSetting("21:30x")).None?
    ensures ParseNotifyTime(TextSetting("21:30x")) == NotifyTime(21, 30)
  {
    var s := "21:30x";
    assert IsClockPrefix(s);
    assert s[..2] == "21" && s[|s| - 2..] == "0x" && s[3..5] == "30";
    assert TrimStart("0x") == "0x";
    assert TrimEnd("0x") == "0x";
  }

  /** A clock time followed by more digits or a signed number: the version
      as written gives a minute `datetime.replace` refuses. */
  lemma AsWrittenMinuteOutOfDay()
    ensures ParseNotifyTimeAsWritten(TextSetting("21:3099")) == Some(NotifyTime(21, 99))
    ensures ParseNotifyTimeAsWritten(TextSetting("21:30-5")) == Some(NotifyTime(21, -5))
    ensures !InDay(NotifyTime(21, 99)) && !InDay(NotifyTime(21, -5))
  {
    var s := "21:3099";
    assert IsClockPrefix(s);
    assert s[..2] == "21" && s[|s| - 2..] == "99";
    PyIntOfDigitRun("99");
    var u := "21:30-5";
    assert IsClockPrefix(u);
    assert u[..2] == "21" && u[|u| - 2..] == "-5";
    assert TrimStart("-5") == "-5";
    assert TrimEnd("-5") == "-5";
    assert "-5"[1..] == "5";
  }

  /** The start of the day `now` falls in. */
  function StartOfDay(now: int): (d: int)
    ensures d <= now < d + SecondsPerDay && d % SecondsPerDay == 0
  {
    now - now % SecondsPerDay
  }

  /** An hour and minute `datetime.replace` accepts. */
  predicate InDay(t: NotifyTime)
  {
    0 <= t.hour < 24 && 0 <= t.minute < 60
  }

  /** `datetime.now().replace(hour=h, minute=m, second=0, microsecond=0)`:
      today at h:m, for an hour and minute `replace` accepts. */
  function Anchor(now: int, t: NotifyTime): (a: int)
    requires InDay(t)
    ensures StartOfDay(now) <= a < StartOfDay(now) + SecondsPerDay
    ensures (a - StartOfDay(now)) / SecondsPerHour == t.hour
    ensures (a - StartOfDay(now)) % SecondsPerHour == t.minute * 60
  {
    StartOfDay(now) + t.hour * SecondsPerHour + t.minute * 60
  }

  /** The initial next-summary time: starting at `anchor`, add `step` while
      `now` is strictly later. The loop only ends when the step is positive
      or no step is needed. The result is the least time of the form
      anchor + k * step (k >= 0) that is not before `now`. */
  method FirstSummaryTime(anchor: int, now: int, step: int) returns (next: int, ghost k: nat)
    requires anchor < now ==> step > 0
    ensures next >= now && next >= anchor
    ensures next == anchor + k * step
    ensures k > 0 ==> next - step < now
  {
    next, k := anchor, 0;
    while now > next
      invariant next == anchor + k * step
      invariant k > 0 ==> next - step < now
      decreases now - next
    {
      next, k := next + step, k + 1;
    }
  }

  /** No earlier aligned time would do: every anchor + j * step with j < k is
      before `now`. */
  lemma FirstSummaryTimeIsLeast(anchor: int, now: int, step: int, k: nat, j: nat)
    requires step > 0 && k > 0 && anchor + k * step - step < now
    requires j < k
    ensures anchor + j * step < now
  {
    assert j * step <= (k - 1) * step;
  }

  /** One poll of `_run_loop`: a digest fires iff `now` is strictly after the
      next-summary time, and a fire moves that time on by one step. */
  predicate Fires(next: int, now: int)
  {
    now > next
  }

  /** A poll never moves the schedule backwards, and a schedule at most one
      step behind the poll is no longer behind it afterwards. */
  function TickNext(next: int, now: int, step: int): (r: int)
    ensures step >= 0 ==> next <= r
    ensures now <= next + step ==> now <= r
  {
    if Fires(next, now) then next + step else next
  }

  /** The next-summary time after polling at each of `times` in turn. */
  function AfterTicks(next: int, times: seq<int>, step: int): int
  {
    if times == [] then next
    else TickNext(AfterTicks(next, times[..|times| - 1], step), times[|times| - 1], step)
  }

  /** How many of those polls fired. */
  function FireCount(next: int, times: seq<int>, step: int): (n: nat)
    ensures n <= |times|
  {
    if times == [] then 0
    else
      var before := AfterTicks(next, times[..|times| - 1], step);
      FireCount(next, times[..|times| - 1], step) + if Fires(before, times[|times| - 1]) then 1 else 0
  }

  /** Each fire moves the next-summary time by exactly one step, so it stays
      aligned with where it started. */
  lemma {:induction false} TicksStayAligned(next: int, times: seq<int>, step: int)
    ensures AfterTicks(next, times, step) == next + FireCount(next, times, step) * step
  {
    if times != [] {
      var init := times[..|times| - 1];
      TicksStayAligned(next, init, step);
      MulSucc(FireCount(next, init, step), step);
    }
  }

  lemma MulSucc(c: nat, step: int)
    ensures (c + 1) * step == c * step + step
  {
  }

  /** Polling at most one step apart after the anchor keeps the schedule
      current: the next-summary time never falls a full step behind the last
      poll. */
  lemma {:induction false} TicksKeepUp(next: int, times: seq<int>, step: int)
    requires step > 0 && times != [] && times[0] <= next + step
    requires forall i | 0 < i < |times| :: times[i - 1] <= times[i] <= times[i - 1] + step
    ensures AfterTicks(next, times, step) + step >= times[|times| - 1]
    ensures AfterTicks(next, times, step) >= next
  {
    var init := times[..|times| - 1];
    if init != [] {
      TicksKeepUp(next, init, step);
      assert init[|init| - 1] == times[|times| - 2];
    }
  }
}
