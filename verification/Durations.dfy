/** ParseDuration of pkg/slurm-agent/parse.go: Slurm's ways to write a duration. */
module Durations {
  import opened Options
  import opened GoText

  const SECOND := 1_000_000_000
  const MINUTE := 60 * SECOND
  const HOUR := 60 * MINUTE

  const UNLIMITED := "UNLIMITED"

  /** A duration in nanoseconds, the error "duration is unlimited", or another error. */
  datatype Parsed = Duration(ns: int) | Unlimited | Invalid

  /** A duration text taken apart. */
  datatype Clock = Clock(days: string, hours: string, minutes: string, seconds: string)

  /** The formats: minutes, minutes:seconds, hours:minutes:seconds, and days-hours[:minutes[:seconds]]. */
  function ClockOf(text: string): Option<Clock> {
    var parts := Split(text, ':');
    var dash := IndexByte(parts[0], '-');
    if |parts| > 3 then None
    else if dash != -1 then
      Some(Clock(parts[0][..dash], parts[0][dash + 1..],
                 if |parts| > 1 then parts[1] else "0", if |parts| > 2 then parts[2] else "0"))
    else if |parts| == 1 then Some(Clock("0", "0", parts[0], "0"))
    else if |parts| == 2 then Some(Clock("0", "0", parts[0], parts[1]))
    else Some(Clock("0", parts[0], parts[1], parts[2]))
  }

  /** The seconds a clock shows, when all its numbers are numbers. */
  function SecondsOf(c: Clock): Option<int> {
    var d, h, m, s := ParseInt(c.days), ParseInt(c.hours), ParseInt(c.minutes), ParseInt(c.seconds);
    if d.Some? && h.Some? && m.Some? && s.Some? then
      Some(24 * 3600 * d.value + 3600 * h.value + 60 * m.value + s.value)
    else None
  }

  function ShownBy(clock: Option<Clock>): Parsed {
    if clock.None? then Invalid
    else
      var seconds := SecondsOf(clock.value);
      if seconds.None? then Invalid else Duration(Wrap64(seconds.value * SECOND))
  }

  /** What a duration text means: its seconds as nanoseconds, in 64 bits. */
  function DurationOf(text: string): Parsed {
    if text == UNLIMITED || text == "" then Unlimited else ShownBy(ClockOf(text))
  }

  /** The accumulation at the end of ParseDuration. Four additions that wrap around are one. */
  method AddUp(days: int, hours: int, minutes: int, seconds: int) returns (d: int)
    ensures d == Wrap64((24 * 3600 * days + 3600 * hours + 60 * minutes + seconds) * SECOND)
  {
    hide Wrap64;
    d := 0;
    d := Wrap64(d + Wrap64(HOUR * 24 * days));
    d := Wrap64(d + Wrap64(HOUR * hours));
    WrapAdds(HOUR * 24 * days, HOUR * hours);
    d := Wrap64(d + Wrap64(MINUTE * minutes));
    WrapAdds(HOUR * 24 * days + HOUR * hours, MINUTE * minutes);
    d := Wrap64(d + Wrap64(SECOND * seconds));
    WrapAdds(HOUR * 24 * days + HOUR * hours + MINUTE * minutes, SECOND * seconds);
  }

  lemma ZeroIsZero()
    ensures ParseInt("0") == Some(0)
  {
    assert Value("0") == 10 * Value("") + 0;
  }

  method ParseDuration(duration: string) returns (r: Parsed)
    ensures r == DurationOf(duration)
  {
    hide ParseInt, Split, IndexByte, Wrap64;
    if duration == UNLIMITED || duration == "" {
      return Unlimited;
    }
    ZeroIsZero();
    ghost var clock := ClockOf(duration);
    var days, hours, minutes, seconds := Some(0), Some(0), Some(0), Some(0);
    var parts := Split(duration, ':');
    if |parts| > 3 {
      return Invalid;
    }
    var i := IndexByte(parts[0], '-');
    if i != -1 {
      days := ParseInt(parts[0][..i]);
      if days.None? { return Invalid; }
      hours := ParseInt(parts[0][i + 1..]);
      if hours.None? { return Invalid; }
      if |parts| > 1 {
        minutes := ParseInt(parts[1]);
        if minutes.None? { return Invalid; }
      }
      if |parts| > 2 {
        seconds := ParseInt(parts[2]);
        if seconds.None? { return Invalid; }
      }
    } else if |parts| == 1 {
      minutes := ParseInt(parts[0]);
      if minutes.None? { return Invalid; }
    } else if |parts| == 2 {
      minutes := ParseInt(parts[0]);
      if minutes.None? { return Invalid; }
      seconds := ParseInt(parts[1]);
      if seconds.None? { return Invalid; }
    } else {
      hours := ParseInt(parts[0]);
      if hours.None? { return Invalid; }
      minutes := ParseInt(parts[1]);
      if minutes.None? { return Invalid; }
      seconds := ParseInt(parts[2]);
      if seconds.None? { return Invalid; }
    }
    var d := AddUp(days.value, hours.value, minutes.value, seconds.value);
    return Duration(d);
  }

  predicate ColonFree(s: string) { Free(s, ':') }

  lemma SplitOne(a: string)
    requires ColonFree(a)
    ensures Split(a, ':') == [a]
  {
  }

  lemma SplitTwo(a: string, b: string)
    requires ColonFree(a) && ColonFree(b)
    ensures Split(a + ":" + b, ':') == [a, b]
  {
    SplitCons(a, ':', b);
    SplitOne(b);
  }

  lemma SplitThree(a: string, b: string, c: string)
    requires ColonFree(a) && ColonFree(b) && ColonFree(c)
    ensures Split(a + ":" + b + ":" + c, ':') == [a, b, c]
  {
    assert a + ":" + b + ":" + c == a + ":" + (b + ":" + c);
    SplitCons(a, ':', b + ":" + c);
    SplitTwo(b, c);
  }

  /** A text with a colon or a dash in it is neither empty nor UNLIMITED. */
  lemma Limited(a: string, c: char, b: string)
    requires c == ':' || c == '-'
    ensures a + [c] + b != UNLIMITED && a + [c] + b != ""
  {
    assert (a + [c] + b)[|a|] == c;
    assert forall i | 0 <= i < |UNLIMITED| :: UNLIMITED[i] != ':' && UNLIMITED[i] != '-';
  }

  function DaysClock(d: string, h: string, m: string, s: string): string { d + "-" + h + ":" + m + ":" + s }

  function HoursClock(h: string, m: string, s: string): string { h + ":" + m + ":" + s }

  function MinutesClock(m: string, s: string): string { m + ":" + s }

  lemma DaysClockShows(d: string, h: string, m: string, s: string)
    requires Free(d, '-') && ColonFree(d) && ColonFree(h) && ColonFree(m) && ColonFree(s)
    ensures DurationOf(DaysClock(d, h, m, s)) == ShownBy(Some(Clock(d, h, m, s)))
  {
    hide ParseInt, Split, IndexByte, ShownBy;
    SplitThree(d + "-" + h, m, s);
    IndexByteAfter(d, '-', h);
    assert DaysClock(d, h, m, s) == d + "-" + (h + ":" + m + ":" + s);
    Limited(d, '-', h + ":" + m + ":" + s);
  }

  lemma HoursClockShows(h: string, m: string, s: string)
    requires Free(h, '-') && ColonFree(h) && ColonFree(m) && ColonFree(s)
    ensures DurationOf(HoursClock(h, m, s)) == ShownBy(Some(Clock("0", h, m, s)))
  {
    hide ParseInt, Split, IndexByte, ShownBy;
    SplitThree(h, m, s);
    Limited(h + ":" + m, ':', s);
  }

  lemma MinutesClockShows(m: string, s: string)
    requires Free(m, '-') && ColonFree(m) && ColonFree(s)
    ensures DurationOf(MinutesClock(m, s)) == ShownBy(Some(Clock("0", "0", m, s)))
  {
    hide ParseInt, Split, IndexByte, ShownBy;
    SplitTwo(m, s);
    Limited(m, ':', s);
  }

  /** days-hours:minutes:seconds, as Slurm prints a number of seconds; any spelling of the four numbers will do. */
  predicate Spells(text: string, n: int) { ColonFree(text) && ParseInt(text) == Some(n) }

  predicate PrintsAs(total: nat, d: string, h: string, m: string, s: string) {
    && Free(d, '-')
    && Spells(d, total / 86400) && Spells(h, total / 3600 % 24) && Spells(m, total / 60 % 60) && Spells(s, total % 60)
  }

  /**
   Parsing undoes printing: the text gives the seconds back, as nanoseconds in 64 bits; that is the duration itself
   if and only if its nanoseconds fit.
   */
  lemma PrintedIsParsed(total: nat, d: string, h: string, m: string, s: string)
    requires PrintsAs(total, d, h, m, s)
    ensures DurationOf(DaysClock(d, h, m, s)) == Duration(Wrap64(total * SECOND))
    ensures DurationOf(DaysClock(d, h, m, s)) == Duration(total * SECOND) <==> IsInt64(total * SECOND)
  {
    hide ParseInt;
    DaysClockShows(d, h, m, s);
    DaysHoursMinutesSeconds(total);
  }

  lemma DaysHoursMinutesSeconds(total: nat)
    ensures 86400 * (total / 86400) + 3600 * (total / 3600 % 24) + 60 * (total / 60 % 60) + total % 60 == total
  {
    var minutes := total / 60;
    var hours := minutes / 60;
    assert hours == total / 3600 && hours / 24 == total / 86400;
  }

  /** Such texts exist: the plain decimal ones. */
  lemma PlainPrinting(total: nat)
    requires IsInt64(total)
    ensures PrintsAs(total, FormatInt(total / 86400), FormatInt(total / 3600 % 24), FormatInt(total / 60 % 60),
                     FormatInt(total % 60))
  {
    PlainSpelling(total / 86400);
    PlainSpelling(total / 3600 % 24);
    PlainSpelling(total / 60 % 60);
    PlainSpelling(total % 60);
  }

  lemma PlainSpelling(n: nat)
    requires IsInt64(n)
    ensures Spells(FormatInt(n), n) && Free(FormatInt(n), '-')
  {
    ParseOfFormat(n);
    FormatIsPlain(n);
  }

  /** Days are 24 hours: both formats give the same answer, also where 64 bits overflow and where a number is bad. */
  lemma DaysAsHours(d: string, h: string, hours: string, m: string, s: string)
    requires Free(d, '-') && Free(hours, '-')
    requires ColonFree(d) && ColonFree(h) && ColonFree(hours) && ColonFree(m) && ColonFree(s)
    requires ParseInt(d).Some? && ParseInt(h).Some?
    requires ParseInt(hours) == Some(24 * ParseInt(d).value + ParseInt(h).value)
    ensures DurationOf(DaysClock(d, h, m, s)) == DurationOf(HoursClock(hours, m, s))
  {
    hide ParseInt, Wrap64, DurationOf, DaysClock, HoursClock, SecondsOf;
    DaysClockShows(d, h, m, s);
    HoursClockShows(hours, m, s);
    SameSeconds(Clock(d, h, m, s), hours);
  }

  lemma SameSeconds(c: Clock, hours: string)
    requires ParseInt(c.days).Some? && ParseInt(c.hours).Some?
    requires ParseInt(hours) == Some(24 * ParseInt(c.days).value + ParseInt(c.hours).value)
    ensures SecondsOf(c) == SecondsOf(Clock("0", hours, c.minutes, c.seconds))
  {
    ZeroIsZero();
    hide ParseInt;
  }

  /** days-hours and days-hours:minutes, the short forms. */
  function DaysHours(d: string, h: string): string { d + "-" + h }

  function DaysHoursMinutes(d: string, h: string, m: string): string { d + "-" + h + ":" + m }

  lemma DaysHoursShows(d: string, h: string)
    requires Free(d, '-') && ColonFree(d) && ColonFree(h)
    ensures DurationOf(DaysHours(d, h)) == ShownBy(Some(Clock(d, h, "0", "0")))
  {
    hide ParseInt, Split, IndexByte, ShownBy;
    SplitOne(d + "-" + h);
    IndexByteAfter(d, '-', h);
    Limited(d, '-', h);
  }

  lemma DaysHoursMinutesShows(d: string, h: string, m: string)
    requires Free(d, '-') && ColonFree(d) && ColonFree(h) && ColonFree(m)
    ensures DurationOf(DaysHoursMinutes(d, h, m)) == ShownBy(Some(Clock(d, h, m, "0")))
  {
    hide ParseInt, Split, IndexByte, ShownBy;
    SplitTwo(d + "-" + h, m);
    IndexByteAfter(d, '-', h);
    assert DaysHoursMinutes(d, h, m) == d + "-" + (h + ":" + m);
    Limited(d, '-', h + ":" + m);
  }

  /** d-h is d-h:0:0, and d-h:m is d-h:m:0, also where a number is bad. */
  lemma ShortFormsAreLong(d: string, h: string, m: string)
    requires Free(d, '-') && ColonFree(d) && ColonFree(h) && ColonFree(m)
    ensures DurationOf(DaysHours(d, h)) == DurationOf(DaysClock(d, h, "0", "0"))
    ensures DurationOf(DaysHoursMinutes(d, h, m)) == DurationOf(DaysClock(d, h, m, "0"))
  {
    hide ParseInt, Split, IndexByte, ShownBy, DurationOf, DaysHours, DaysHoursMinutes, DaysClock;
    DaysHoursShows(d, h);
    DaysHoursMinutesShows(d, h, m);
    DaysClockShows(d, h, "0", "0");
    DaysClockShows(d, h, m, "0");
  }

  /** What numbers of days, hours, minutes and seconds are worth, and that every one of them has to be a number. */
  lemma ClockIsWorth(d: string, h: string, m: string, s: string)
    requires Free(d, '-') && ColonFree(d) && ColonFree(h) && ColonFree(m) && ColonFree(s)
    ensures DurationOf(DaysClock(d, h, m, s))
         == if ParseInt(d).None? || ParseInt(h).None? || ParseInt(m).None? || ParseInt(s).None? then Invalid
            else Duration(Wrap64(86_400_000_000_000 * ParseInt(d).value + 3_600_000_000_000 * ParseInt(h).value
                                 + 60_000_000_000 * ParseInt(m).value + 1_000_000_000 * ParseInt(s).value))
  {
    hide ParseInt, Wrap64, DurationOf, DaysClock;
    DaysClockShows(d, h, m, s);
  }

  /** The short forms in numbers: 1-12 is one day and twelve hours. */
  lemma ShortFormsAreWorth(d: string, h: string, m: string)
    requires Free(d, '-') && ColonFree(d) && ColonFree(h) && ColonFree(m)
    ensures DurationOf(DaysHours(d, h))
         == if ParseInt(d).None? || ParseInt(h).None? then Invalid
            else Duration(Wrap64((86400 * ParseInt(d).value + 3600 * ParseInt(h).value) * SECOND))
    ensures DurationOf(DaysHoursMinutes(d, h, m))
         == if ParseInt(d).None? || ParseInt(h).None? || ParseInt(m).None? then Invalid
            else Duration(Wrap64((86400 * ParseInt(d).value + 3600 * ParseInt(h).value + 60 * ParseInt(m).value)
                                 * SECOND))
  {
    ZeroIsZero();
    hide ParseInt, Wrap64, DurationOf, DaysHours, DaysHoursMinutes, DaysClock;
    ShortFormsAreLong(d, h, m);
    ClockIsWorth(d, h, "0", "0");
    ClockIsWorth(d, h, m, "0");
  }

  /** A clock has at most three parts, and no time at all is no limit. */
  lemma OtherTexts(a: string, b: string, c: string, rest: string)
    requires ColonFree(a) && ColonFree(b) && ColonFree(c)
    ensures DurationOf(a + ":" + b + ":" + c + ":" + rest) == Invalid
    ensures DurationOf("") == DurationOf("UNLIMITED") == Unlimited
  {
    hide IndexByte, ParseInt;
    var text := a + ":" + b + ":" + c + ":" + rest;
    assert text == a + ":" + (b + ":" + (c + ":" + rest));
    SplitCons(a, ':', b + ":" + (c + ":" + rest));
    assert b + ":" + (c + ":" + rest) == b + [':'] + (c + ":" + rest);
    SplitCons(b, ':', c + ":" + rest);
    SplitCons(c, ':', rest);
    Limited(a, ':', b + ":" + (c + ":" + rest));
  }

  /** m:s is 0:m:s. */
  lemma MinutesAsHours(m: string, s: string)
    requires Free(m, '-') && ColonFree(m) && ColonFree(s)
    ensures DurationOf(MinutesClock(m, s)) == DurationOf(HoursClock("0", m, s))
  {
    hide ParseInt, DurationOf, ShownBy, HoursClock, MinutesClock;
    MinutesClockShows(m, s);
    HoursClockShows("0", m, s);
  }

  /** m is m:0. */
  lemma MinutesAlone(m: string)
    requires Free(m, '-') && ColonFree(m) && m != "" && m != UNLIMITED
    ensures DurationOf(m) == DurationOf(MinutesClock(m, "0"))
  {
    SplitOne(m);
    MinutesClockShows(m, "0");
  }

  /** Zero minutes and seconds, the format the container script uses. */
  lemma SecondsAlone(s: string, n: int)
    requires Spells(s, n)
    ensures DurationOf(MinutesClock("0", s)) == Duration(Wrap64(n * SECOND))
  {
    MinutesClockShows("0", s);
    ZeroIsZero();
  }
}
