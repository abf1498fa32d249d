/** Time-of-day context of an event (Sources/ContextKit/Context/TimeContext.swift). */
module Time {
  import opened Wrappers
  import opened Json
  import Text

  datatype DayPeriod = Morning | Afternoon | Evening | Night

  /** The raw value each period is encoded with. */
  function PeriodName(p: DayPeriod): string {
    match p
    case Morning => "morning"
    case Afternoon => "afternoon"
    case Evening => "evening"
    case Night => "night"
  }

  function PeriodFromName(s: string): (r: Option<DayPeriod>)
    ensures r.Some? ==> PeriodName(r.value) == s
  {
    if s == "morning" then Some(Morning)
    else if s == "afternoon" then Some(Afternoon)
    else if s == "evening" then Some(Evening)
    else if s == "night" then Some(Night)
    else None
  }

  lemma PeriodNameRoundTrip(p: DayPeriod)
    ensures PeriodFromName(PeriodName(p)) == Some(p)
  {
  }

  /** `DayPeriod.from(hour:)`: total over every integer, the bins 5–11, 12–16 and 17–20, night otherwise. */
  function PeriodFromHour(hour: int): (p: DayPeriod)
    ensures p == Morning <==> 5 <= hour <= 11
    ensures p == Afternoon <==> 12 <= hour <= 16
    ensures p == Evening <==> 17 <= hour <= 20
    ensures p == Night <==> hour < 5 || hour > 20
  {
    if 5 <= hour <= 11 then Morning
    else if 12 <= hour <= 16 then Afternoon
    else if 17 <= hour <= 20 then Evening
    else Night
  }

  datatype TimeContext = TimeContext(
    hour: int,
    dayOfWeek: int,
    isWeekend: bool,
    timezone: string,
    localTime: string,
    dayPeriod: DayPeriod)

  /** Calendar weekday (Sunday = 1 … Saturday = 7) to the SDK's day of week (Monday = 1 … Sunday = 7). */
  function DayOfWeek(weekday: int): int {
    if weekday == 1 then 7 else weekday - 1
  }

  /** The inverse conversion, from the SDK's day of week back to the calendar weekday. */
  function CalendarWeekday(dayOfWeek: int): int {
    if dayOfWeek == 7 then 1 else dayOfWeek + 1
  }

  lemma DayOfWeekIsBijection(weekday: int)
    requires 1 <= weekday <= 7
    ensures 1 <= DayOfWeek(weekday) <= 7
    ensures CalendarWeekday(DayOfWeek(weekday)) == weekday
    ensures (weekday == 1 || weekday == 7) <==> (DayOfWeek(weekday) == 6 || DayOfWeek(weekday) == 7)
  {
  }

  lemma CalendarWeekdayIsBijection(dayOfWeek: int)
    requires 1 <= dayOfWeek <= 7
    ensures 1 <= CalendarWeekday(dayOfWeek) <= 7
    ensures DayOfWeek(CalendarWeekday(dayOfWeek)) == dayOfWeek
  {
  }

  type Hour = h: int | 0 <= h < 24
  type Minute = m: int | 0 <= m < 60

  /** What the "HH:mm" date formatter reads off the current time zone's clock. */
  datatype ClockReading = ClockReading(hour: Hour, minute: Minute)

  /** The "HH:mm" text of a clock reading: two digits, a colon, two digits. */
  function LocalTimeText(c: ClockReading): (s: string)
    ensures |s| == 5 && s[2] == ':'
    ensures forall i :: 0 <= i < 5 && i != 2 ==> Text.IsDigit(s[i])
  {
    Text.Pad2(c.hour) + ":" + Text.Pad2(c.minute)
  }

  /** Reads an "HH:mm" text back; fails unless it is two digits, one colon, two digits, in range. */
  function ParseLocalTime(s: string): (r: Option<ClockReading>)
    ensures r.Some? ==> LocalTimeText(r.value) == s
  {
    if |s| == 5 && s[2] == ':' && Text.IsDigit(s[0]) && Text.IsDigit(s[1])
       && Text.IsDigit(s[3]) && Text.IsDigit(s[4])
       && Text.Unpad2(s[..2]) < 24 && Text.Unpad2(s[3..]) < 60
    then
      var c := ClockReading(Text.Unpad2(s[..2]), Text.Unpad2(s[3..]));
      assert Text.Pad2(c.hour) == s[..2];
      assert Text.Pad2(c.minute) == s[3..];
      assert LocalTimeText(c) == s;
      Some(c)
    else None
  }

  /** The local time has exactly one colon, so it splits into two fields. */
  lemma {:induction false} LocalTimeRoundTrip(c: ClockReading)
    ensures ParseLocalTime(LocalTimeText(c)) == Some(c)
    ensures forall i :: 0 <= i < 5 && LocalTimeText(c)[i] == ':' ==> i == 2
  {
    var s := LocalTimeText(c);
    assert s[..2] == Text.Pad2(c.hour) && s[3..] == Text.Pad2(c.minute);
    Text.Pad2RoundTrip(c.hour);
    Text.Pad2RoundTrip(c.minute);
  }

  /**
   * `TimeContext.capture()` with the calendar's hour and weekday components (nil when the
   * calendar does not supply them), the time zone identifier and the formatter's clock reading.
   */
  function Capture(hour: Option<int>, weekday: Option<int>, timezone: string, clock: ClockReading): (t: TimeContext)
    ensures t.hour == hour.GetOr(0) && t.dayPeriod == PeriodFromHour(t.hour)
    ensures t.timezone == timezone && t.localTime == LocalTimeText(clock)
  {
    var h := hour.GetOr(0);
    var w := weekday.GetOr(1);
    TimeContext(h, DayOfWeek(w), w == 1 || w == 7, timezone, LocalTimeText(clock), PeriodFromHour(h))
  }

  /** With calendar values in range, the captured record is in range and its weekend flag agrees with its day of week. */
  lemma CaptureInRange(hour: Option<int>, weekday: Option<int>, timezone: string, clock: ClockReading)
    requires hour.Some? ==> 0 <= hour.value <= 23
    requires weekday.Some? ==> 1 <= weekday.value <= 7
    ensures var t := Capture(hour, weekday, timezone, clock);
      && 0 <= t.hour <= 23
      && 1 <= t.dayOfWeek <= 7
      && (t.isWeekend <==> t.dayOfWeek == 6 || t.dayOfWeek == 7)
      && CalendarWeekday(t.dayOfWeek) == weekday.GetOr(1)
  {
    DayOfWeekIsBijection(weekday.GetOr(1));
  }

  /** Missing calendar components read as hour 0 and Sunday. */
  lemma CaptureDefaults(timezone: string, clock: ClockReading)
    ensures var t := Capture(None, None, timezone, clock);
      t.hour == 0 && t.dayOfWeek == 7 && t.isWeekend && t.dayPeriod == Night
  {
  }

  /** `TimeContext.empty()`, the record used when time collection is disabled. */
  function Empty(): (t: TimeContext)
    ensures t.hour == 0 && t.dayOfWeek == 1 && !t.isWeekend && t.timezone == "unknown" && t.dayPeriod == Night
    ensures t.dayPeriod == PeriodFromHour(t.hour)
    ensures t.localTime == LocalTimeText(ClockReading(0, 0))
  {
    TimeContext(0, 1, false, "unknown", "00:00", Night)
  }

  // Coding keys: hour, day_of_week, is_weekend, timezone, local_time, day_period.

  function Encode(t: TimeContext): (j: Json)
    ensures j.JObject? && j.fields.Keys == {"hour", "day_of_week", "is_weekend", "timezone", "local_time", "day_period"}
  {
    JObject(map[
      "hour" := JNum(t.hour as real),
      "day_of_week" := JNum(t.dayOfWeek as real),
      "is_weekend" := JBool(t.isWeekend),
      "timezone" := JString(t.timezone),
      "local_time" := JString(t.localTime),
      "day_period" := JString(PeriodName(t.dayPeriod))])
  }

  function Decode(j: Json): Option<TimeContext> {
    var hour :- IntField(j, "hour");
    var dayOfWeek :- IntField(j, "day_of_week");
    var isWeekend :- BoolField(j, "is_weekend");
    var timezone :- StringField(j, "timezone");
    var localTime :- StringField(j, "local_time");
    var periodName :- StringField(j, "day_period");
    var period :- PeriodFromName(periodName);
    Some(TimeContext(hour, dayOfWeek, isWeekend, timezone, localTime, period))
  }

  lemma RoundTrip(t: TimeContext)
    ensures Decode(Encode(t)) == Some(t)
  {
    PeriodNameRoundTrip(t.dayPeriod);
  }
}
