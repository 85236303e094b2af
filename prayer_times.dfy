/**
 * PrayerTimesService: the six daily prayer times, the next prayer after a
 * given time of day, the countdown to it and the notification text.
 *
 * The two floating-point corrections of the schedule, (int)(sin(lat) * 30)
 * and (int)(sin(dayOfYear / 58.09) * 20), enter as already-truncated
 * integers; the clock enters as an explicit minute of the day.
 */
module PrayerTimes {

  datatype Option<T> = None | Some(value: T)

  /** (int)(sin(latitude in radians) * 30): truncation keeps it in [-30, 30]. */
  type LatOffset = x: int | -30 <= x <= 30

  /** (int)(sin(dayOfYear / 58.09) * 20): truncation keeps it in [-20, 20]. */
  type SeasonalOffset = x: int | -20 <= x <= 20

  /** A time of day in minutes since midnight. */
  type MinuteOfDay = x: int | 0 <= x < 1440

  /**
   * A location as the service sees it: its coordinates, and the latitude
   * correction the floating-point formula yields for them.
   */
  datatype Location = Location(latitude: real, longitude: real, latOffset: LatOffset)

  datatype PrayerTime = PrayerTime(name: string, time: string, emoji: string)

  // ---------------------------------------------------------------------
  // Java integer division and remainder (truncating toward zero)
  // ---------------------------------------------------------------------

  function JavaDiv(a: int, b: int): (q: int)
    requires b > 0
    ensures a >= 0 ==> q == a / b
    ensures a < 0 ==> q == -((-a) / b)
  {
    if a >= 0 then a / b else -((-a) / b)
  }

  function JavaRem(a: int, b: int): (r: int)
    requires b > 0
    ensures a == JavaDiv(a, b) * b + r
    ensures a >= 0 ==> r == a % b
    ensures a < 0 ==> -b < r <= 0
  {
    a - JavaDiv(a, b) * b
  }

  // ---------------------------------------------------------------------
  // "%02d:%02d" formatting and "HH:mm" parsing
  // ---------------------------------------------------------------------

  function Digit(d: int): (c: char)
    requires 0 <= d <= 9
    ensures '0' <= c <= '9' && c as int - '0' as int == d
  {
    ('0' as int + d) as char
  }

  predicate IsDigit(c: char)
  {
    '0' <= c <= '9'
  }

  function DigitValue(c: char): (d: int)
    requires IsDigit(c)
    ensures 0 <= d <= 9 && Digit(d) == c
  {
    c as int - '0' as int
  }

  /** "%02d" on a value below 100: two digits, zero-padded. */
  function Pad2(n: nat): string
    requires n < 100
  {
    [Digit(n / 10), Digit(n % 10)]
  }

  /** String.format("%02d:%02d", hour, minute): two digits, a colon, two digits. */
  function FormatClock(hour: nat, minute: nat): (r: string)
    requires hour < 100 && minute < 100
    ensures |r| == 5 && r[2] == ':' && IsDigit(r[0]) && IsDigit(r[1]) && IsDigit(r[3]) && IsDigit(r[4])
  {
    Pad2(hour) + ":" + Pad2(minute)
  }

  /** An hour and minute of a day format to a text that parses back to them. */
  lemma FormatClockParses(hour: nat, minute: nat)
    requires hour < 24 && minute < 60
    ensures ParseClock(FormatClock(hour, minute)) == Some(hour * 60 + minute)
  {
    var r := FormatClock(hour, minute);
    assert DigitValue(r[0]) * 10 + DigitValue(r[1]) == hour;
    assert DigitValue(r[3]) * 10 + DigitValue(r[4]) == minute;
  }

  /** The "HH:MM" text of a minute of the day. */
  function Clock(x: MinuteOfDay): (s: string)
    ensures |s| == 5 && s[2] == ':'
  {
    [Digit(x / 60 / 10), Digit(x / 60 % 10), ':', Digit(x % 60 / 10), Digit(x % 60 % 10)]
  }

  /** "%02d:%02d" of the hour and minute of a time of day is its clock text. */
  lemma FormatClockIsClock(x: MinuteOfDay)
    ensures FormatClock(x / 60, x % 60) == Clock(x)
  {
  }

  /** A well-formed "HH:mm" text is the clock text of the time its fields give. */
  lemma ClockOfFields(s: string, hour: nat, minute: nat)
    requires |s| == 5 && IsDigit(s[0]) && IsDigit(s[1]) && s[2] == ':' && IsDigit(s[3]) && IsDigit(s[4])
    requires hour == DigitValue(s[0]) * 10 + DigitValue(s[1]) && minute == DigitValue(s[3]) * 10 + DigitValue(s[4])
    requires hour < 24 && minute < 60
    ensures Clock(hour * 60 + minute) == s
  {
    assert (hour * 60 + minute) / 60 == hour && (hour * 60 + minute) % 60 == minute;
    assert hour / 10 == DigitValue(s[0]) && hour % 10 == DigitValue(s[1]);
    assert minute / 10 == DigitValue(s[3]) && minute % 10 == DigitValue(s[4]);
  }

  /**
   * SimpleDateFormat("HH:mm").parse on two-digit fields, in minutes since
   * midnight; None stands for the ParseException.
   */
  function ParseClock(s: string): (r: Option<MinuteOfDay>)
    ensures r.Some? ==> Clock(r.value) == s
  {
    if |s| == 5 && IsDigit(s[0]) && IsDigit(s[1]) && s[2] == ':' && IsDigit(s[3]) && IsDigit(s[4]) then
      var hour := DigitValue(s[0]) * 10 + DigitValue(s[1]);
      var minute := DigitValue(s[3]) * 10 + DigitValue(s[4]);
      if hour < 24 && minute < 60 then
        ClockOfFields(s, hour, minute);
        Some(hour * 60 + minute)
      else None
    else
      None
  }

  /** Parsing a formatted time of day gives it back. */
  lemma ParseClockInverse(x: MinuteOfDay)
    ensures ParseClock(Clock(x)) == Some(x)
  {
    var s := Clock(x);
    assert DigitValue(s[0]) == x / 60 / 10 && DigitValue(s[1]) == x / 60 % 10;
    assert DigitValue(s[3]) == x % 60 / 10 && DigitValue(s[4]) == x % 60 % 10;
  }

  // ---------------------------------------------------------------------
  // String.compareTo
  // ---------------------------------------------------------------------

  /** a.compareTo(b) < 0: lexicographic order on characters, a proper prefix first. */
  predicate StrLess(a: string, b: string)
  {
    if a == [] then b != []
    else if b == [] then false
    else if a[0] != b[0] then a[0] < b[0]
    else StrLess(a[1..], b[1..])
  }

  lemma {:induction false} StrLessIrreflexive(a: string)
    ensures !StrLess(a, a)
  {
    if a != [] {
      StrLessIrreflexive(a[1..]);
    }
  }

  /** A common prefix does not affect the comparison. */
  lemma {:induction false} StrLessCommonPrefix(p: string, s: string, t: string)
    ensures StrLess(p + s, p + t) == StrLess(s, t)
  {
    if p == [] {
      assert p + s == s && p + t == t;
    } else {
      assert (p + s)[0] == p[0] == (p + t)[0];
      assert (p + s)[1..] == p[1..] + s;
      assert (p + t)[1..] == p[1..] + t;
      StrLessCommonPrefix(p[1..], s, t);
    }
  }

  /** After a common prefix, the first differing character decides. */
  lemma StrLessFirstDifference(p: string, x: char, y: char, s: string, t: string)
    requires x != y
    ensures StrLess(p + [x] + s, p + [y] + t) == (x < y)
  {
    assert p + [x] + s == p + ([x] + s);
    assert p + [y] + t == p + ([y] + t);
    StrLessCommonPrefix(p, [x] + s, [y] + t);
  }

  lemma TwoDigitOrder(a: int, b: int)
    requires 0 <= a < 100 && 0 <= b < 100
    ensures a < b <==> a / 10 < b / 10 || (a / 10 == b / 10 && a % 10 < b % 10)
    ensures a == b <==> a / 10 == b / 10 && a % 10 == b % 10
  {
  }

  /**
   * Zero-padded "HH:MM" texts compare as strings exactly as their minutes
   * compare as numbers: the string comparison of getNextPrayer is a time
   * comparison.
   */
  lemma ClockOrder(a: MinuteOfDay, b: MinuteOfDay)
    ensures StrLess(Clock(a), Clock(b)) <==> a < b
  {
    var s, t := Clock(a), Clock(b);
    var ha, hb, ma, mb := a / 60, b / 60, a % 60, b % 60;
    TwoDigitOrder(ha, hb);
    TwoDigitOrder(ma, mb);
    assert a < b <==> ha < hb || (ha == hb && ma < mb);
    if s[0] != t[0] {
      StrLessFirstDifference([], s[0], t[0], s[1..], t[1..]);
      assert s == [] + [s[0]] + s[1..] && t == [] + [t[0]] + t[1..];
    } else if s[1] != t[1] {
      StrLessFirstDifference(s[..1], s[1], t[1], s[2..], t[2..]);
      assert s == s[..1] + [s[1]] + s[2..] && t == s[..1] + [t[1]] + t[2..];
    } else if s[3] != t[3] {
      StrLessFirstDifference(s[..3], s[3], t[3], s[4..], t[4..]);
      assert s == s[..3] + [s[3]] + s[4..] && t == s[..3] + [t[3]] + t[4..];
    } else if s[4] != t[4] {
      StrLessFirstDifference(s[..4], s[4], t[4], [], []);
      assert s == s[..4] + [s[4]] + [] && t == s[..4] + [t[4]] + [];
    } else {
      assert s == t;
      StrLessIrreflexive(s);
    }
  }

  // ---------------------------------------------------------------------
  // The schedule
  // ---------------------------------------------------------------------

  const PrayerNames: seq<string> := ["Fajr", "Sunrise", "Dhuhr", "Asr", "Maghrib", "Isha"]

  /** The base hour and minute of each prayer, in the order of the puts. */
  const BaseHours: seq<int> := [5, 6, 12, 15, 18, 19]
  const BaseMins: seq<int> := [30, 45, 15, 45, 20, 45]

  /** getPrayerEmoji: one emoji per prayer, the mosque for any other name. */
  function PrayerEmoji(name: string): string
  {
    match name
    case "Fajr" => "🌅"
    case "Dhuhr" => "☀️"
    case "Asr" => "⛅"
    case "Maghrib" => "🌇"
    case "Isha" => "🌙"
    case "Sunrise" => "🌄"
    case _ => "🕌"
  }

  /** Only a name outside the six prayers gets the mosque emoji. */
  lemma MosqueEmojiIff(name: string)
    ensures PrayerEmoji(name) == "🕌" <==> name !in PrayerNames
  {
  }

  /**
   * calculatePrayerTime: the base time shifted by both corrections, split
   * with Java's truncating division into an hour (modulo 24) and a minute,
   * and formatted.
   */
  function CalculatePrayerTime(name: string, baseHour: int, baseMinute: int,
                               latOffset: LatOffset, seasonal: SeasonalOffset): (p: PrayerTime)
    requires 0 <= baseHour * 60 + baseMinute + latOffset + seasonal
    ensures p.name == name && p.emoji == PrayerEmoji(name)
  {
    var totalMinutes := baseHour * 60 + baseMinute + latOffset + seasonal;
    var hour := JavaRem(JavaDiv(totalMinutes, 60), 24);
    var minute := JavaRem(totalMinutes, 60);
    PrayerTime(name, FormatClock(hour, minute), PrayerEmoji(name))
  }

  /** Hour and minute of a total, taken modulo one day. */
  lemma DayWrap(t: int)
    requires t >= 0
    ensures t / 60 % 24 == t % 1440 / 60 && t % 60 == t % 1440 % 60
  {
    var q, r := t / 1440, t % 1440;
    assert t == 60 * (24 * q + r / 60) + r % 60;
  }

  /**
   * For a non-negative total, the computed time is the clock text of the
   * total taken modulo one day.
   */
  lemma PrayerTimeText(name: string, baseHour: int, baseMinute: int,
                       latOffset: LatOffset, seasonal: SeasonalOffset)
    requires 0 <= baseHour * 60 + baseMinute + latOffset + seasonal
    ensures CalculatePrayerTime(name, baseHour, baseMinute, latOffset, seasonal).time
      == Clock((baseHour * 60 + baseMinute + latOffset + seasonal) % 1440)
  {
    var totalMinutes := baseHour * 60 + baseMinute + latOffset + seasonal;
    DayWrap(totalMinutes);
    FormatClockIsClock(totalMinutes % 1440);
  }

  /** The minute totals of the six entries after both corrections. */
  function ShiftedTotals(latOffset: LatOffset, seasonal: SeasonalOffset): (totals: seq<MinuteOfDay>)
    ensures |totals| == 6
    ensures forall i :: 0 <= i < 6 ==> 280 <= totals[i] <= 1235
  {
    seq(6, i requires 0 <= i < 6 => BaseHours[i] * 60 + BaseMins[i] + latOffset + seasonal)
  }

  /** calculatePrayerTimes with a location: the six puts, in order. */
  function Schedule(latOffset: LatOffset, seasonal: SeasonalOffset): (times: seq<PrayerTime>)
    ensures |times| == 6
  {
    seq(6, i requires 0 <= i < 6 => CalculatePrayerTime(PrayerNames[i], BaseHours[i], BaseMins[i], latOffset, seasonal))
  }

  /** The schedule written out entry by entry, in the order of the puts. */
  lemma ScheduleEntries(latOffset: LatOffset, seasonal: SeasonalOffset)
    ensures Schedule(latOffset, seasonal) == [
      CalculatePrayerTime("Fajr", 5, 30, latOffset, seasonal),
      CalculatePrayerTime("Sunrise", 6, 45, latOffset, seasonal),
      CalculatePrayerTime("Dhuhr", 12, 15, latOffset, seasonal),
      CalculatePrayerTime("Asr", 15, 45, latOffset, seasonal),
      CalculatePrayerTime("Maghrib", 18, 20, latOffset, seasonal),
      CalculatePrayerTime("Isha", 19, 45, latOffset, seasonal)]
  {
  }

  /** getDemoPrayerTimes: the fixed table used without a location. */
  function DemoSchedule(): seq<PrayerTime>
  {
    [ PrayerTime("Fajr", "05:30", "🌅"),
      PrayerTime("Sunrise", "06:45", "🌄"),
      PrayerTime("Dhuhr", "12:15", "☀️"),
      PrayerTime("Asr", "15:45", "⛅"),
      PrayerTime("Maghrib", "18:20", "🌇"),
      PrayerTime("Isha", "19:45", "🌙") ]
  }

  /** calculatePrayerTimes: the demo table without a location. */
  function ScheduleFor(location: Option<Location>, seasonal: SeasonalOffset): seq<PrayerTime>
  {
    match location
    case None => DemoSchedule()
    case Some(loc) => Schedule(loc.latOffset, seasonal)
  }

  /** The minute totals behind ScheduleFor. */
  function TotalsFor(location: Option<Location>, seasonal: SeasonalOffset): seq<MinuteOfDay>
  {
    match location
    case None => ShiftedTotals(0, 0)
    case Some(loc) => ShiftedTotals(loc.latOffset, seasonal)
  }

  /**
   * What every schedule is: six entries named Fajr .. Isha in that order,
   * whose times are the "HH:MM" texts of strictly ascending minute totals.
   */
  ghost predicate IsScheduleOf(times: seq<PrayerTime>, totals: seq<MinuteOfDay>)
  {
    && |times| == 6 && |totals| == 6
    && (forall i :: 0 <= i < 6 ==> times[i].name == PrayerNames[i])
    && (forall i :: 0 <= i < 6 ==> times[i].time == Clock(totals[i]))
    && (forall i, j :: 0 <= i < j < 6 ==> totals[i] < totals[j])
  }

  /**
   * The times of a schedule parse back to their totals and are strictly
   * ascending as strings: the order the string comparison sees is the
   * order of the day.
   */
  lemma ScheduleTimesAscend(times: seq<PrayerTime>, totals: seq<MinuteOfDay>)
    requires IsScheduleOf(times, totals)
    ensures forall i :: 0 <= i < 6 ==> ParseClock(times[i].time) == Some(totals[i])
    ensures forall i, j :: 0 <= i < j < 6 ==> StrLess(times[i].time, times[j].time)
  {
    forall i | 0 <= i < 6 ensures ParseClock(times[i].time) == Some(totals[i]) {
      ParseClockInverse(totals[i]);
    }
    forall i, j | 0 <= i < j < 6 ensures StrLess(times[i].time, times[j].time) {
      ClockOrder(totals[i], totals[j]);
    }
  }

  /** The i-th computed entry: its name, and the clock text of its shifted total. */
  lemma ScheduleEntry(i: nat, latOffset: LatOffset, seasonal: SeasonalOffset)
    requires i < 6
    ensures Schedule(latOffset, seasonal)[i].name == PrayerNames[i]
    ensures Schedule(latOffset, seasonal)[i].time == Clock(ShiftedTotals(latOffset, seasonal)[i])
  {
    var t := BaseHours[i] * 60 + BaseMins[i] + latOffset + seasonal;
    assert 280 <= t <= 1235 && t % 1440 == t;
    assert ShiftedTotals(latOffset, seasonal)[i] == t;
    assert Schedule(latOffset, seasonal)[i] == CalculatePrayerTime(PrayerNames[i], BaseHours[i], BaseMins[i], latOffset, seasonal);
    PrayerTimeText(PrayerNames[i], BaseHours[i], BaseMins[i], latOffset, seasonal);
  }

  /** The shifted totals keep the order of the base times. */
  lemma ShiftedTotalsAscend(latOffset: LatOffset, seasonal: SeasonalOffset)
    ensures forall i, j :: 0 <= i < j < 6 ==> ShiftedTotals(latOffset, seasonal)[i] < ShiftedTotals(latOffset, seasonal)[j]
  {
  }

  /**
   * A computed schedule is a schedule: the same two corrections shift every
   * base time, so every total stays within the day and the order is kept.
   */
  lemma ScheduleIsSchedule(latOffset: LatOffset, seasonal: SeasonalOffset)
    ensures IsScheduleOf(Schedule(latOffset, seasonal), ShiftedTotals(latOffset, seasonal))
  {
    forall i | 0 <= i < 6
      ensures Schedule(latOffset, seasonal)[i].name == PrayerNames[i]
      ensures Schedule(latOffset, seasonal)[i].time == Clock(ShiftedTotals(latOffset, seasonal)[i])
    {
      ScheduleEntry(i, latOffset, seasonal);
    }
    ShiftedTotalsAscend(latOffset, seasonal);
  }

  /** Without corrections the totals are the base times themselves. */
  lemma UncorrectedTotals()
    ensures ShiftedTotals(0, 0) == [330, 405, 735, 945, 1100, 1185]
  {
  }

  /** The clock texts of the six base times. */
  lemma BaseClocks()
    ensures Clock(330) == "05:30" && Clock(405) == "06:45" && Clock(735) == "12:15"
    ensures Clock(945) == "15:45" && Clock(1100) == "18:20" && Clock(1185) == "19:45"
  {
  }

  /** The demo table is a schedule, over the uncorrected totals. */
  lemma DemoIsSchedule()
    ensures IsScheduleOf(DemoSchedule(), ShiftedTotals(0, 0))
  {
    UncorrectedTotals();
    BaseClocks();
  }

  lemma UncorrectedEmojis()
    ensures forall i :: 0 <= i < 6 ==> Schedule(0, 0)[i].emoji == DemoSchedule()[i].emoji
  {
    forall i | 0 <= i < 6
      ensures Schedule(0, 0)[i].emoji == PrayerEmoji(PrayerNames[i])
    {
      assert Schedule(0, 0)[i] == CalculatePrayerTime(PrayerNames[i], BaseHours[i], BaseMins[i], 0, 0);
    }
  }

  /** The demo table is the schedule with both corrections zero. */
  lemma DemoIsUncorrectedSchedule()
    ensures DemoSchedule() == Schedule(0, 0)
  {
    UncorrectedEmojis();
    DemoIsSchedule();
    ScheduleIsSchedule(0, 0);
    assert forall i :: 0 <= i < 6 ==> Schedule(0, 0)[i] == DemoSchedule()[i];
  }

  /** Both paths of calculatePrayerTimes give a schedule. */
  lemma ScheduleForIsSchedule(location: Option<Location>, seasonal: SeasonalOffset)
    ensures IsScheduleOf(ScheduleFor(location, seasonal), TotalsFor(location, seasonal))
  {
    match location
    case None =>
      DemoIsSchedule();
    case Some(loc) =>
      ScheduleIsSchedule(loc.latOffset, seasonal);
  }

  // ---------------------------------------------------------------------
  // The next prayer and the countdown
  // ---------------------------------------------------------------------

  /** prayer.getTime().compareTo(currentTime) > 0 */
  predicate IsLater(p: PrayerTime, nowText: string)
  {
    StrLess(nowText, p.time)
  }

  /** The index of the first entry later than now, if any. */
  function FirstLater(times: seq<PrayerTime>, nowText: string): (r: Option<nat>)
    ensures r.Some? ==> r.value < |times| && IsLater(times[r.value], nowText)
    ensures r.Some? ==> forall j :: 0 <= j < r.value ==> !IsLater(times[j], nowText)
    ensures r.None? ==> forall j :: 0 <= j < |times| ==> !IsLater(times[j], nowText)
  {
    if times == [] then None
    else if IsLater(times[0], nowText) then Some(0)
    else match FirstLater(times[1..], nowText)
      case None => None
      case Some(k) => Some(k + 1)
  }

  /** LinkedHashMap.get by key: the entry stored under that name, if any. */
  function Get(times: seq<PrayerTime>, name: string): (r: Option<PrayerTime>)
    ensures r.Some? ==> r.value in times && r.value.name == name
    ensures r.None? ==> forall p :: p in times ==> p.name != name
  {
    if times == [] then None
    else if times[0].name == name then Some(times[0])
    else Get(times[1..], name)
  }

  /** getNextPrayer: the first later entry, else the entry stored under "Fajr". */
  function NextPrayer(times: seq<PrayerTime>, nowText: string): (r: Option<PrayerTime>)
    ensures r.Some? ==> r.value in times && (IsLater(r.value, nowText) || r.value.name == "Fajr")
    ensures r.None? <==> forall p :: p in times ==> !IsLater(p, nowText) && p.name != "Fajr"
  {
    match FirstLater(times, nowText)
    case Some(i) => Some(times[i])
    case None => Get(times, "Fajr")
  }

  /** Which entry of a schedule comes next after minute `now`, on minutes alone. */
  ghost predicate IsNextIndex(totals: seq<MinuteOfDay>, now: MinuteOfDay, i: int)
    requires |totals| == 6
  {
    0 <= i < 6 &&
    ((totals[i] > now && forall j :: 0 <= j < i ==> totals[j] <= now) ||
     (i == 0 && forall j :: 0 <= j < 6 ==> totals[j] <= now))
  }

  /**
   * On a schedule, the next prayer is the first entry strictly later than
   * now (an entry at exactly now is skipped), and Fajr when none is later.
   */
  lemma NextPrayerOfSchedule(times: seq<PrayerTime>, totals: seq<MinuteOfDay>, now: MinuteOfDay)
    requires IsScheduleOf(times, totals)
    ensures NextPrayer(times, Clock(now)).Some?
    ensures exists i :: IsNextIndex(totals, now, i) && NextPrayer(times, Clock(now)).value == times[i]
  {
    var nowText := Clock(now);
    forall j | 0 <= j < 6 ensures IsLater(times[j], nowText) <==> totals[j] > now {
      ClockOrder(now, totals[j]);
    }
    match FirstLater(times, nowText)
    case Some(i) =>
      assert IsNextIndex(totals, now, i);
    case None =>
      assert times[0].name == "Fajr";
      assert Get(times, "Fajr") == Some(times[0]);
      assert IsNextIndex(totals, now, 0);
  }

  /**
   * The forward distance in minutes from `now` to `t` on a 24-hour dial:
   * the difference, plus one day when it is negative.
   */
  function ForwardMinutes(now: MinuteOfDay, t: MinuteOfDay): (d: int)
    ensures 0 <= d < 1440 && (now + d) % 1440 == t
  {
    if t - now < 0 then t - now + 1440 else t - now
  }

  /**
   * getTimeUntilNextPrayer for a given target: the difference of the parsed
   * times, one day added when negative, as "%02d:%02d"; "00:00" when the
   * target does not parse. The text parses back to the forward distance.
   */
  function Countdown(targetTime: string, now: MinuteOfDay): (r: string)
    ensures ParseClock(targetTime).None? ==> r == "00:00"
    ensures ParseClock(targetTime).Some? ==>
      ParseClock(r) == Some(ForwardMinutes(now, ParseClock(targetTime).value))
  {
    match ParseClock(targetTime)
    case None => "00:00"
    case Some(t) =>
      var diff := if t - now < 0 then t - now + 1440 else t - now;
      FormatClockIsClock(diff);
      ParseClockInverse(diff);
      FormatClock(diff / 60, diff % 60)
  }

  /**
   * The countdown to the next prayer of a schedule is strictly positive and
   * under a day: equal times are skipped, and after the last prayer the
   * first one is strictly earlier than now.
   */
  lemma CountdownToNextIsPositive(times: seq<PrayerTime>, totals: seq<MinuteOfDay>, now: MinuteOfDay)
    requires IsScheduleOf(times, totals)
    ensures NextPrayer(times, Clock(now)).Some?
    ensures var d := ParseClock(Countdown(NextPrayer(times, Clock(now)).value.time, now));
      d.Some? && 0 < d.value < 1440
  {
    NextPrayerOfSchedule(times, totals, now);
    var i :| IsNextIndex(totals, now, i) && NextPrayer(times, Clock(now)).value == times[i];
    ParseClockInverse(totals[i]);
    if totals[i] <= now {
      assert totals[0] < totals[5] <= now;
    }
  }

  // ---------------------------------------------------------------------
  // Notification text
  // ---------------------------------------------------------------------

  /** One line of getPrayerNotifications, marked when it is the next prayer. */
  function NotificationLine(p: PrayerTime, nextName: string): string
  {
    p.emoji + " **" + p.name + ":** " + p.time + (if p.name == nextName then " ⏰ (Prochaine)" else "") + "\n"
  }

  function NotificationLines(times: seq<PrayerTime>, nextName: string): string
  {
    if times == [] then "" else NotificationLines(times[..|times| - 1], nextName) + NotificationLine(times[|times| - 1], nextName)
  }

  lemma NotificationLinesSnoc(times: seq<PrayerTime>, i: nat, nextName: string)
    requires i < |times|
    ensures NotificationLines(times[..i + 1], nextName) == NotificationLines(times[..i], nextName) + NotificationLine(times[i], nextName)
  {
    assert times[..i + 1][..i] == times[..i];
  }

  /** The loop of getPrayerNotifications: one line appended per entry, in map order. */
  method AppendPrayerLines(start: string, times: seq<PrayerTime>, nextName: string) returns (text: string)
    ensures text == start + NotificationLines(times, nextName)
  {
    text := start;
    var i := 0;
    while i < |times|
      invariant 0 <= i <= |times|
      invariant text == start + NotificationLines(times[..i], nextName)
    {
      NotificationLinesSnoc(times, i, nextName);
      text := text + NotificationLine(times[i], nextName);
      i := i + 1;
    }
    assert times[..i] == times;
  }

  const NotificationHeader: string := "🕌 **Vos Horaires de Prière**\n\n"

  /** The closing location line: the formatted coordinates, or the demo marker. */
  function LocationLine(location: Option<Location>, coordinatesText: string): string
  {
    if location.Some? then "\n📍 **Position:** " + coordinatesText else "\n📍 **Mode:** Démonstration"
  }

  /** The six prayer names are pairwise distinct. */
  lemma NamesDistinct()
    ensures forall i, j :: 0 <= i < 6 && 0 <= j < 6 && i != j ==> PrayerNames[i] != PrayerNames[j]
  {
  }

  /**
   * Exactly one line of a schedule's notification carries the "next" mark,
   * the next prayer's own: the six names are distinct.
   */
  lemma ExactlyOneMarkedLine(times: seq<PrayerTime>, totals: seq<MinuteOfDay>, now: MinuteOfDay)
    requires IsScheduleOf(times, totals)
    ensures NextPrayer(times, Clock(now)).Some?
    ensures var next := NextPrayer(times, Clock(now)).value;
      exists i :: 0 <= i < 6 && times[i] == next &&
        forall j :: 0 <= j < 6 && j != i ==> times[j].name != next.name
  {
    NextPrayerOfSchedule(times, totals, now);
    var i :| IsNextIndex(totals, now, i) && NextPrayer(times, Clock(now)).value == times[i];
    NamesDistinct();
    assert forall j :: 0 <= j < 6 && j != i ==> times[j].name != times[i].name;
  }

  // ---------------------------------------------------------------------
  // The service object
  // ---------------------------------------------------------------------

  class PrayerTimesService {
    var currentLocation: Option<Location>

    constructor ()
      ensures currentLocation == None
    {
      currentLocation := None;
    }

    method SetLocation(location: Location)
      modifies this
      ensures currentLocation == Some(location)
    {
      currentLocation := Some(location);
    }

    /** getDemoPrayerTimes: six puts into an insertion-ordered map. */
    method GetDemoPrayerTimes() returns (times: seq<PrayerTime>)
      ensures times == DemoSchedule()
    {
      times := [];
      times := times + [PrayerTime("Fajr", "05:30", "🌅")];
      times := times + [PrayerTime("Sunrise", "06:45", "🌄")];
      times := times + [PrayerTime("Dhuhr", "12:15", "☀️")];
      times := times + [PrayerTime("Asr", "15:45", "⛅")];
      times := times + [PrayerTime("Maghrib", "18:20", "🌇")];
      times := times + [PrayerTime("Isha", "19:45", "🌙")];
    }

    /**
     * calculatePrayerTimes for the day whose seasonal correction is given:
     * the demo table without a location, else the six computed entries.
     */
    method CalculatePrayerTimes(seasonal: SeasonalOffset) returns (times: seq<PrayerTime>)
      ensures times == ScheduleFor(currentLocation, seasonal)
    {
      if currentLocation == None {
        times := GetDemoPrayerTimes();
        return;
      }
      var lat := currentLocation.value.latOffset;
      times := [];
      times := times + [CalculatePrayerTime("Fajr", 5, 30, lat, seasonal)];
      times := times + [CalculatePrayerTime("Sunrise", 6, 45, lat, seasonal)];
      times := times + [CalculatePrayerTime("Dhuhr", 12, 15, lat, seasonal)];
      times := times + [CalculatePrayerTime("Asr", 15, 45, lat, seasonal)];
      times := times + [CalculatePrayerTime("Maghrib", 18, 20, lat, seasonal)];
      times := times + [CalculatePrayerTime("Isha", 19, 45, lat, seasonal)];
      ScheduleEntries(lat, seasonal);
    }

    /**
     * getNextPrayer with the clock read once: the first entry whose time
     * text is greater than now's, else the Fajr entry.
     */
    method GetNextPrayer(seasonal: SeasonalOffset, now: MinuteOfDay) returns (next: PrayerTime)
      ensures Some(next) == NextPrayer(ScheduleFor(currentLocation, seasonal), Clock(now))
      ensures next in ScheduleFor(currentLocation, seasonal)
    {
      var times := CalculatePrayerTimes(seasonal);
      var currentTime := Clock(now);
      var i := 0;
      while i < |times|
        invariant 0 <= i <= |times|
        invariant forall j :: 0 <= j < i ==> !IsLater(times[j], currentTime)
      {
        if StrLess(currentTime, times[i].time) {
          assert FirstLater(times, currentTime) == Some(i) by {
            var f := FirstLater(times, currentTime);
            assert f.Some? && f.value <= i;
            assert !(f.value < i);
          }
          return times[i];
        }
        i := i + 1;
      }
      assert times[0].name == "Fajr";
      next := times[0];
      assert Get(times, "Fajr") == Some(times[0]);
    }

    /** getTimeUntilNextPrayer, for the same clock reading. */
    method GetTimeUntilNextPrayer(seasonal: SeasonalOffset, now: MinuteOfDay) returns (countdown: string)
      ensures var next := NextPrayer(ScheduleFor(currentLocation, seasonal), Clock(now));
        next.Some? && countdown == Countdown(next.value.time, now)
      ensures ParseClock(countdown).Some? && 0 < ParseClock(countdown).value < 1440
    {
      var next := GetNextPrayer(seasonal, now);
      countdown := Countdown(next.time, now);
      ScheduleForIsSchedule(currentLocation, seasonal);
      CountdownToNextIsPositive(ScheduleFor(currentLocation, seasonal), TotalsFor(currentLocation, seasonal), now);
    }

    /**
     * getPrayerNotifications: the header, one line per prayer (the next one
     * marked), the next prayer with its countdown, and the location line.
     * The coordinates text ("%.2f, %.2f") is formatted outside the model.
     */
    method GetPrayerNotifications(seasonal: SeasonalOffset, now: MinuteOfDay, coordinatesText: string)
      returns (text: string)
      ensures var times := ScheduleFor(currentLocation, seasonal);
        var next := NextPrayer(times, Clock(now));
        next.Some? &&
        text == NotificationHeader + NotificationLines(times, next.value.name)
          + "\n⏱️ **Prochaine prière:** " + next.value.name + " dans " + Countdown(next.value.time, now)
          + LocationLine(currentLocation, coordinatesText)
    {
      var times := CalculatePrayerTimes(seasonal);
      var next := GetNextPrayer(seasonal, now);
      var timeUntil := GetTimeUntilNextPrayer(seasonal, now);
      text := AppendPrayerLines(NotificationHeader, times, next.name);
      text := text + "\n⏱️ **Prochaine prière:** " + next.name + " dans " + timeUntil;
      if currentLocation.Some? {
        text := text + "\n📍 **Position:** " + coordinatesText;
      } else {
        text := text + "\n📍 **Mode:** Démonstration";
      }
    }

    /**
     * calculateQiblaDirection: 0.0 without a location; otherwise the
     * great-circle bearing, computed in floating point outside the model.
     */
    function CalculateQiblaDirection(greatCircleBearing: (real, real) -> real): (direction: real)
      reads this
      ensures currentLocation.None? ==> direction == 0.0
      ensures currentLocation.Some? ==>
        direction == greatCircleBearing(currentLocation.value.latitude, currentLocation.value.longitude)
    {
      match currentLocation
      case None => 0.0
      case Some(loc) => greatCircleBearing(loc.latitude, loc.longitude)
    }
  }
}
