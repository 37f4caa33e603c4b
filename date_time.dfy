/** The date helpers of `utils/dateTime.ts`: the reservation time-slot generator,
    relative-time labels, minute and day arithmetic and the same-day test. Instants
    are integer milliseconds; the calendar day of an instant depends on the time-zone
    offset in milliseconds, which is a parameter. */
module DateTime {

  import opened Text
  import RelativeTime

  /** A clock time inside a day. */
  datatype Time = Time(hour: int, minute: int)

  /** Minutes since midnight, the order of times of day. */
  function MinuteOfDay(t: Time): int
  {
    t.hour * 60 + t.minute
  }

  /** The times the inner loop of `getTimeSlots` still adds for `hour` when it is at
      `minute`: it stops at 60, and in the last hour right after minute 0. */
  function HourRest(hour: int, minute: int, endHour: int, interval: int): seq<Time>
    requires interval > 0
    decreases 60 - minute
  {
    if minute >= 60 || (hour == endHour && minute > 0) then []
    else [Time(hour, minute)] + HourRest(hour, minute + interval, endHour, interval)
  }

  /** The times the outer loop still adds once it has reached `hour`. */
  function SlotsFrom(hour: int, endHour: int, interval: int): seq<Time>
    requires interval > 0
    decreases endHour - hour + 1
  {
    if hour > endHour then [] else HourRest(hour, 0, endHour, interval) + SlotsFrom(hour + 1, endHour, interval)
  }

  /** `hh:mm`, each part padded to two characters with zeros. */
  function SlotLabel(t: Time): string
  {
    PadStart2(IntToString(t.hour)) + ":" + PadStart2(IntToString(t.minute))
  }

  function Render(ts: seq<Time>): (r: seq<string>)
    ensures |r| == |ts|
    decreases |ts|
  {
    if ts == [] then [] else [SlotLabel(ts[0])] + Render(ts[1..])
  }

  /** `getTimeSlots(startHour, endHour, intervalMinutes)`. A non-positive interval
      would never end the inner loop, so the caller must give a positive one. */
  method GetTimeSlots(startHour: int, endHour: int, interval: int) returns (slots: seq<string>)
    requires interval > 0
    ensures slots == Render(SlotsFrom(startHour, endHour, interval))
  {
    ghost var all := SlotsFrom(startHour, endHour, interval);
    slots := [];
    ghost var done: seq<Time> := [];
    ghost var rest := all;
    var hour := startHour;
    while hour <= endHour
      invariant all == done + rest && rest == SlotsFrom(hour, endHour, interval)
      invariant Labels(slots, done)
      decreases endHour - hour + 1
    {
      var minute := 0;
      HourStart(hour, endHour, interval);
      while minute < 60
        invariant minute >= 0
        invariant all == done + rest && rest == Remaining(hour, minute, endHour, interval)
        invariant Labels(slots, done)
        decreases 60 - minute
      {
        if hour == endHour && minute > 0 {
          break;
        }
        var timeString := SlotLabel(Time(hour, minute));
        HourStep(hour, minute, endHour, interval);
        MoveFirst(done, Time(hour, minute), Remaining(hour, minute + interval, endHour, interval));
        LabelsSnoc(slots, done, Time(hour, minute));
        slots := slots + [timeString];
        done := done + [Time(hour, minute)];
        minute := minute + interval;
        rest := Remaining(hour, minute, endHour, interval);
      }
      HourEnd(hour, minute, endHour, interval);
      hour := hour + 1;
    }
    assert rest == [];
    assert done + [] == done;
    LabelsRender(slots, done);
  }

  /** Each label is the label of the time at the same place. */
  predicate Labels(slots: seq<string>, ts: seq<Time>)
  {
    |slots| == |ts| && forall k :: 0 <= k < |ts| ==> slots[k] == SlotLabel(ts[k])
  }

  lemma LabelsSnoc(slots: seq<string>, ts: seq<Time>, t: Time)
    requires Labels(slots, ts)
    ensures Labels(slots + [SlotLabel(t)], ts + [t])
  {
  }

  lemma LabelsRender(slots: seq<string>, ts: seq<Time>)
    requires Labels(slots, ts)
    ensures slots == Render(ts)
  {
    RenderIndex(ts);
  }

  lemma MoveFirst(done: seq<Time>, t: Time, rest: seq<Time>)
    ensures done + ([t] + rest) == (done + [t]) + rest
  {
  }

  /** What the loops still add when they are at `hour` and `minute`. */
  ghost function Remaining(hour: int, minute: int, endHour: int, interval: int): seq<Time>
    requires interval > 0
  {
    HourRest(hour, minute, endHour, interval) + SlotsFrom(hour + 1, endHour, interval)
  }

  /** Entering an hour splits the remaining slots into that hour's and the later ones. */
  lemma HourStart(hour: int, endHour: int, interval: int)
    requires interval > 0 && hour <= endHour
    ensures SlotsFrom(hour, endHour, interval) == Remaining(hour, 0, endHour, interval)
  {
  }

  /** When the inner loop stops, nothing is left of its hour. */
  lemma HourEnd(hour: int, minute: int, endHour: int, interval: int)
    requires interval > 0 && (minute >= 60 || (hour == endHour && minute > 0))
    ensures Remaining(hour, minute, endHour, interval) == SlotsFrom(hour + 1, endHour, interval)
  {
    assert HourRest(hour, minute, endHour, interval) == [];
  }

  /** One pass of the inner loop takes its time off the front of the remaining slots. */
  lemma HourStep(hour: int, minute: int, endHour: int, interval: int)
    requires interval > 0 && minute < 60 && !(hour == endHour && minute > 0)
    ensures Remaining(hour, minute, endHour, interval)
         == [Time(hour, minute)] + Remaining(hour, minute + interval, endHour, interval)
  {
    var t, x, later := Time(hour, minute), HourRest(hour, minute + interval, endHour, interval), SlotsFrom(hour + 1, endHour, interval);
    assert HourRest(hour, minute, endHour, interval) == [t] + x;
    assert ([t] + x) + later == [t] + (x + later);
  }

  /** The number of multiples of `interval` from `minute` up to 59. */
  lemma {:induction false} HourRestCount(hour: int, minute: int, endHour: int, interval: int)
    requires interval > 0 && minute >= 0 && hour != endHour
    ensures |HourRest(hour, minute, endHour, interval)| == if minute >= 60 then 0 else (59 - minute) / interval + 1
    decreases 60 - minute
  {
    if minute < 60 {
      HourRestCount(hour, minute + interval, endHour, interval);
      if minute + interval < 60 {
        DivStep(59 - minute - interval, interval);
      } else {
        DivSmall(59 - minute, interval);
      }
    }
  }

  lemma DivStep(x: int, d: int)
    requires x >= 0 && d > 0
    ensures (x + d) / d == x / d + 1
  {
    DivUnique(x + d, d, x / d + 1, x % d);
  }

  lemma DivSmall(x: int, d: int)
    requires 0 <= x < d
    ensures x / d == 0
  {
    DivUnique(x, d, 0, x);
  }

  lemma MulMono(a: int, b: int, d: int)
    requires a <= b && d > 0
    ensures a * d <= b * d
  {
  }

  lemma DivUnique(x: int, d: int, q: int, r: int)
    requires d > 0 && 0 <= r < d && x == q * d + r
    ensures x / d == q && x % d == r
  {
    var q0, r0 := x / d, x % d;
    assert x == q0 * d + r0;
    if q0 > q {
      MulMono(q + 1, q0, d);
      assert false;
    } else if q0 < q {
      MulMono(q0 + 1, q, d);
      assert false;
    }
  }

  /** For `startHour <= endHour` there are (end - start) * ceil(60 / interval) + 1
      slots: every full hour contributes the multiples of the interval below 60, and
      the last hour only its minute 0. There are none when start > end. */
  lemma {:induction false} TimeSlotCount(startHour: int, endHour: int, interval: int)
    requires interval > 0
    ensures |SlotsFrom(startHour, endHour, interval)|
         == if startHour > endHour then 0 else (endHour - startHour) * (59 / interval + 1) + 1
    decreases endHour - startHour + 1
  {
    if startHour <= endHour {
      TimeSlotCount(startHour + 1, endHour, interval);
      if startHour != endHour {
        HourRestCount(startHour, 0, endHour, interval);
      }
    }
  }

  predicate Increasing(ts: seq<Time>)
  {
    forall i, j :: 0 <= i < j < |ts| ==> MinuteOfDay(ts[i]) < MinuteOfDay(ts[j])
  }

  /** The inner loop adds times of its own hour, from `minute` on, below 60 and in
      strictly increasing order; in the last hour only minute 0. */
  lemma {:induction false} HourRestShape(hour: int, minute: int, endHour: int, interval: int)
    requires interval > 0 && minute >= 0
    ensures Increasing(HourRest(hour, minute, endHour, interval))
    ensures forall t :: t in HourRest(hour, minute, endHour, interval) ==>
      t.hour == hour && minute <= t.minute < 60 && (hour == endHour ==> t.minute == 0)
    decreases 60 - minute
  {
    if !(minute >= 60 || (hour == endHour && minute > 0)) {
      HourRestShape(hour, minute + interval, endHour, interval);
    }
  }

  /** Every slot lies between `hour` and `endHour` with a minute below 60, the last
      hour contributes only minute 0, and the slots strictly increase. */
  lemma {:induction false} SlotsShape(hour: int, endHour: int, interval: int)
    requires interval > 0
    ensures Increasing(SlotsFrom(hour, endHour, interval))
    ensures forall t :: t in SlotsFrom(hour, endHour, interval) ==>
      hour <= t.hour <= endHour && 0 <= t.minute < 60 && (t.hour == endHour ==> t.minute == 0)
    decreases endHour - hour + 1
  {
    if hour <= endHour {
      var first := HourRest(hour, 0, endHour, interval);
      var rest := SlotsFrom(hour + 1, endHour, interval);
      HourRestShape(hour, 0, endHour, interval);
      SlotsShape(hour + 1, endHour, interval);
      var all := first + rest;
      forall i, j | 0 <= i < j < |all| ensures MinuteOfDay(all[i]) < MinuteOfDay(all[j]) {
        if j < |first| {
        } else if i >= |first| {
          assert all[i] == rest[i - |first|] && all[j] == rest[j - |first|];
        } else {
          assert all[i] in first;
          assert all[j] == rest[j - |first|];
          assert all[j] in rest;
        }
      }
      forall t | t in all
        ensures hour <= t.hour <= endHour && 0 <= t.minute < 60 && (t.hour == endHour ==> t.minute == 0)
      {
        if t in first {
        } else {
          assert t in rest;
        }
      }
    }
  }

  const DefaultSlotTimes: seq<Time> :=
    [Time(17, 0), Time(17, 30), Time(18, 0), Time(18, 30), Time(19, 0), Time(19, 30), Time(20, 0),
     Time(20, 30), Time(21, 0), Time(21, 30), Time(22, 0), Time(22, 30), Time(23, 0)]

  /** The default arguments (17, 23, 30) give the 13 half-hour times from 17:00 to
      23:00; `DefaultLabels` gives their labels. */
  lemma DefaultTimeSlots()
    ensures SlotsFrom(17, 23, 30) == DefaultSlotTimes
  {
    assert HourRest(23, 0, 23, 30) == [Time(23, 0)] by {
      assert HourRest(23, 30, 23, 30) == [];
    }
    assert SlotsFrom(24, 23, 30) == [];
    HalfHours(22);
    HalfHours(21);
    HalfHours(20);
    HalfHours(19);
    HalfHours(18);
    HalfHours(17);
  }

  lemma HalfHours(h: int)
    requires h != 23
    ensures HourRest(h, 0, 23, 30) == [Time(h, 0), Time(h, 30)]
  {
    assert HourRest(h, 60, 23, 30) == [];
    assert HourRest(h, 30, 23, 30) == [Time(h, 30)];
  }

  lemma {:induction false} RenderIndex(ts: seq<Time>)
    ensures forall k :: 0 <= k < |ts| ==> Render(ts)[k] == SlotLabel(ts[k])
    decreases |ts|
  {
    if ts != [] {
      RenderIndex(ts[1..]);
    }
  }

  /** The labels of the default times, "17:00" to "23:00". */
  lemma DefaultLabels()
    ensures SlotLabel(Time(17, 0)) == "17:00" && SlotLabel(Time(17, 30)) == "17:30"
    ensures SlotLabel(Time(18, 0)) == "18:00" && SlotLabel(Time(18, 30)) == "18:30"
    ensures SlotLabel(Time(19, 0)) == "19:00" && SlotLabel(Time(19, 30)) == "19:30"
    ensures SlotLabel(Time(20, 0)) == "20:00" && SlotLabel(Time(20, 30)) == "20:30"
    ensures SlotLabel(Time(21, 0)) == "21:00" && SlotLabel(Time(21, 30)) == "21:30"
    ensures SlotLabel(Time(22, 0)) == "22:00" && SlotLabel(Time(22, 30)) == "22:30"
    ensures SlotLabel(Time(23, 0)) == "23:00"
  {
    SlotChars(17, 0); SlotChars(17, 30); SlotChars(18, 0); SlotChars(18, 30);
    SlotChars(19, 0); SlotChars(19, 30); SlotChars(20, 0); SlotChars(20, 30);
    SlotChars(21, 0); SlotChars(21, 30); SlotChars(22, 0); SlotChars(22, 30);
    SlotChars(23, 0);
  }

  /** The five characters of a slot label. */
  lemma SlotChars(h: int, m: int)
    requires 0 <= h < 100 && 0 <= m < 100
    ensures SlotLabel(Time(h, m)) == [DigitChar(h / 10), DigitChar(h % 10), ':', DigitChar(m / 10), DigitChar(m % 10)]
  {
    PaddedChars(h);
    PaddedChars(m);
    JoinPairs(PadStart2(IntToString(h)), PadStart2(IntToString(m)));
  }

  lemma JoinPairs(a: string, b: string)
    requires |a| == 2 && |b| == 2
    ensures a + ":" + b == [a[0], a[1], ':', b[0], b[1]]
  {
  }

  lemma PaddedChars(n: int)
    requires 0 <= n < 100
    ensures PadStart2(IntToString(n)) == [DigitChar(n / 10), DigitChar(n % 10)]
  {
    if n < 10 {
      assert NatToString(n) == [DigitChar(n)];
    } else {
      assert NatToString(n / 10) == [DigitChar(n / 10)];
    }
  }

  /** A time of day with hour and minute below 100 is written as five characters:
      two digits, a colon and two digits. */
  lemma SlotLabelFormat(t: Time)
    requires 0 <= t.hour < 100 && 0 <= t.minute < 100
    ensures var s := SlotLabel(t);
      |s| == 5 && s[2] == ':' && IsDigit(s[0]) && IsDigit(s[1]) && IsDigit(s[3]) && IsDigit(s[4])
  {
    SlotChars(t.hour, t.minute);
    assert t == Time(t.hour, t.minute);
    ClockShape(SlotLabel(t), DigitChar(t.hour / 10), DigitChar(t.hour % 10), DigitChar(t.minute / 10), DigitChar(t.minute % 10));
  }

  lemma ClockShape(s: string, a: char, b: char, c: char, d: char)
    requires s == [a, b, ':', c, d] && IsDigit(a) && IsDigit(b) && IsDigit(c) && IsDigit(d)
    ensures |s| == 5 && s[2] == ':' && IsDigit(s[0]) && IsDigit(s[1]) && IsDigit(s[3]) && IsDigit(s[4])
  {
  }

  /** Different times of day with hour and minute below 100 get different labels. */
  lemma SlotLabelInjective(a: Time, b: Time)
    requires 0 <= a.hour < 100 && 0 <= a.minute < 100
    requires 0 <= b.hour < 100 && 0 <= b.minute < 100
    ensures SlotLabel(a) == SlotLabel(b) ==> a == b
  {
    SlotChars(a.hour, a.minute);
    SlotChars(b.hour, b.minute);
    assert a == Time(a.hour, a.minute) && b == Time(b.hour, b.minute);
    if SlotLabel(a) == SlotLabel(b) {
      TwoDigitsDetermine(a.hour, b.hour, SlotLabel(a)[0], SlotLabel(a)[1]);
      TwoDigitsDetermine(a.minute, b.minute, SlotLabel(a)[3], SlotLabel(a)[4]);
    }
  }

  /** Two numbers below 100 written with the same two digits are equal. */
  lemma TwoDigitsDetermine(x: int, y: int, c: char, d: char)
    requires 0 <= x < 100 && 0 <= y < 100
    requires DigitChar(x / 10) == c == DigitChar(y / 10) && DigitChar(x % 10) == d == DigitChar(y % 10)
    ensures x == y
  {
    assert x == 10 * (x / 10) + x % 10;
    assert y == 10 * (y / 10) + y % 10;
  }

  /** The slots of any call with hours 0..99 are distinct strings. */
  lemma SlotLabelsDistinct(startHour: int, endHour: int, interval: int)
    requires interval > 0 && 0 <= startHour && endHour < 100
    ensures var r := Render(SlotsFrom(startHour, endHour, interval));
      forall i, j :: 0 <= i < j < |r| ==> r[i] != r[j]
  {
    var ts := SlotsFrom(startHour, endHour, interval);
    SlotsShape(startHour, endHour, interval);
    RenderIndex(ts);
    forall i, j | 0 <= i < j < |ts| ensures SlotLabel(ts[i]) != SlotLabel(ts[j]) {
      assert ts[i] in ts && ts[j] in ts;
      SlotLabelInjective(ts[i], ts[j]);
    }
  }

  /** How long ago an instant was, in the buckets of `formatRelativeTime`. */
  datatype Age = JustNow | MinutesAgo(n: int) | HoursAgo(n: int) | DaysAgo(n: int) | Older

  function RelativeAge(diffMs: int): Age
  {
    var diffMins := diffMs / RelativeTime.MsPerMinute;
    var diffHours := diffMins / 60;
    var diffDays := diffHours / 24;
    if diffMins < 1 then JustNow
    else if diffMins < 60 then MinutesAgo(diffMins)
    else if diffHours < 24 then HoursAgo(diffHours)
    else if diffDays < 7 then DaysAgo(diffDays)
    else Older
  }

  /** Each bucket covers a range of whole milliseconds, and its number is the elapsed
      time floored to its unit: under a minute (or in the future) is "just now", then
      1 to 59 minutes, 1 to 23 hours, 1 to 6 days, and a week or more is an absolute
      date. */
  lemma RelativeAgeBuckets(diffMs: int)
    ensures RelativeAge(diffMs) == JustNow <==> diffMs < RelativeTime.MsPerMinute
    ensures RelativeAge(diffMs).MinutesAgo? <==> RelativeTime.MsPerMinute <= diffMs < RelativeTime.MsPerHour
    ensures RelativeAge(diffMs).HoursAgo? <==> RelativeTime.MsPerHour <= diffMs < RelativeTime.MsPerDay
    ensures RelativeAge(diffMs).DaysAgo? <==> RelativeTime.MsPerDay <= diffMs < 7 * RelativeTime.MsPerDay
    ensures RelativeAge(diffMs) == Older <==> diffMs >= 7 * RelativeTime.MsPerDay
    ensures RelativeAge(diffMs).MinutesAgo? ==>
      RelativeAge(diffMs).n == diffMs / RelativeTime.MsPerMinute && 1 <= RelativeAge(diffMs).n < 60
    ensures RelativeAge(diffMs).HoursAgo? ==>
      RelativeAge(diffMs).n == diffMs / RelativeTime.MsPerHour && 1 <= RelativeAge(diffMs).n < 24
    ensures RelativeAge(diffMs).DaysAgo? ==>
      RelativeAge(diffMs).n == diffMs / RelativeTime.MsPerDay && 1 <= RelativeAge(diffMs).n < 7
  {
    RelativeTime.HoursFromMinutes(diffMs);
    RelativeTime.DaysFromHours(diffMs);
  }

  /** The label of a bucket; the absolute date, whose locale format is not modelled,
      is given. */
  function RenderAge(age: Age, absoluteDate: string): string
  {
    match age
    case JustNow => "Just now"
    case MinutesAgo(n) => if n >= 0 then RelativeTime.AgoLabel(n, 'm') else ""
    case HoursAgo(n) => if n >= 0 then RelativeTime.AgoLabel(n, 'h') else ""
    case DaysAgo(n) => if n >= 0 then RelativeTime.AgoLabel(n, 'd') else ""
    case Older => absoluteDate
  }

  /** `formatRelativeTime(date)` at the instant `now`. */
  function FormatRelativeTime(now: int, date: int, absoluteDate: string): string
  {
    RenderAge(RelativeAge(now - date), absoluteDate)
  }

  /** Within the last week two instants get the same relative label exactly when they
      fall in the same bucket with the same number. */
  lemma RelativeLabelsDistinguish(now: int, a: int, b: int, absoluteDate: string)
    requires now - a < 7 * RelativeTime.MsPerDay && now - b < 7 * RelativeTime.MsPerDay
    ensures FormatRelativeTime(now, a, absoluteDate) == FormatRelativeTime(now, b, absoluteDate)
        <==> RelativeAge(now - a) == RelativeAge(now - b)
  {
    RelativeAgeBuckets(now - a);
    RelativeAgeBuckets(now - b);
    var x, y := RelativeAge(now - a), RelativeAge(now - b);
    if FormatRelativeTime(now, a, absoluteDate) == FormatRelativeTime(now, b, absoluteDate) {
      AgeLabelsInjective(x, y);
    }
  }

  function NumberOf(age: Age): int
  {
    match age
    case JustNow => 0
    case MinutesAgo(n) => n
    case HoursAgo(n) => n
    case DaysAgo(n) => n
    case Older => 0
  }

  function UnitOf(age: Age): char
  {
    match age
    case MinutesAgo(_) => 'm'
    case HoursAgo(_) => 'h'
    case _ => 'd'
  }

  lemma LabelStartsWithDigit(a: Age)
    requires a != Older && a != JustNow && NumberOf(a) >= 0
    ensures |RenderAge(a, "")| > 0 && IsDigit(RenderAge(a, "")[0])
  {
    assert RenderAge(a, "")[0] == NatToString(NumberOf(a))[0];
  }

  lemma AgeLabelsInjective(x: Age, y: Age)
    requires x != Older && y != Older
    requires (x == JustNow || NumberOf(x) >= 1) && (y == JustNow || NumberOf(y) >= 1)
    requires RenderAge(x, "") == RenderAge(y, "")
    ensures x == y
  {
    if x != JustNow {
      LabelStartsWithDigit(x);
    }
    if y != JustNow {
      LabelStartsWithDigit(y);
    }
    if x != JustNow && y != JustNow {
      var ux, uy := UnitOf(x), UnitOf(y);
      assert RenderAge(x, "") == NatToString(NumberOf(x)) + ([ux] + " ago");
      assert RenderAge(y, "") == NatToString(NumberOf(y)) + ([uy] + " ago");
      RelativeTime.LeadingNumber(NumberOf(x), [ux] + " ago");
      RelativeTime.LeadingNumber(NumberOf(y), [uy] + " ago");
      NatToStringInjective(NumberOf(x), NumberOf(y));
      var d := NatToString(NumberOf(x));
      assert RenderAge(x, "")[|d|] == ux;
      assert RenderAge(y, "")[|d|] == uy;
    }
  }

  /** `addMinutes` and `addDays` on millisecond instants. */
  function AddMinutes(date: int, minutes: int): int
  {
    date + minutes * RelativeTime.MsPerMinute
  }

  function AddDays(date: int, days: int): int
  {
    date + days * 24 * 60 * 60 * 1000
  }

  /** Adding minutes composes additively and is undone by adding the opposite; a day
      is 1440 minutes. */
  lemma AddArithmetic(date: int, a: int, b: int)
    ensures AddMinutes(AddMinutes(date, a), b) == AddMinutes(date, a + b)
    ensures AddMinutes(AddMinutes(date, a), -a) == date
    ensures AddDays(date, a) == AddMinutes(date, 1440 * a)
    ensures AddDays(AddDays(date, a), b) == AddDays(date, a + b)
  {
  }

  /** The calendar day an instant falls on, for a time-zone offset. */
  function CalendarDay(ms: int, tzOffset: int): int
  {
    (ms + tzOffset) / RelativeTime.MsPerDay
  }

  /** `isSameDay`: `toDateString` of both instants agree exactly when their calendar
      days in the local zone agree. */
  predicate IsSameDay(a: int, b: int, tzOffset: int)
  {
    CalendarDay(a, tzOffset) == CalendarDay(b, tzOffset)
  }

  /** Being on the same day is an equivalence; instants on the same day are less than
      a day apart, and a day later is never the same day. */
  lemma SameDayProperties(a: int, b: int, c: int, tzOffset: int)
    ensures IsSameDay(a, a, tzOffset)
    ensures IsSameDay(a, b, tzOffset) ==> IsSameDay(b, a, tzOffset)
    ensures IsSameDay(a, b, tzOffset) && IsSameDay(b, c, tzOffset) ==> IsSameDay(a, c, tzOffset)
    ensures IsSameDay(a, b, tzOffset) ==> -RelativeTime.MsPerDay < a - b < RelativeTime.MsPerDay
    ensures !IsSameDay(a, AddDays(a, 1), tzOffset)
  {
    assert CalendarDay(AddDays(a, 1), tzOffset) == CalendarDay(a, tzOffset) + 1;
  }
}
