/** Elapsed-time labels shared by the kitchen queue, the scan history, the
    notification panel and `formatRelativeTime`. Instants are integer milliseconds;
    `Math.floor(diffMs / 60000)` is Dafny's division, which rounds toward negative
    infinity for a positive divisor. */
module RelativeTime {

  import opened Wrappers
  import opened Text

  const MsPerMinute: int := 60000
  const MsPerHour: int := 3600000
  const MsPerDay: int := 86400000

  /** Whole minutes from `since` to `now`; negative when `since` lies in the future. */
  function ElapsedMinutes(now: int, since: int): int
  {
    (now - since) / MsPerMinute
  }

  /** Flooring to minutes and then to hours is flooring to hours. */
  lemma HoursFromMinutes(diffMs: int)
    ensures (diffMs / MsPerMinute) / 60 == diffMs / MsPerHour
  {
  }

  /** Flooring to hours and then to days is flooring to days. */
  lemma DaysFromHours(diffMs: int)
    ensures (diffMs / MsPerHour) / 24 == diffMs / MsPerDay
  {
  }

  function AgoLabel(n: nat, unit: char): string
  {
    NatToString(n) + ([unit] + " ago")
  }

  /** The label of the kitchen queue and the scan history: "Just now" below a minute,
      "Nm ago" below an hour, and "Hh Mm ago" from then on. */
  function ClockLabel(mins: int): string
  {
    if mins < 1 then "Just now"
    else if mins < 60 then AgoLabel(mins, 'm')
    else NatToString(mins / 60) + ("h " + AgoLabel(mins % 60, 'm'))
  }

  /** The hours and minutes of the long form describe the elapsed minutes exactly. */
  lemma ClockLabelParts(mins: int)
    requires mins >= 60
    ensures exists h: nat, m: nat :: (h >= 1 && m < 60 && h * 60 + m == mins
      && ClockLabel(mins) == NatToString(h) + ("h " + AgoLabel(m, 'm')))
  {
    var h: nat, m: nat := mins / 60, mins % 60;
    assert h >= 1 && m < 60 && h * 60 + m == mins;
    assert ClockLabel(mins) == NatToString(h) + ("h " + AgoLabel(m, 'm'));
  }

  /** The number in front of an "N? ago" label is what `parseInt` reads from it. */
  lemma ParseAgoLabel(n: nat, unit: char)
    requires !IsDigit(unit) && unit != 'x' && unit != 'X'
    ensures ParseInt(AgoLabel(n, unit)) == Some(n)
  {
    NatToStringRoundTrip(n);
    ParseIntDigits(NatToString(n), [unit] + " ago");
  }

  /** The digits in front of a label are the number written there. */
  lemma LeadingNumber(n: nat, rest: string)
    requires rest != [] && !IsDigit(rest[0])
    ensures PrefixWhile(NatToString(n) + rest, IsDigit) == NatToString(n)
  {
    PrefixWhileStops(NatToString(n), rest, IsDigit);
  }

  lemma DropCommonPrefix(p: string, x: string, y: string)
    requires p + x == p + y
    ensures x == y
  {
    assert x == (p + x)[|p|..];
    assert y == (p + y)[|p|..];
  }

  /** Equal "N? ago" labels with the same unit have equal numbers. */
  lemma AgoLabelInjective(a: nat, b: nat, unit: char)
    requires !IsDigit(unit)
    ensures AgoLabel(a, unit) == AgoLabel(b, unit) ==> a == b
  {
    if AgoLabel(a, unit) == AgoLabel(b, unit) {
      LeadingNumber(a, [unit] + " ago");
      LeadingNumber(b, [unit] + " ago");
      NatToStringInjective(a, b);
    }
  }

  /** Two elapsed times of at least a minute get the same label only when they are
      equal, and none of them is labelled "Just now". */
  lemma ClockLabelInjective(a: int, b: int)
    requires a >= 1 && b >= 1
    ensures ClockLabel(a) == ClockLabel(b) ==> a == b
    ensures ClockLabel(a) != "Just now"
  {
    assert IsDigit(ClockLabel(a)[0]) by {
      if a >= 60 {
        assert ClockLabel(a)[0] == NatToString(a / 60)[0];
      } else {
        assert ClockLabel(a)[0] == NatToString(a)[0];
      }
    }
    if ClockLabel(a) == ClockLabel(b) {
      if a >= 60 && b >= 60 {
        LongLabelsInjective(a, b);
      } else if a < 60 && b < 60 {
        AgoLabelInjective(a, b, 'm');
      } else if a < 60 {
        LongLabelDiffers(a, b);
      } else {
        LongLabelDiffers(b, a);
      }
    }
  }

  lemma LongLabelsInjective(a: int, b: int)
    requires a >= 60 && b >= 60 && ClockLabel(a) == ClockLabel(b)
    ensures a == b
  {
    var ra, rb := "h " + AgoLabel(a % 60, 'm'), "h " + AgoLabel(b % 60, 'm');
    LeadingNumber(a / 60, ra);
    LeadingNumber(b / 60, rb);
    NatToStringInjective(a / 60, b / 60);
    DropCommonPrefix(NatToString(a / 60), ra, rb);
    DropCommonPrefix("h ", AgoLabel(a % 60, 'm'), AgoLabel(b % 60, 'm'));
    AgoLabelInjective(a % 60, b % 60, 'm');
  }

  /** A label below an hour never equals a label of an hour or more. */
  lemma LongLabelDiffers(a: int, b: int)
    requires 1 <= a < 60 <= b
    ensures ClockLabel(a) != ClockLabel(b)
  {
    var ra, rb := ['m'] + " ago", "h " + AgoLabel(b % 60, 'm');
    LeadingNumber(a, ra);
    LeadingNumber(b / 60, rb);
    var d := NatToString(a);
    var la, lb := d + ra, NatToString(b / 60) + rb;
    assert la[|d|] == 'm';
  }
}
