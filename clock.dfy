// Wall-clock instants on a single clock, the 5-minute candle bucket, and
// calendar dates with their ISO 8601 extended format (YYYY-MM-DD).

module Clock {
  import opened Text

  const MinutesPerDay: int := 1440
  const MicrosPerMinute: int := 60000000
  const MicrosPerDay: int := 86400000000

  /** An instant on one wall clock: a day number (day 0 is 1970-01-01), the
      minute of that day, the second and the microsecond. */
  datatype Instant = Instant(day: int, minute: int, second: int, micro: int)
  {
    predicate Valid()
    {
      0 <= minute < MinutesPerDay && 0 <= second < 60 && 0 <= micro < 1000000
    }

    function Hour(): int
    {
      minute / 60
    }

    function MinuteOfHour(): int
    {
      minute % 60
    }
  }

  /** Microseconds since day 0, which orders instants as `datetime` does. */
  function Ord(t: Instant): int
  {
    t.day * MicrosPerDay + t.minute * MicrosPerMinute + t.second * 1000000 + t.micro
  }

  /** `dt.replace(second=0, microsecond=0, minute=(dt.minute // 5) * 5)`:
      the start of the 5-minute candle that holds `t`. */
  function Round5(t: Instant): (r: Instant)
    requires t.Valid()
    ensures r.Valid() && r.day == t.day && r.Hour() == t.Hour()
    ensures r.second == 0 && r.micro == 0
    ensures r.MinuteOfHour() % 5 == 0
    ensures r.MinuteOfHour() <= t.MinuteOfHour() < r.MinuteOfHour() + 5
    ensures Ord(r) <= Ord(t) < Ord(r) + 5 * MicrosPerMinute
  {
    var h := t.minute / 60;
    var m := t.minute % 60;
    Instant(t.day, h * 60 + (m / 5) * 5, 0, 0)
  }

  /** Two instants get the same candle exactly when they fall on the same
      day in the same 5-minute slot. */
  lemma SameCandle(a: Instant, b: Instant)
    requires a.Valid() && b.Valid()
    ensures Round5(a) == Round5(b) <==> a.day == b.day && a.minute / 5 == b.minute / 5
  {
    assert Round5(a).minute == (a.minute / 5) * 5;
    assert Round5(b).minute == (b.minute / 5) * 5;
  }

  /** Every instant inside a candle's 5-minute window is rounded to that
      candle, so all refreshes during the window share one candle time. */
  lemma {:induction false} WindowRoundsToCandle(c: Instant, t: Instant)
    requires c.Valid() && t.Valid() && c == Round5(c)
    requires Ord(c) <= Ord(t) < Ord(c) + 5 * MicrosPerMinute
    ensures Round5(t) == c
  {
    assert c.second == 0 && c.micro == 0 && c.minute % 5 == 0;
    SameDayInWindow(c, t);
    assert c.minute <= t.minute < c.minute + 5;
    SameCandle(c, t);
  }

  lemma SameDayInWindow(c: Instant, t: Instant)
    requires c.Valid() && t.Valid() && c.second == 0 && c.micro == 0 && c.minute % 5 == 0
    requires Ord(c) <= Ord(t) < Ord(c) + 5 * MicrosPerMinute
    ensures t.day == c.day
  {
    assert c.minute <= 1435;
    var offT := t.minute * MicrosPerMinute + t.second * 1000000 + t.micro;
    assert 0 <= offT < MicrosPerDay;
    var offC := c.minute * MicrosPerMinute;
    assert (t.day - c.day) * MicrosPerDay == (Ord(t) - Ord(c)) - (offT - offC);
    assert -MicrosPerDay < (t.day - c.day) * MicrosPerDay < MicrosPerDay;
  }

  /** On one day an earlier minute is an earlier instant. */
  lemma EarlierMinute(a: Instant, b: Instant)
    requires a.Valid() && b.Valid() && a.day == b.day && a.minute < b.minute
    ensures Ord(a) < Ord(b)
  {
    assert a.second * 1000000 + a.micro < MicrosPerMinute;
  }

  /** An instant of the same day whose minute is before the candle of `b`
      comes before that candle. */
  lemma BeforeCandle(a: Instant, b: Instant)
    requires a.Valid() && b.Valid() && a.day == b.day && a.minute < (b.minute / 5) * 5
    ensures Ord(a) < Ord(Round5(b))
  {
    assert Round5(b).minute == (b.minute / 5) * 5;
    EarlierMinute(a, Round5(b));
  }

  /** The candle of `t` starts at minute `m` when `t` falls in the five
      minutes from `m` on, `m` a multiple of five. */
  lemma CandleStart(t: Instant, m: int)
    requires t.Valid() && m % 5 == 0 && m <= t.minute < m + 5
    ensures Round5(t) == Instant(t.day, m, 0, 0)
  {
    assert t.minute / 5 == m / 5;
  }

  /** Rounding an already rounded instant changes nothing. */
  lemma Round5Idempotent(t: Instant)
    requires t.Valid()
    ensures Round5(Round5(t)) == Round5(t)
  {
    assert Round5(t).minute == (t.minute / 5) * 5;
  }

  /** `datetime.weekday()` of a day number: Monday is 0, and 1970-01-01 was a
      Thursday. */
  function Weekday(day: int): (w: int)
    ensures 0 <= w < 7
  {
    (day + 3) % 7
  }

  // ---------------------------------------------------------------- dates

  /** A proleptic Gregorian calendar date, as `datetime.date` holds it. */
  datatype Date = Date(year: int, month: int, day: int)
  {
    predicate Valid()
    {
      1 <= year <= 9999 && 1 <= month <= 12 && 1 <= day <= DaysInMonth(year, month)
    }
  }

  predicate IsLeap(y: int)
  {
    y % 4 == 0 && (y % 100 != 0 || y % 400 == 0)
  }

  function DaysInMonth(y: int, m: int): int
  {
    if m == 2 then (if IsLeap(y) then 29 else 28)
    else if m == 4 || m == 6 || m == 9 || m == 11 then 30
    else 31
  }

  /** Calendar order of dates. */
  predicate DateLt(a: Date, b: Date)
  {
    a.year < b.year || (a.year == b.year && (a.month < b.month || (a.month == b.month && a.day < b.day)))
  }

  function NextDay(d: Date): Date
  {
    if d.day < DaysInMonth(d.year, d.month) then Date(d.year, d.month, d.day + 1)
    else if d.month < 12 then Date(d.year, d.month + 1, 1)
    else Date(d.year + 1, 1, 1)
  }

  /** `d - timedelta(days=1)`, defined for every date after 0001-01-01. */
  function PrevDay(d: Date): (p: Date)
    requires d.Valid() && d != Date(1, 1, 1)
    ensures p.Valid() && DateLt(p, d)
    ensures NextDay(p) == d
  {
    if d.day > 1 then Date(d.year, d.month, d.day - 1)
    else if d.month > 1 then Date(d.year, d.month - 1, DaysInMonth(d.year, d.month - 1))
    else Date(d.year - 1, 12, 31)
  }

  /** No date lies strictly between a date and the day before it. */
  lemma PrevDayIsAdjacent(d: Date, x: Date)
    requires d.Valid() && d != Date(1, 1, 1) && x.Valid()
    ensures !(DateLt(PrevDay(d), x) && DateLt(x, d))
  {
  }

  function DigitChar(n: int): char
    requires 0 <= n < 10
  {
    '0' + n as char
  }

  /** `n` written with exactly `width` decimal digits (leading zeros). */
  function Pad(n: nat, width: nat): (s: string)
    ensures |s| == width
    ensures forall i :: 0 <= i < width ==> '0' <= s[i] <= '9'
  {
    if width == 0 then "" else Pad(n / 10, width - 1) + [DigitChar(n % 10)]
  }

  function Pow10(k: nat): nat
  {
    if k == 0 then 1 else 10 * Pow10(k - 1)
  }

  /** For numbers that fit the width, the padded digit strings compare in
      the order of the numbers. */
  lemma {:induction false} PadOrder(a: nat, b: nat, width: nat)
    requires a < Pow10(width) && b < Pow10(width)
    ensures LexLt(Pad(a, width), Pad(b, width)) <==> a < b
    decreases width
  {
    if width > 0 {
      PadOrder(a / 10, b / 10, width - 1);
      var pa, pb := Pad(a / 10, width - 1), Pad(b / 10, width - 1);
      ConcatLexLt(pa, [DigitChar(a % 10)], pb, [DigitChar(b % 10)]);
      if pa == pb {
        PadInjective(a / 10, b / 10, width - 1);
      }
    }
  }

  lemma {:induction false} PadInjective(a: nat, b: nat, width: nat)
    requires a < Pow10(width) && b < Pow10(width)
    requires Pad(a, width) == Pad(b, width)
    ensures a == b
    decreases width
  {
    if width > 0 {
      var n := width - 1;
      assert Pad(a, width)[n] == DigitChar(a % 10);
      assert Pad(a, width)[..n] == Pad(a / 10, n);
      assert Pad(b, width)[..n] == Pad(b / 10, n);
      PadInjective(a / 10, b / 10, n);
    }
  }

  /** Code-point order on two strings split at the same width compares the
      first parts, then the second ones. */
  lemma {:induction false} ConcatLexLt(a1: string, a2: string, b1: string, b2: string)
    requires |a1| == |b1|
    ensures LexLt(a1 + a2, b1 + b2) <==> LexLt(a1, b1) || (a1 == b1 && LexLt(a2, b2))
    decreases |a1|
  {
    if a1 == [] {
      assert a1 + a2 == a2 && b1 + b2 == b2;
    } else {
      assert (a1 + a2)[0] == a1[0] && (b1 + b2)[0] == b1[0];
      assert (a1 + a2)[1..] == a1[1..] + a2 && (b1 + b2)[1..] == b1[1..] + b2;
      ConcatLexLt(a1[1..], a2, b1[1..], b2);
      if a1[0] == b1[0] && a1[1..] == b1[1..] {
        assert a1 == [a1[0]] + a1[1..] && b1 == [b1[0]] + b1[1..];
      }
      if a1 == b1 {
        assert a1[1..] == b1[1..];
      }
    }
  }

  /** `date.isoformat()`: the extended calendar date format YYYY-MM-DD of
      section 4.1.2.2 of ISO 8601. */
  function Iso(d: Date): (s: string)
    requires d.Valid()
    ensures |s| == 10 && s[4] == '-' && s[7] == '-'
  {
    Pad(d.year, 4) + "-" + Pad(d.month, 2) + "-" + Pad(d.day, 2)
  }

  /** Because the format is fixed-width, comparing ISO date strings as text
      is comparing the dates on the calendar. */
  lemma IsoOrder(a: Date, b: Date)
    requires a.Valid() && b.Valid()
    ensures LexLt(Iso(a), Iso(b)) <==> DateLt(a, b)
  {
    assert Pow10(2) == 100 && Pow10(4) == 10000 by {
      assert Pow10(1) == 10;
      assert Pow10(3) == 1000;
    }
    var ya, yb := Pad(a.year, 4), Pad(b.year, 4);
    var ma, mb := Pad(a.month, 2), Pad(b.month, 2);
    var da, db := Pad(a.day, 2), Pad(b.day, 2);
    assert Iso(a) == ya + ("-" + (ma + ("-" + da)));
    assert Iso(b) == yb + ("-" + (mb + ("-" + db)));
    ConcatLexLt(ya, "-" + (ma + ("-" + da)), yb, "-" + (mb + ("-" + db)));
    ConcatLexLt("-", ma + ("-" + da), "-", mb + ("-" + db));
    ConcatLexLt(ma, "-" + da, mb, "-" + db);
    ConcatLexLt("-", da, "-", db);
    LexLtIrreflexive("-");
    PadOrder(a.year, b.year, 4);
    PadOrder(a.month, b.month, 2);
    PadOrder(a.day, b.day, 2);
    if ya == yb {
      PadInjective(a.year, b.year, 4);
    }
    if ma == mb {
      PadInjective(a.month, b.month, 2);
    }
  }
}
