/**
 * Local timestamps and the clock labels the three programs print.
 *
 * All times are taken in one zone. A timestamp is a day number (day 0 is
 * Thursday 1 January 1970) and a minute of that day; the calendar date of a
 * timestamp is its day number. Seconds are not modelled.
 */
module Clock {

  type Minute = m: int | 0 <= m < 1440

  datatype Ts = Ts(day: int, minute: Minute)

  /** `a <= b` on datetimes. */
  predicate NotAfter(a: Ts, b: Ts) {
    a.day < b.day || (a.day == b.day && a.minute <= b.minute)
  }

  /** `t + timedelta(days=n)` */
  function AddDays(t: Ts, n: int): (r: Ts)
    ensures r.minute == t.minute && r.day - t.day == n
  {
    Ts(t.day + n, t.minute)
  }

  /** A decoded DTSTART or DTEND value: a bare DATE or a DATE-TIME (RFC 5545, section 3.3.4 and 3.3.5). */
  datatype DateOrTime = Date(date: int) | DateTime(ts: Ts)

  /**
   * `datetime.combine(d, time.min)` for a bare date; a date-time passes through.
   * The date is kept and a bare date is placed at midnight.
   */
  function Anchor(v: DateOrTime): (t: Ts)
    ensures v.Date? ==> t.day == v.date && t.minute == 0
    ensures v.DateTime? ==> t == v.ts
  {
    match v
    case Date(d) => Ts(d, 0)
    case DateTime(ts) => ts
  }

  lemma NotAfterIsTotalPreorder(a: Ts, b: Ts, c: Ts)
    ensures NotAfter(a, b) || NotAfter(b, a)
    ensures NotAfter(a, b) && NotAfter(b, c) ==> NotAfter(a, c)
    ensures NotAfter(a, b) && NotAfter(b, a) ==> a == b
  {
  }

  // ---------------------------------------------------------------------
  // Decimal digits

  function DigitChar(d: nat): (c: char)
    requires d < 10
    ensures '0' <= c <= '9'
    ensures (c == '0') == (d == 0)
  {
    (48 + d) as char
  }

  /** `str(n)` for a natural number: the shortest decimal numeral. */
  function Decimal(n: nat): (s: string)
    ensures 1 <= |s|
    ensures forall k :: 0 <= k < |s| ==> '0' <= s[k] <= '9'
    ensures s[0] == '0' <==> n == 0
    ensures n < 10 <==> |s| == 1
  {
    if n < 10 then [DigitChar(n)] else Decimal(n / 10) + [DigitChar(n % 10)]
  }

  /** Two zero-padded digits, as `%I` and `%M` print them. */
  function Pad2(n: nat): (s: string)
    requires n < 100
    ensures |s| == 2 && '0' <= s[0] <= '9' && '0' <= s[1] <= '9'
  {
    [DigitChar(n / 10), DigitChar(n % 10)]
  }

  // ---------------------------------------------------------------------
  // The 12-hour clock label `strftime("%I:%M %p").lstrip("0")`

  /** The hour on the 12-hour clock (`%I`): midnight and noon are 12. */
  function Hour12(m: Minute): (h: nat)
    ensures 1 <= h <= 12
    ensures h % 12 == (m / 60) % 12
  {
    if (m / 60) % 12 == 0 then 12 else (m / 60) % 12
  }

  /** `%p` in the C locale. */
  function Meridiem(m: Minute): string {
    if m / 60 < 12 then "AM" else "PM"
  }

  /** What follows the hour in `strftime("%I:%M %p")`: the colon, `%M`, a space and `%p`. */
  function ClockTail(m: Minute): string {
    ":" + Pad2(m % 60) + " " + Meridiem(m)
  }

  /** `strftime("%I:%M %p")` */
  function Strftime12(m: Minute): string {
    Pad2(Hour12(m)) + ClockTail(m)
  }

  /** `s.lstrip("0")` */
  function LStripZeros(s: string): string {
    if s != [] && s[0] == '0' then LStripZeros(s[1..]) else s
  }

  /** `lstrip("0")` removes exactly the leading zeros: what is left is a suffix that does not start with one. */
  lemma {:induction false} LStripZerosSpec(s: string)
    ensures var r := LStripZeros(s);
      && |r| <= |s| && r == s[|s| - |r|..]
      && (r == [] || r[0] != '0')
      && forall k :: 0 <= k < |s| - |r| ==> s[k] == '0'
  {
    if s != [] && s[0] == '0' {
      LStripZerosSpec(s[1..]);
      var r := LStripZeros(s);
      forall k | 0 <= k < |s| - |r|
        ensures s[k] == '0'
      {
        if k > 0 {
          assert s[k] == s[1..][k - 1];
        }
      }
    }
  }

  function TimeLabel(m: Minute): string {
    LStripZeros(Strftime12(m))
  }

  /**
   * The label is the hour 1..12 written without a leading zero, a colon, the
   * two-digit minute, a space and AM or PM; it is never empty.
   */
  lemma TimeLabelShape(m: Minute)
    ensures TimeLabel(m) == Decimal(Hour12(m)) + ClockTail(m)
    ensures TimeLabel(m) != "" && TimeLabel(m)[0] != '0'
  {
    var h := Hour12(m);
    if h < 10 {
      assert Pad2(h) == ['0'] + Decimal(h);
      assert Pad2(h) + ClockTail(m) == ['0'] + (Decimal(h) + ClockTail(m));
      StripOneZero(Decimal(h) + ClockTail(m));
    } else {
      assert h / 10 == 1;
      assert Decimal(h) == [DigitChar(1), DigitChar(h % 10)];
      StripNoZero(Decimal(h) + ClockTail(m));
    }
  }

  lemma StripOneZero(s: string)
    requires s != [] && s[0] != '0'
    ensures LStripZeros(['0'] + s) == s
  {
    assert (['0'] + s)[1..] == s;
  }

  lemma StripNoZero(s: string)
    requires s != [] && s[0] != '0'
    ensures LStripZeros(s) == s
  {
  }

  lemma TimeLabelMidnight()
    ensures TimeLabel(0) == "12:00 AM"
  {
    assert Hour12(0) == 12;
    assert Pad2(12) == "12";
    assert Pad2(0) == "00";
    assert Strftime12(0) == "12:00 AM";
  }

  lemma TimeLabelTen()
    ensures TimeLabel(600) == "10:00 AM"
  {
    assert Hour12(600) == 10;
    assert Pad2(10) == "10";
    assert Pad2(0) == "00";
    assert Strftime12(600) == "10:00 AM";
  }
  lemma TimeLabelNine()
    ensures TimeLabel(540) == "9:00 AM"
  {
    assert Hour12(540) == 9;
    assert Pad2(9) == "09";
    assert Pad2(0) == "00";
    assert Strftime12(540) == "09:00 AM";
    assert "09:00 AM"[1..] == "9:00 AM";
  }

  // ---------------------------------------------------------------------
  // The weekday name `strftime("%A")`

  /** Day 0 (1 January 1970) was a Thursday. */
  function WeekdayName(day: int): string {
    match (day + 3) % 7
    case 0 => "Monday"
    case 1 => "Tuesday"
    case 2 => "Wednesday"
    case 3 => "Thursday"
    case 4 => "Friday"
    case 5 => "Saturday"
    case _ => "Sunday"
  }

  /** Any seven consecutive days have seven different weekday names. */
  lemma WeekdayNamesDistinct(d1: int, d2: int)
    requires d1 < d2 < d1 + 7
    ensures WeekdayName(d1) != WeekdayName(d2)
  {
    var i1, i2 := (d1 + 3) % 7, (d2 + 3) % 7;
    assert d1 + 3 == 7 * ((d1 + 3) / 7) + i1;
    assert d2 + 3 == 7 * ((d2 + 3) / 7) + i2;
    assert i1 != i2;
  }
}
