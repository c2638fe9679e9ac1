/**
 The RFC 3339 text that the SQLite store writes for an instant (Go's `time.RFC3339Nano` in
 UTC) and how its alphabetical order, which decides pruning, relates to the order of time
 (section 5.1 of RFC 3339).
 */
module Timestamps {
  import opened TextOrder
  import opened Model

  const SECOND: int := 1_000_000_000
  const DAY: int := 86_400

  // -------------------------------------------------------------------------
  // Calendar
  // -------------------------------------------------------------------------

  predicate IsLeap(year: int) {
    year % 4 == 0 && (year % 100 != 0 || year % 400 == 0)
  }

  function DaysInMonth(year: int, month: int): (d: nat)
    requires 1 <= month <= 12
    ensures 28 <= d <= 31
  {
    if month == 2 then (if IsLeap(year) then 29 else 28)
    else if month in {4, 6, 9, 11} then 30
    else 31
  }

  /** Days from the first of `month` to the end of the year. */
  function DaysFrom(year: int, month: int): nat
    requires 1 <= month <= 13
    decreases 13 - month
  {
    if month == 13 then 0 else DaysInMonth(year, month) + DaysFrom(year, month + 1)
  }

  function DaysInYear(year: int): (d: nat)
    ensures d > 0
  {
    DaysFrom(year, 1)
  }

  /** Year and day of the year, counting `days` from the first day of `year`. */
  function YearAndDay(year: int, days: nat): (r: (int, nat))
    ensures r.0 >= year && r.1 < DaysInYear(r.0)
    decreases days
  {
    if days < DaysInYear(year) then (year, days) else YearAndDay(year + 1, days - DaysInYear(year))
  }

  /** Month and day of the month, both counted from one. */
  function MonthAndDay(year: int, month: int, days: nat): (r: (int, int))
    requires 1 <= month <= 12 && days < DaysFrom(year, month)
    ensures month <= r.0 <= 12 && 1 <= r.1 <= 31
    decreases 12 - month
  {
    if days < DaysInMonth(year, month) then (month, days + 1)
    else MonthAndDay(year, month + 1, days - DaysInMonth(year, month))
  }

  /** Days of the Gregorian calendar before a year, counted from the year 1. */
  function DaysBefore(year: int): int {
    var y := year - 1;
    365 * y + y / 4 - y / 100 + y / 400
  }

  lemma YearLength(year: int)
    ensures DaysInYear(year) == DaysBefore(year + 1) - DaysBefore(year)
  {
    assert DaysInYear(year) == if IsLeap(year) then 366 else 365 by {
      assert DaysFrom(year, 7) == 184;
    }
    var y := year - 1;
    assert (y + 1) / 4 - y / 4 == (if year % 4 == 0 then 1 else 0);
    assert (y + 1) / 100 - y / 100 == (if year % 100 == 0 then 1 else 0);
    assert (y + 1) / 400 - y / 400 == (if year % 400 == 0 then 1 else 0);
  }

  /** Counting off years gives the year and day of the Gregorian calendar. */
  lemma {:induction false} YearIsGregorian(year: int, days: nat)
    ensures var r := YearAndDay(year, days); DaysBefore(r.0) + r.1 == DaysBefore(year) + days
    decreases days
  {
    hide DaysInYear, DaysBefore;
    if days >= DaysInYear(year) {
      YearLength(year);
      YearIsGregorian(year + 1, days - DaysInYear(year));
    }
  }

  predicate LexLess(a: seq<int>, b: seq<int>)
    requires |a| == |b|
  {
    a != [] && (a[0] < b[0] || (a[0] == b[0] && LexLess(a[1..], b[1..])))
  }

  lemma {:induction false} YearsInOrder(year: int, d: nat, e: nat)
    requires d < e
    ensures var a, b := YearAndDay(year, d), YearAndDay(year, e);
            a.0 < b.0 || (a.0 == b.0 && a.1 < b.1)
    decreases d
  {
    hide DaysInYear;
    if d >= DaysInYear(year) {
      YearsInOrder(year + 1, d - DaysInYear(year), e - DaysInYear(year));
    }
  }

  lemma {:induction false} MonthsInOrder(year: int, month: int, d: nat, e: nat)
    requires 1 <= month <= 12 && d < e < DaysFrom(year, month)
    ensures var a, b := MonthAndDay(year, month, d), MonthAndDay(year, month, e);
            a.0 < b.0 || (a.0 == b.0 && a.1 < b.1)
    decreases 12 - month
  {
    if d >= DaysInMonth(year, month) {
      MonthsInOrder(year, month + 1, d - DaysInMonth(year, month), e - DaysInMonth(year, month));
    }
  }

  /** Year, month, day, hour, minute, second. */
  function DateFields(seconds: nat): (r: seq<int>)
    ensures |r| == 6
    ensures r[0] >= 1 && 1 <= r[1] <= 12 && 1 <= r[2] <= 31 && 0 <= r[3] < 24 && 0 <= r[4] < 60 && 0 <= r[5] < 60
    ensures forall i | 1 <= i < 6 :: 0 <= r[i] < 100
  {
    var year := YearAndDay(1, seconds / DAY);
    var month := MonthAndDay(year.0, 1, year.1);
    var clock := seconds % DAY;
    [year.0, month.0, month.1, clock / 3600, clock / 60 % 60, clock % 60]
  }

  lemma ClockInOrder(a: nat, b: nat)
    requires a < b < DAY
    ensures a / 3600 < b / 3600
         || (a / 3600 == b / 3600
             && (a / 60 % 60 < b / 60 % 60 || (a / 60 % 60 == b / 60 % 60 && a % 60 < b % 60)))
  {
    assert a / 3600 == a / 60 / 60 && b / 3600 == b / 60 / 60;
  }

  /** The first position where two field lists differ decides. */
  lemma {:induction false} LexAt(a: seq<int>, b: seq<int>, i: nat)
    requires |a| == |b| && i < |a| && a[i] < b[i] && a[..i] == b[..i]
    ensures LexLess(a, b)
  {
    if i > 0 {
      assert a[0] == a[..i][0] == b[0];
      assert a[1..][..i - 1] == a[..i][1..] && b[1..][..i - 1] == b[..i][1..];
      LexAt(a[1..], b[1..], i - 1);
    }
  }

  lemma SixInOrder(f: seq<int>, g: seq<int>, i: nat)
    requires |f| == |g| == 6 && i < 6 && f[i] < g[i]
    requires forall k | 0 <= k < i :: f[k] == g[k]
    ensures LexLess(f, g)
  {
    LexAt(f, g, i);
  }

  /** Of two different days, the later has the greater date. */
  lemma DaysInOrder(a: nat, b: nat)
    requires a < b
    ensures var y, z := YearAndDay(1, a), YearAndDay(1, b);
            var m, n := MonthAndDay(y.0, 1, y.1), MonthAndDay(z.0, 1, z.1);
            y.0 < z.0 || (y.0 == z.0 && (m.0 < n.0 || (m.0 == n.0 && m.1 < n.1)))
  {
    hide YearAndDay, MonthAndDay, DaysFrom;
    var y, z := YearAndDay(1, a), YearAndDay(1, b);
    YearsInOrder(1, a, b);
    if y.0 == z.0 {
      MonthsInOrder(y.0, 1, y.1, z.1);
    }
  }

  lemma FieldsInOrder(s: nat, t: nat)
    requires s < t
    ensures LexLess(DateFields(s), DateFields(t))
  {
    hide YearAndDay, MonthAndDay, DaysFrom, DaysInYear, LexLess;
    var f, g := DateFields(s), DateFields(t);
    if s / DAY < t / DAY {
      DaysInOrder(s / DAY, t / DAY);
      SixInOrder(f, g, if f[0] < g[0] then 0 else if f[1] < g[1] then 1 else 2);
    } else {
      assert s / DAY == t / DAY;
      ClockInOrder(s % DAY, t % DAY);
      SixInOrder(f, g, if f[3] < g[3] then 3 else if f[4] < g[4] then 4 else 5);
    }
  }

  // -------------------------------------------------------------------------
  // Text
  // -------------------------------------------------------------------------

  function Digit(n: int): char
    requires 0 <= n < 10
  {
    '0' + n as char
  }

  function Pow10(n: nat): nat {
    if n == 0 then 1 else 10 * Pow10(n - 1)
  }

  /** Decimal digits, zero padded to `width`. */
  function Pad(n: nat, width: nat): (s: string)
    ensures |s| == width && forall i | 0 <= i < |s| :: '0' <= s[i] <= '9'
  {
    if width == 0 then "" else Pad(n / 10, width - 1) + [Digit(n % 10)]
  }

  lemma {:induction false} PadInOrder(a: nat, b: nat, width: nat)
    requires a < b < Pow10(width)
    ensures Less(Pad(a, width), Pad(b, width))
  {
    if a / 10 < b / 10 {
      PadInOrder(a / 10, b / 10, width - 1);
      FirstDifference(Pad(a / 10, width - 1), Pad(b / 10, width - 1), [Digit(a % 10)], [Digit(b % 10)]);
    } else {
      assert a / 10 == b / 10;
      CommonPrefix(Pad(a / 10, width - 1), [Digit(a % 10)], [Digit(b % 10)]);
    }
  }

  /** Each number padded to its width and followed by its separator. */
  function FieldsText(values: seq<int>, widths: seq<nat>, separators: seq<string>): string
    requires |values| == |widths| == |separators| && forall i | 0 <= i < |values| :: values[i] >= 0
  {
    if values == [] then ""
    else Pad(values[0], widths[0]) + (separators[0] + FieldsText(values[1..], widths[1..], separators[1..]))
  }

  lemma {:induction false} FieldsTextInOrder(a: seq<int>, b: seq<int>, widths: seq<nat>, separators: seq<string>)
    requires |a| == |b| == |widths| == |separators| && LexLess(a, b)
    requires forall i | 0 <= i < |a| :: 0 <= a[i] < Pow10(widths[i]) && 0 <= b[i] < Pow10(widths[i])
    ensures Less(FieldsText(a, widths, separators), FieldsText(b, widths, separators))
  {
    var x := separators[0] + FieldsText(a[1..], widths[1..], separators[1..]);
    var y := separators[0] + FieldsText(b[1..], widths[1..], separators[1..]);
    if a[0] < b[0] {
      PadInOrder(a[0], b[0], widths[0]);
      FirstDifference(Pad(a[0], widths[0]), Pad(b[0], widths[0]), x, y);
    } else {
      FieldsTextInOrder(a[1..], b[1..], widths[1..], separators[1..]);
      CommonPrefix(separators[0], FieldsText(a[1..], widths[1..], separators[1..]),
                   FieldsText(b[1..], widths[1..], separators[1..]));
      CommonPrefix(Pad(a[0], widths[0]), x, y);
    }
  }

  lemma {:induction false} FieldsTextLength(a: seq<int>, b: seq<int>, widths: seq<nat>, separators: seq<string>)
    requires |a| == |b| == |widths| == |separators|
    requires forall i | 0 <= i < |a| :: a[i] >= 0 && b[i] >= 0
    ensures |FieldsText(a, widths, separators)| == |FieldsText(b, widths, separators)|
  {
    if a != [] {
      FieldsTextLength(a[1..], b[1..], widths[1..], separators[1..]);
    }
  }

  const WIDTHS: seq<nat> := [4, 2, 2, 2, 2, 2]
  const SEPARATORS: seq<string> := ["-", "-", "T", ":", ":", ""]

  /** Date and time up to the seconds. */
  function DateText(seconds: nat): string {
    FieldsText(DateFields(seconds), WIDTHS, SEPARATORS)
  }

  function TrimZeros(s: string): string {
    if s == [] then []
    else
      var rest := TrimZeros(s[1..]);
      if rest == [] && s[0] == '0' then [] else [s[0]] + rest
  }

  /** The digits of the fraction of a second that the format keeps. */
  function FractionDigits(t: Time): string {
    TrimZeros(Pad(t % SECOND, 9))
  }

  function Suffix(digits: string): string {
    if digits == "" then "Z" else "." + (digits + "Z")
  }

  /** The instant is one that Go's JSON encoding accepts and that is not before the zero time. */
  predicate Representable(t: Time) {
    t >= 0 && DateFields(t / SECOND)[0] <= 9999
  }

  /** The text of an instant, as the program writes it of those that are `Representable`: it refuses later years. */
  function Format(t: Time): string
    requires t >= 0
  {
    DateText(t / SECOND) + Suffix(FractionDigits(t))
  }

  // -------------------------------------------------------------------------
  // Order of text and order of time
  // -------------------------------------------------------------------------

  lemma LexHead(a: seq<int>, b: seq<int>)
    requires |a| == |b| && LexLess(a, b)
    ensures a != [] && a[0] <= b[0]
  {
  }

  lemma FieldsFit(f: seq<int>)
    requires |f| == 6 && 0 <= f[0] <= 9999 && forall i | 1 <= i < 6 :: 0 <= f[i] < 100
    ensures forall i | 0 <= i < |f| :: 0 <= f[i] < Pow10(WIDTHS[i])
  {
    assert Pow10(2) == 100 && Pow10(4) == 10_000;
  }

  lemma DateTextInOrder(s: nat, t: nat)
    requires s < t && DateFields(t)[0] <= 9999
    ensures |DateText(s)| == |DateText(t)| && Less(DateText(s), DateText(t))
  {
    hide DateFields, LexLess, FieldsText, Pad;
    var f, g := DateFields(s), DateFields(t);
    FieldsInOrder(s, t);
    LexHead(f, g);
    FieldsFit(f);
    FieldsFit(g);
    hide Pow10;
    FieldsTextLength(f, g, WIDTHS, SEPARATORS);
    FieldsTextInOrder(f, g, WIDTHS, SEPARATORS);
  }

  /** Instants in different whole seconds compare as their texts do. */
  lemma OrderAcrossSeconds(s: Time, t: Time)
    requires s >= 0 && Representable(t) && s / SECOND < t / SECOND
    ensures Less(Format(s), Format(t)) && !AtMost(Format(t), Format(s))
  {
    DateTextInOrder(s / SECOND, t / SECOND);
    FirstDifference(DateText(s / SECOND), DateText(t / SECOND), Suffix(FractionDigits(s)), Suffix(FractionDigits(t)));
    Asymmetric(Format(s), Format(t));
  }

  predicate AllDigits(s: string) {
    forall i | 0 <= i < |s| :: '0' <= s[i] <= '9'
  }

  lemma {:induction false} TrimmedInOrder(a: string, b: string)
    requires |a| == |b| && AllDigits(a) && AllDigits(b) && Less(a, b)
    ensures TrimZeros(b) != [] && AllDigits(TrimZeros(a)) && AllDigits(TrimZeros(b))
    ensures TrimZeros(a) <= TrimZeros(b) ==> Less(TrimZeros(b) + "Z", TrimZeros(a) + "Z")
    ensures !(TrimZeros(a) <= TrimZeros(b)) ==> Less(TrimZeros(a) + "Z", TrimZeros(b) + "Z")
  {
    TrimmedDigits(a);
    TrimmedDigits(b);
    var x, y := TrimZeros(a), TrimZeros(b);
    if a[0] == b[0] {
      TrimmedInOrder(a[1..], b[1..]);
      var x', y' := TrimZeros(a[1..]), TrimZeros(b[1..]);
      assert y == [b[0]] + y';
      if x != [] {
        assert x == [a[0]] + x';
        assert x + "Z" == [a[0]] + (x' + "Z") && y + "Z" == [a[0]] + (y' + "Z");
        CommonPrefix([a[0]], x' + "Z", y' + "Z");
        CommonPrefix([a[0]], y' + "Z", x' + "Z");
        assert x <= y <==> x' <= y' by {
          assert x[1..] == x' && y[1..] == y';
        }
      }
    }
  }

  lemma {:induction false} TrimmedDigits(s: string)
    requires AllDigits(s)
    ensures AllDigits(TrimZeros(s))
    ensures TrimZeros(s) == [] || TrimZeros(s)[0] == s[0]
  {
    if s != [] {
      TrimmedDigits(s[1..]);
    }
  }

  /**
   Inside one second trimming breaks the order: an earlier instant has the earlier text
   exactly when its kept digits are not a prefix of the later one's.
   */
  lemma OrderWithinSecond(s: Time, t: Time)
    requires 0 <= s < t && s / SECOND == t / SECOND
    ensures Less(Format(s), Format(t)) <==> !(FractionDigits(s) <= FractionDigits(t))
    ensures Less(Format(t), Format(s)) <==> FractionDigits(s) <= FractionDigits(t)
  {
    var a, b := FractionDigits(s), FractionDigits(t);
    assert Pow10(9) == SECOND by {
      assert Pow10(5) == 100_000;
    }
    PadInOrder(s % SECOND, t % SECOND, 9);
    TrimmedInOrder(Pad(s % SECOND, 9), Pad(t % SECOND, 9));
    if a != "" {
      CommonPrefix(".", a + "Z", b + "Z");
      CommonPrefix(".", b + "Z", a + "Z");
    }
    CommonPrefix(DateText(s / SECOND), Suffix(a), Suffix(b));
    CommonPrefix(DateText(s / SECOND), Suffix(b), Suffix(a));
    if Less(Format(s), Format(t)) {
      Asymmetric(Format(s), Format(t));
    }
    if Less(Format(t), Format(s)) {
      Asymmetric(Format(t), Format(s));
    }
  }

  /** A tenth of a second later, yet alphabetically earlier: the order of time is not kept. */
  lemma FractionOutOfOrder()
    ensures Less(Format(SECOND + SECOND / 10), Format(SECOND))
  {
    var s, t := SECOND, SECOND + SECOND / 10;
    assert FractionDigits(s) == "" by {
      assert Pad(0, 9) == "000000000";
      assert TrimZeros("000000000"[4..]) == "";
    }
    OrderWithinSecond(s, t);
    assert FractionDigits(s) <= FractionDigits(t);
  }

  /** An expiry found past by its text is less than a second away, and one found future is less than a second gone. */
  lemma PruneWithinSecond(expiresAt: Time, now: Time)
    requires Representable(expiresAt) && Representable(now)
    ensures AtMost(Format(expiresAt), Format(now)) ==> expiresAt < now + SECOND
    ensures !AtMost(Format(expiresAt), Format(now)) ==> expiresAt > now - SECOND
  {
    if expiresAt / SECOND < now / SECOND {
      OrderAcrossSeconds(expiresAt, now);
    } else if now / SECOND < expiresAt / SECOND {
      OrderAcrossSeconds(now, expiresAt);
    }
  }
}
