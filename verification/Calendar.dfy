/** Civil dates and timestamps of the token reports (`src/token_metrics.rs`). */
module Calendar {
  import opened Decimal
  import Text

  predicate IsLeap(y: nat) {
    (y % 4 == 0 && y % 100 != 0) || y % 400 == 0
  }

  function DaysInYear(y: nat): nat {
    if IsLeap(y) then 366 else 365
  }

  /** The month table of the source, January first. */
  function MonthDays(y: nat): (s: seq<nat>)
    ensures |s| == 12
  {
    if IsLeap(y) then [31, 29, 31, 30, 31, 30, 31, 31, 30, 31, 30, 31]
    else [31, 28, 31, 30, 31, 30, 31, 31, 30, 31, 30, 31]
  }

  datatype Date = Date(year: nat, month: nat, day: nat)

  /** A Gregorian date from 1970 on: section 5.7 and Appendix C of RFC 3339. */
  predicate ValidDate(d: Date) {
    d.year >= 1970 && 1 <= d.month <= 12 && 1 <= d.day <= MonthDays(d.year)[d.month - 1]
  }

  // ── Counting back to 1970-01-01 ───────────────────────────────────────────

  function DaysBeforeYear(y: nat): nat {
    if y <= 1970 then 0 else DaysBeforeYear(y - 1) + DaysInYear(y - 1)
  }

  function DaysBeforeMonth(y: nat, m: nat): nat
    requires 1 <= m <= 13
  {
    if m == 1 then 0 else DaysBeforeMonth(y, m - 1) + MonthDays(y)[m - 2]
  }

  /** Days from 1970-01-01 to `d`. */
  function DayNumber(d: Date): nat
    requires ValidDate(d)
  {
    DaysBeforeYear(d.year) + DaysBeforeMonth(d.year, d.month) + d.day - 1
  }

  /** Leap years from year 1 through `y`, by the Gregorian rule. */
  function LeapYearsThrough(y: nat): int {
    y / 4 - y / 100 + y / 400
  }

  lemma LeapYearStep(y: nat)
    requires y >= 1
    ensures LeapYearsThrough(y) == LeapYearsThrough(y - 1) + if IsLeap(y) then 1 else 0
  {
    QuotientStep(y, 4);
    QuotientStep(y, 100);
    QuotientStep(y, 400);
    Divides(y, 4, 25);
    Divides(y, 100, 4);
  }

  lemma Divides(y: nat, a: nat, b: nat)
    requires a > 0 && b > 0
    ensures y % (a * b) == 0 ==> y % a == 0
  {
    if y % (a * b) == 0 {
      var q := y / (a * b);
      assert y == a * (b * q) by { assert y == (a * b) * q; }
      QuotientUnique(y, a, b * q, 0);
    }
  }

  lemma QuotientStep(y: nat, k: nat)
    requires y >= 1 && k >= 2
    ensures y / k == (y - 1) / k + if y % k == 0 then 1 else 0
  {
    var q, r := y / k, y % k;
    assert y == k * q + r;
    if r == 0 {
      assert y - 1 == k * (q - 1) + (k - 1);
      QuotientUnique(y - 1, k, q - 1, k - 1);
    } else {
      QuotientUnique(y - 1, k, q, r - 1);
    }
  }

  lemma QuotientUnique(n: int, k: nat, q: int, r: nat)
    requires k > 0 && r < k && n == k * q + r
    ensures n / k == q
  {
    var d, e := n / k, n % k;
    assert k * (q - d) == e - r by { assert n == k * d + e; }
    SmallMultiple(k, q - d);
  }

  lemma SmallMultiple(k: int, x: int)
    requires k > 0 && -k < k * x < k
    ensures x == 0
  {
    assert x != 0 ==> k * x >= k || k * x <= -k;
  }

  /** The year loop's running total has the closed form of the Gregorian calendar. */
  lemma {:induction false} DaysBeforeYearClosed(y: nat)
    requires y >= 1970
    ensures DaysBeforeYear(y) == 365 * (y - 1970) + LeapYearsThrough(y - 1) - LeapYearsThrough(1969)
  {
    if y > 1970 {
      DaysBeforeYearClosed(y - 1);
      LeapYearStep(y - 1);
    }
  }

  // ── The conversion ────────────────────────────────────────────────────────

  /** The date `days` days after 1970-01-01. */
  method EpochDaysToYmd(days0: nat) returns (year: nat, month: nat, day: nat)
    ensures ValidDate(Date(year, month, day))
    ensures DayNumber(Date(year, month, day)) == days0
  {
    var days := days0;
    year := 1970;
    var dy := DaysInYear(year);
    while days >= dy
      invariant year >= 1970 && dy == DaysInYear(year)
      invariant DaysBeforeYear(year) + days == days0
      decreases days
    {
      days := days - dy;
      year := year + 1;
      dy := DaysInYear(year);
    }
    var monthDays := MonthDays(year);
    month := 1;
    WholeYear(year);
    while month <= 12 && days >= monthDays[month - 1]
      invariant 1 <= month <= 13
      invariant DaysBeforeYear(year) + DaysBeforeMonth(year, month) + days == days0
      invariant DaysBeforeMonth(year, month) + days < DaysInYear(year)
    {
      days := days - monthDays[month - 1];
      month := month + 1;
    }
    day := days + 1;
  }

  /** The twelve months make up the year, so the month loop stops inside the table. */
  lemma WholeYear(y: nat)
    ensures DaysBeforeMonth(y, 13) == DaysInYear(y)
  {
    assert DaysBeforeMonth(y, 3) == 31 + MonthDays(y)[1] by { assert DaysBeforeMonth(y, 2) == 31; }
    assert DaysBeforeMonth(y, 5) == DaysBeforeMonth(y, 3) + 61 by { assert DaysBeforeMonth(y, 4) == DaysBeforeMonth(y, 3) + 31; }
    assert DaysBeforeMonth(y, 7) == DaysBeforeMonth(y, 5) + 61 by { assert DaysBeforeMonth(y, 6) == DaysBeforeMonth(y, 5) + 31; }
    assert DaysBeforeMonth(y, 9) == DaysBeforeMonth(y, 7) + 62 by { assert DaysBeforeMonth(y, 8) == DaysBeforeMonth(y, 7) + 31; }
    assert DaysBeforeMonth(y, 11) == DaysBeforeMonth(y, 9) + 61 by { assert DaysBeforeMonth(y, 10) == DaysBeforeMonth(y, 9) + 30; }
    assert DaysBeforeMonth(y, 12) == DaysBeforeMonth(y, 11) + 30;
  }

  /** Earlier in the calendar. */
  predicate Before(a: Date, b: Date) {
    || a.year < b.year
    || (a.year == b.year && (a.month < b.month || (a.month == b.month && a.day < b.day)))
  }

  lemma {:induction false} YearsApart(a: nat, b: nat)
    requires 1970 <= a < b
    ensures DaysBeforeYear(a) + DaysInYear(a) <= DaysBeforeYear(b)
  {
    if a < b - 1 {
      YearsApart(a, b - 1);
    }
  }

  lemma {:induction false} MonthsApart(y: nat, a: nat, b: nat)
    requires 1 <= a < b <= 13
    ensures DaysBeforeMonth(y, a) + MonthDays(y)[a - 1] <= DaysBeforeMonth(y, b)
  {
    if a < b - 1 {
      MonthsApart(y, a, b - 1);
    }
  }

  /** Counting days back keeps the calendar's order. */
  lemma DayNumberKeepsOrder(a: Date, b: Date)
    requires ValidDate(a) && ValidDate(b) && Before(a, b)
    ensures DayNumber(a) < DayNumber(b)
  {
    if a.year < b.year {
      YearsApart(a.year, b.year);
      MonthsApart(a.year, a.month, 13);
      WholeYear(a.year);
    } else if a.month < b.month {
      MonthsApart(a.year, a.month, b.month);
    }
  }

  /** No two dates share a day count: the conversion's contract admits one result only, and
      converting the count of a valid date gives that date back. */
  lemma DayNumberInjective(a: Date, b: Date)
    requires ValidDate(a) && ValidDate(b) && DayNumber(a) == DayNumber(b)
    ensures a == b
  {
    if Before(a, b) {
      DayNumberKeepsOrder(a, b);
    } else if Before(b, a) {
      DayNumberKeepsOrder(b, a);
    }
  }

  /** Every day count has a date (the conversion finds it). */
  lemma {:induction false} DateExists(days: nat) returns (d: Date)
    ensures ValidDate(d) && DayNumber(d) == days
  {
    if days == 0 {
      d := Date(1970, 1, 1);
    } else {
      var p := DateExists(days - 1);
      WholeYear(p.year);
      if p.day < MonthDays(p.year)[p.month - 1] {
        d := Date(p.year, p.month, p.day + 1);
      } else if p.month < 12 {
        d := Date(p.year, p.month + 1, 1);
      } else {
        d := Date(p.year + 1, 1, 1);
      }
    }
  }

  /** The date of a day count. */
  ghost function DateOf(days: nat): (d: Date)
    ensures ValidDate(d) && DayNumber(d) == days
  {
    assert exists d :: ValidDate(d) && DayNumber(d) == days by {
      var d := DateExists(days);
    }
    var d :| ValidDate(d) && DayNumber(d) == days;
    d
  }

  // ── Timestamps ────────────────────────────────────────────────────────────

  /** `{year:04}-{month:02}-{day:02}T{h:02}:{m:02}:{s:02}Z`: section 5.6 of RFC 3339. */
  function IsoText(d: Date, h: nat, m: nat, s: nat): string {
    Padded(d.year, 4) + ("-" + (Padded(d.month, 2) + ("-" + (Padded(d.day, 2) + ("T" + TimeText(h, m, s))))))
  }

  function TimeText(h: nat, m: nat, s: nat): string {
    Padded(h, 2) + (":" + (Padded(m, 2) + (":" + (Padded(s, 2) + "Z"))))
  }

  /** The timestamp of the second `total` after the epoch. */
  ghost function IsoOf(total: nat): string {
    IsoText(DateOf(total / 86400), (total / 3600) % 24, (total / 60) % 60, total % 60)
  }

  method NowIso(totalSecs: nat) returns (text: string)
    ensures text == IsoOf(totalSecs)
  {
    var s := totalSecs % 60;
    var m := (totalSecs / 60) % 60;
    var h := (totalSecs / 3600) % 24;
    var year, month, day := EpochDaysToYmd(totalSecs / 86400);
    DayNumberInjective(Date(year, month, day), DateOf(totalSecs / 86400));
    text := IsoText(Date(year, month, day), h, m, s);
  }

  /** The fields of a timestamp, most significant first, and the width each is printed with. */
  function Widths(): seq<nat> {
    [4, 2, 2, 2, 2, 2]
  }

  function Fields(d: Date, h: nat, m: nat, s: nat): (f: seq<nat>)
    ensures |f| == 6
  {
    [d.year, d.month, d.day, h, m, s]
  }

  /** Lexicographic order on equally long sequences of numbers. */
  predicate FieldsLess(a: seq<nat>, b: seq<nat>)
    requires |a| == |b|
  {
    a != [] && (a[0] < b[0] || (a[0] == b[0] && FieldsLess(a[1..], b[1..])))
  }

  /** Fixed-width fields, each followed by its separator. */
  function Joined(f: seq<nat>, w: seq<nat>, separators: string): string
    requires |f| == |w| == |separators|
  {
    if f == [] then "" else Fixed(f[0], w[0]) + ([separators[0]] + Joined(f[1..], w[1..], separators[1..]))
  }

  lemma {:induction false} JoinedOrder(a: seq<nat>, b: seq<nat>, w: seq<nat>, separators: string)
    requires |a| == |b| == |w| == |separators|
    requires forall i :: 0 <= i < |w| ==> a[i] < Pow10(w[i]) && b[i] < Pow10(w[i])
    ensures Text.Less(Joined(a, w, separators), Joined(b, w, separators)) <==> FieldsLess(a, b)
  {
    if a != [] {
      var x, y := Joined(a[1..], w[1..], separators[1..]), Joined(b[1..], w[1..], separators[1..]);
      JoinedOrder(a[1..], b[1..], w[1..], separators[1..]);
      FixedOrder(a[0], b[0], w[0]);
      Text.LessConcat([separators[0]], [separators[0]], x, y);
      Text.LessConcat(Fixed(a[0], w[0]), Fixed(b[0], w[0]), [separators[0]] + x, [separators[0]] + y);
      assert [separators[0]][1..] == "";
    }
  }

  lemma Powers()
    ensures Pow10(2) == 100 && Pow10(4) == 10000
  {
    assert Pow10(0) == 1 && Pow10(1) == 10 && Pow10(2) == 100 && Pow10(3) == 1000;
  }

  const SEPARATORS := "--T::Z"

  lemma IsoIsJoined(d: Date, h: nat, m: nat, s: nat)
    requires d.year < 10000 && d.month < 100 && d.day < 100 && h < 100 && m < 100 && s < 100
    ensures IsoText(d, h, m, s) == Joined(Fields(d, h, m, s), Widths(), SEPARATORS)
  {
    Powers();
    FixedIsPadded(d.year, 4);
    FixedIsPadded(d.month, 2);
    FixedIsPadded(d.day, 2);
    TimeIsJoined(h, m, s);
    JoinTail([d.day, h, m, s], "T::Z");
    JoinTail([d.month, d.day, h, m, s], "-T::Z");
    var f := Fields(d, h, m, s);
    assert f[1..] == [d.month, d.day, h, m, s] && Widths()[1..] == Twos(5) && SEPARATORS[1..] == "-T::Z";
    assert [d.month, d.day, h, m, s][1..] == [d.day, h, m, s] && "-T::Z"[1..] == "T::Z";
    assert [d.day, h, m, s][1..] == [h, m, s] && "T::Z"[1..] == "::Z";
    assert Joined(f, Widths(), SEPARATORS) == Fixed(d.year, 4) + ("-" + Joined(f[1..], Twos(5), "-T::Z"));
  }

  lemma TimeIsJoined(h: nat, m: nat, s: nat)
    requires h < 100 && m < 100 && s < 100
    ensures TimeText(h, m, s) == Joined([h, m, s], Twos(3), "::Z")
  {
    Powers();
    FixedIsPadded(h, 2);
    FixedIsPadded(m, 2);
    FixedIsPadded(s, 2);
    JoinTail([s], "Z");
    JoinTail([m, s], ":Z");
    JoinTail([h, m, s], "::Z");
    assert [h, m, s][1..] == [m, s] && "::Z"[1..] == ":Z";
    assert [m, s][1..] == [s] && ":Z"[1..] == "Z";
    assert ['Z'] + Joined([s][1..], Twos(0), "Z"[1..]) == "Z";
  }

  function Twos(n: nat): (w: seq<nat>)
    ensures |w| == n
  {
    seq(n, _ => 2)
  }

  lemma JoinTail(f: seq<nat>, separators: string)
    requires f != [] && |f| == |separators|
    ensures Joined(f, Twos(|f|), separators)
            == Fixed(f[0], 2) + ([separators[0]] + Joined(f[1..], Twos(|f| - 1), separators[1..]))
  {
    assert Twos(|f|)[1..] == Twos(|f| - 1);
  }

  lemma DivMod(n: nat, k: nat) returns (q: nat, r: nat)
    requires k > 0
    ensures q == n / k && r == n % k && n == k * q + r && r < k
  {
    q, r := n / k, n % k;
  }

  /** The fields of the second `total` after the epoch. */
  ghost function FieldsOf(total: nat): (f: seq<nat>)
    ensures |f| == 6
  {
    Fields(DateOf(total / 86400), (total / 3600) % 24, (total / 60) % 60, total % 60)
  }

  /** Splitting a second count into its fields keeps the order. */
  lemma FieldsKeepOrder(a: nat, b: nat)
    requires a < b
    ensures FieldsLess(FieldsOf(a), FieldsOf(b))
  {
    var d, e := DateOf(a / 86400), DateOf(b / 86400);
    SplitSeconds(a);
    SplitSeconds(b);
    assert a / 86400 <= b / 86400;
    if a / 86400 < b / 86400 {
      LaterDay(d, e);
      FieldsByDate(d, e, (a / 3600) % 24, (a / 60) % 60, a % 60, (b / 3600) % 24, (b / 60) % 60, b % 60);
    } else {
      DayNumberInjective(d, e);
      FieldsByTime(d, (a / 3600) % 24, (a / 60) % 60, a % 60, (b / 3600) % 24, (b / 60) % 60, b % 60);
    }
  }

  lemma LaterDay(d: Date, e: Date)
    requires ValidDate(d) && ValidDate(e) && DayNumber(d) < DayNumber(e)
    ensures Before(d, e)
  {
    if Before(e, d) {
      DayNumberKeepsOrder(e, d);
    }
  }

  lemma SplitSeconds(t: nat)
    ensures t == 86400 * (t / 86400) + 3600 * ((t / 3600) % 24) + 60 * ((t / 60) % 60) + t % 60
    ensures (t / 3600) % 24 < 24 && (t / 60) % 60 < 60 && t % 60 < 60
  {
    var q60, s := DivMod(t, 60);
    var q3600, m := DivMod(q60, 60);
    assert t / 3600 == q3600 by { QuotientUnique(t, 3600, q3600, 60 * m + s); }
    var q, h := DivMod(q3600, 24);
    assert t / 86400 == q by { QuotientUnique(t, 86400, q, 3600 * h + 60 * m + s); }
  }

  lemma FieldsByDate(d: Date, e: Date, h: nat, m: nat, s: nat, h': nat, m': nat, s': nat)
    requires Before(d, e)
    ensures FieldsLess(Fields(d, h, m, s), Fields(e, h', m', s'))
  {
    var a, b := Fields(d, h, m, s), Fields(e, h', m', s');
    if d.year == e.year {
      if d.month == e.month {
        assert FieldsLess(a[1..][1..], b[1..][1..]);
      }
      assert FieldsLess(a[1..], b[1..]);
    }
  }

  lemma FieldsByTime(d: Date, h: nat, m: nat, s: nat, h': nat, m': nat, s': nat)
    requires m < 60 && s < 60 && m' < 60 && s' < 60
    requires 3600 * h + 60 * m + s < 3600 * h' + 60 * m' + s'
    ensures FieldsLess(Fields(d, h, m, s), Fields(d, h', m', s'))
  {
    var a, b := Fields(d, h, m, s), Fields(d, h', m', s');
    assert FieldsLess([s], [s']) <==> s < s';
    assert FieldsLess([m, s], [m', s']) <==> m < m' || (m == m' && s < s') by {
      assert [m, s][1..] == [s] && [m', s'][1..] == [s'];
    }
    assert FieldsLess([h, m, s], [h', m', s']) by {
      assert [h, m, s][1..] == [m, s] && [h', m', s'][1..] == [m', s'];
    }
    assert a[1..][1..][1..] == [h, m, s] && b[1..][1..][1..] == [h', m', s'];
    assert FieldsLess(a[1..][1..], b[1..][1..]);
    assert FieldsLess(a[1..], b[1..]);
  }

  /** The first second of the year 10000. */
  const YEAR_10000: nat := 253402300800

  lemma DaysBefore10000()
    ensures DaysBeforeYear(10000) == 2932897
  {
    DaysBeforeYearClosed(10000);
  }

  /** Years below 10000 are exactly those of the days before 10000-01-01. */
  lemma FourDigitYears(total: nat)
    ensures DateOf(total / 86400).year < 10000 <==> total < YEAR_10000
  {
    var d := DateOf(total / 86400);
    DaysBefore10000();
    assert total / 86400 < 2932897 <==> total < YEAR_10000;
    if d.year < 10000 {
      YearsApart(d.year, 10000);
      MonthsApart(d.year, d.month, 13);
      WholeYear(d.year);
      assert total / 86400 < 2932897;
    } else {
      if d.year > 10000 {
        YearsApart(10000, d.year);
      }
      assert total / 86400 >= 2932897;
    }
  }

  lemma FieldWidths(total: nat)
    requires total < YEAR_10000
    ensures forall i :: 0 <= i < 6 ==> FieldsOf(total)[i] < Pow10(Widths()[i])
    ensures IsoOf(total) == Joined(FieldsOf(total), Widths(), SEPARATORS)
  {
    var d := DateOf(total / 86400);
    FourDigitYears(total);
    SplitSeconds(total);
    Powers();
    IsoIsJoined(d, (total / 3600) % 24, (total / 60) % 60, total % 60);
  }

  /** Up to the end of the year 9999, timestamps order as the seconds do. */
  lemma IsoKeepsOrder(a: nat, b: nat)
    requires a < b < YEAR_10000
    ensures Text.Less(IsoOf(a), IsoOf(b))
  {
    FieldWidths(a);
    FieldWidths(b);
    FieldsKeepOrder(a, b);
    JoinedOrder(FieldsOf(a), FieldsOf(b), Widths(), SEPARATORS);
  }

  /** The first timestamp with a five-digit year sorts before the last with a four-digit one. */
  lemma FiveDigitYearBreaksOrder()
    ensures Text.Less(IsoOf(YEAR_10000), IsoOf(YEAR_10000 - 1))
  {
    var last, next := DateOf((YEAR_10000 - 1) / 86400), DateOf(YEAR_10000 / 86400);
    FourDigitYears(YEAR_10000 - 1);
    FourDigitYears(YEAR_10000);
    DaysBeforeYearClosed(9999);
    DaysBeforeYearClosed(10001);
    assert last.year == 9999 by {
      if last.year < 9999 {
        YearsApart(last.year, 9999);
        MonthsApart(last.year, last.month, 13);
        WholeYear(last.year);
        assert false;
      }
    }
    assert next.year == 10000 by {
      if next.year > 10000 {
        YearsApart(10000, next.year);
        assert false;
      }
    }
    YearTexts();
    assert IsoOf(YEAR_10000)[0] == '1' && IsoOf(YEAR_10000 - 1)[0] == '9';
  }

  lemma YearTexts()
    ensures Padded(9999, 4)[0] == '9' && Padded(10000, 4)[0] == '1'
  {
    assert Print(9) == "9" && Print(99) == "99" && Print(999) == "999" && Print(9999) == "9999";
    assert Print(1) == "1" && Print(10) == "10" && Print(100) == "100" && Print(1000) == "1000" && Print(10000) == "10000";
  }

  /** Exactly when timestamps sort by time: on all seconds below `bound` iff the year stays below 10000. */
  lemma IsoOrderExact(bound: nat)
    ensures (forall a, b :: 0 <= a < b < bound ==> Text.Less(IsoOf(a), IsoOf(b))) <==> bound <= YEAR_10000
  {
    if bound <= YEAR_10000 {
      forall a, b | 0 <= a < b < bound
        ensures Text.Less(IsoOf(a), IsoOf(b))
      {
        IsoKeepsOrder(a, b);
      }
    } else {
      FiveDigitYearBreaksOrder();
      Text.LessTotal(IsoOf(YEAR_10000 - 1), IsoOf(YEAR_10000));
      assert !Text.Less(IsoOf(YEAR_10000 - 1), IsoOf(YEAR_10000));
    }
  }
}
