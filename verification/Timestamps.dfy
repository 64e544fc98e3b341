/**
 Canonical timestamps (Time in internal/acmeorder/model.go; section 5.1 of RFC 3339): the accepted
 texts are exactly the printings of the whole seconds from 2020 to 9999, and comparing two of them
 as strings is comparing the moments they name. This is what lets every other module of the project
 compare seconds where the source compares text, with 0 for the empty string.
 */
module Timestamps {
  import opened Common

  datatype Civil = Civil(year: int, month: int, day: int, hour: int, minute: int, second: int)

  // ---- The calendar ----

  predicate Leap(y: int) { y % 4 == 0 && (y % 100 != 0 || y % 400 == 0) }

  function MonthDays(y: int, m: int): int {
    if m == 2 then (if Leap(y) then 29 else 28) else if m in {4, 6, 9, 11} then 30 else 31
  }

  // Days before the first of January of year y, counted from year 1.
  function BeforeYear(y: int): int {
    365 * (y - 1) + (y - 1) / 4 - (y - 1) / 100 + (y - 1) / 400
  }

  function BeforeMonth(y: int, m: int): int
    requires 1 <= m <= 13
    decreases m
  {
    if m == 1 then 0 else BeforeMonth(y, m - 1) + MonthDays(y, m - 1)
  }

  const EPOCH_DAYS := 719162

  predicate Valid(c: Civil) {
    && 1 <= c.month <= 12 && 1 <= c.day <= MonthDays(c.year, c.month)
    && 0 <= c.hour < 24 && 0 <= c.minute < 60 && 0 <= c.second < 60
  }

  function Seconds(c: Civil): int
    requires Valid(c)
  {
    86400 * (BeforeYear(c.year) + BeforeMonth(c.year, c.month) + c.day - 1 - EPOCH_DAYS)
    + 3600 * c.hour + 60 * c.minute + c.second
  }

  predicate InRange(c: Civil) { Valid(c) && 2020 <= c.year <= 9999 }

  // ---- Text ----

  function Digit(n: int): char
    requires 0 <= n <= 9
  { ('0' as int + n) as char }

  function Two(n: int): string
    requires 0 <= n <= 99
  { [Digit(n / 10), Digit(n % 10)] }

  function Four(n: int): string
    requires 0 <= n <= 9999
  { Two(n / 100) + Two(n % 100) }

  // The layout 2006-01-02T15:04:05Z.
  function Print(c: Civil): string
    requires Valid(c) && 0 <= c.year <= 9999
  {
    Four(c.year) + (['-'] + (Two(c.month)
        + (['-'] + (Two(c.day) + (['T']
        + (Two(c.hour) + ([':'] + (Two(c.minute) + ([':'] + (Two(c.second) + ['Z']))))))))))
  }

  predicate IsDigit(c: char) { '0' <= c <= '9' }

  function Number(s: string): int
    requires |s| == 2 && IsDigit(s[0]) && IsDigit(s[1])
  { 10 * (s[0] as int - '0' as int) + (s[1] as int - '0' as int) }

  predicate AllDigits(s: string) { forall c | c in s :: IsDigit(c) }

  predicate Shaped(v: string) {
    && |v| >= 20
    && AllDigits(v[0..4]) && v[4] == '-' && AllDigits(v[5..7]) && v[7] == '-' && AllDigits(v[8..10]) && v[10] == 'T'
    && AllDigits(v[11..13]) && v[13] == ':' && AllDigits(v[14..16]) && v[16] == ':' && AllDigits(v[17..19])
  }

  function Fields(v: string): Civil
    requires Shaped(v)
  {
    Civil(100 * Number(v[0..2]) + Number(v[2..4]), Number(v[5..7]), Number(v[8..10]),
          Number(v[11..13]), Number(v[14..16]), Number(v[17..19]))
  }

  // What may follow the seconds: a zone, after an optional fraction. Offsets are in minutes.
  function Zone(rest: string): Option<int>
    decreases |rest|
  {
    if rest == "Z" then Some(0)
    else if |rest| == 6 && rest[0] in {'+', '-'} && rest[3] == ':' && AllDigits(rest[1..3])
        && AllDigits(rest[4..6]) then
      var offset := 60 * Number(rest[1..3]) + Number(rest[4..6]);
      Some(if rest[0] == '+' then offset else -offset)
    else if |rest| >= 3 && rest[0] in {'.', ','} && IsDigit(rest[1]) then Zone(SkipDigits(rest[1..]))
    else None
  }

  function SkipDigits(s: string): (r: string)
    ensures |r| <= |s| && (s != [] && IsDigit(s[0]) ==> |r| < |s|)
  {
    if s != [] && IsDigit(s[0]) then SkipDigits(s[1..]) else s
  }

  // The whole second a text names.
  function Parse(v: string): Option<int> {
    if !Shaped(v) || !Valid(Fields(v)) || Zone(v[19..]).None? then None
    else Some(Seconds(Fields(v)) - 60 * Zone(v[19..]).value)
  }

  // ---- Seconds are in calendar order ----

  // Lexicographic order of the fields.
  predicate Before(a: Civil, b: Civil) {
    || a.year < b.year
    || (a.year == b.year && (|| a.month < b.month
    || (a.month == b.month && (|| a.day < b.day
    || (a.day == b.day && (|| a.hour < b.hour
    || (a.hour == b.hour && (|| a.minute < b.minute
    || (a.minute == b.minute && a.second < b.second)))))))))
  }

  lemma Fourths(y: int)
    ensures y / 4 == (y - 1) / 4 + if y % 4 == 0 then 1 else 0
  {
  }

  lemma Centuries(y: int)
    ensures y / 100 == (y - 1) / 100 + if y % 100 == 0 then 1 else 0
  {
  }

  lemma FourCenturies(y: int)
    ensures y / 400 == (y - 1) / 400 + if y % 400 == 0 then 1 else 0
    ensures y % 400 == 0 ==> y % 100 == 0
    ensures y % 100 == 0 ==> y % 4 == 0
  {
  }

  lemma YearLength(y: int)
    ensures BeforeYear(y + 1) == BeforeYear(y) + (if Leap(y) then 366 else 365)
  {
    Fourths(y);
    Centuries(y);
    FourCenturies(y);
  }

  lemma {:induction false} YearsAccumulate(a: int, b: int)
    requires a < b
    ensures BeforeYear(a) + 365 + (if Leap(a) then 1 else 0) <= BeforeYear(b)
    decreases b - a
  {
    YearLength(a);
    if a + 1 < b {
      YearsAccumulate(a + 1, b);
    }
  }

  lemma {:induction false} MonthsAccumulate(y: int, a: int, b: int)
    requires 1 <= a < b <= 13
    ensures BeforeMonth(y, a) + MonthDays(y, a) <= BeforeMonth(y, b)
    decreases b - a
  {
    if a + 1 < b {
      MonthsAccumulate(y, a + 1, b);
    }
  }

  lemma YearIsTwelveMonths(y: int)
    ensures BeforeMonth(y, 13) == if Leap(y) then 366 else 365
  {
    assert BeforeMonth(y, 4) == 90 + if Leap(y) then 1 else 0;
    assert BeforeMonth(y, 7) == BeforeMonth(y, 4) + 91;
    assert BeforeMonth(y, 10) == BeforeMonth(y, 7) + 92;
  }

  /** A later date is more seconds away. */
  lemma SecondsFollowCalendar(a: Civil, b: Civil)
    requires Valid(a) && Valid(b) && Before(a, b)
    ensures Seconds(a) < Seconds(b)
  {
    if a.year < b.year {
      YearsAccumulate(a.year, b.year);
      YearIsTwelveMonths(a.year);
      MonthsAccumulate(a.year, a.month, 13);
      if b.month > 1 { MonthsAccumulate(b.year, 1, b.month); }
    } else if a.month < b.month {
      MonthsAccumulate(a.year, a.month, b.month);
    }
  }

  lemma CalendarFollowsSeconds(a: Civil, b: Civil)
    requires Valid(a) && Valid(b)
    ensures Before(a, b) <==> Seconds(a) < Seconds(b)
    ensures a == b <==> Seconds(a) == Seconds(b)
  {
    if Before(a, b) { SecondsFollowCalendar(a, b); }
    else if a != b { SecondsFollowCalendar(b, a); }
  }

  // ---- Text is in calendar order ----

  // Comparison of strings, character by character.
  predicate Less(a: string, b: string) {
    b != [] && (a == [] || a[0] < b[0] || (a[0] == b[0] && Less(a[1..], b[1..])))
  }

  lemma {:induction false} LessConcat(a: string, a': string, b: string, b': string)
    requires |a| == |a'|
    ensures Less(a + b, a' + b') <==> Less(a, a') || (a == a' && Less(b, b'))
  {
    if a == [] {
      assert a + b == b && a' + b' == b';
    } else {
      LessConcat(a[1..], a'[1..], b, b');
      assert (a + b)[1..] == a[1..] + b && (a' + b')[1..] == a'[1..] + b';
    }
  }

  lemma TwoOrder(m: int, n: int)
    requires 0 <= m <= 99 && 0 <= n <= 99
    ensures Less(Two(m), Two(n)) <==> m < n
    ensures Two(m) == Two(n) <==> m == n
  {
    LessConcat([Digit(m / 10)], [Digit(n / 10)], [Digit(m % 10)], [Digit(n % 10)]);
    assert Two(m) == [Digit(m / 10)] + [Digit(m % 10)] && Two(n) == [Digit(n / 10)] + [Digit(n % 10)];
    OneOrder(m / 10, n / 10);
    OneOrder(m % 10, n % 10);
  }

  lemma OneOrder(m: int, n: int)
    requires 0 <= m <= 9 && 0 <= n <= 9
    ensures Less([Digit(m)], [Digit(n)]) <==> m < n
    ensures [Digit(m)] == [Digit(n)] <==> m == n
  {
    assert [Digit(m)][1..] == [] && [Digit(n)][1..] == [];
    assert [Digit(m)][0] == Digit(m) && [Digit(n)][0] == Digit(n);
  }

  lemma FourOrder(m: int, n: int)
    requires 0 <= m <= 9999 && 0 <= n <= 9999
    ensures Less(Four(m), Four(n)) <==> m < n
    ensures Four(m) == Four(n) <==> m == n
  {
    LessConcat(Two(m / 100), Two(n / 100), Two(m % 100), Two(n % 100));
    TwoOrder(m / 100, n / 100);
    TwoOrder(m % 100, n % 100);
    assert Four(m)[..2] == Two(m / 100) && Four(n)[..2] == Two(n / 100);
    assert Four(m)[2..] == Two(m % 100) && Four(n)[2..] == Two(n % 100);
  }

  // A separator and the fields after it.
  lemma AfterSeparator(sep: char, rest: string, rest': string)
    ensures Less([sep] + rest, [sep] + rest') <==> Less(rest, rest')
  {
    LessConcat([sep], [sep], rest, rest');
    assert !Less([sep], [sep]) by { assert [sep][1..] == []; }
  }

  lemma FieldOrder(m: int, n: int, sep: char, rest: string, rest': string)
    requires 0 <= m <= 99 && 0 <= n <= 99
    ensures Less(Two(m) + ([sep] + rest), Two(n) + ([sep] + rest')) <==> m < n || (m == n && Less(rest, rest'))
  {
    hide Two;
    TwoOrder(m, n);
    TwoIsTwo(m);
    TwoIsTwo(n);
    LessConcat(Two(m), Two(n), [sep] + rest, [sep] + rest');
    AfterSeparator(sep, rest, rest');
  }

  lemma TwoIsTwo(n: int)
    requires 0 <= n <= 99
    ensures |Two(n)| == 2
  {
  }

  function Clock(c: Civil): string
    requires Valid(c)
  { Two(c.hour) + ([':'] + (Two(c.minute) + ([':'] + (Two(c.second) + ['Z'])))) }

  function MonthOn(c: Civil): string
    requires Valid(c)
  { Two(c.month) + (['-'] + (Two(c.day) + (['T'] + Clock(c)))) }

  lemma TimeOrder(a: Civil, b: Civil)
    requires Valid(a) && Valid(b)
    ensures Less(Clock(a), Clock(b)) <==>
            a.hour < b.hour || (a.hour == b.hour
                && (a.minute < b.minute || (a.minute == b.minute && a.second < b.second)))
  {
    hide Two, Less;
    FieldOrder(a.hour, b.hour, ':', Two(a.minute) + ([':'] + (Two(a.second) + ['Z'])),
        Two(b.minute) + ([':'] + (Two(b.second) + ['Z'])));
    FieldOrder(a.minute, b.minute, ':', Two(a.second) + ['Z'], Two(b.second) + ['Z']);
    FieldOrder(a.second, b.second, 'Z', [], []);
    assert ['Z'] + [] == ['Z'];
    NothingBelowNothing();
  }

  lemma NothingBelowNothing()
    ensures !Less([], [])
  {
  }

  lemma MonthOnOrder(a: Civil, b: Civil)
    requires Valid(a) && Valid(b)
    ensures Less(MonthOn(a), MonthOn(b)) <==>
            a.month < b.month || (a.month == b.month && (a.day < b.day || (a.day == b.day && Less(Clock(a), Clock(b)))))
  {
    hide Two, Less, Clock;
    FieldOrder(a.month, b.month, '-', Two(a.day) + (['T'] + Clock(a)), Two(b.day) + (['T'] + Clock(b)));
    FieldOrder(a.day, b.day, 'T', Clock(a), Clock(b));
  }

  lemma PrintFollowsCalendar(a: Civil, b: Civil)
    requires InRange(a) && InRange(b)
    ensures Less(Print(a), Print(b)) <==> Before(a, b)
  {
    hide Two, Less;
    assert Print(a) == Four(a.year) + (['-'] + MonthOn(a)) && Print(b) == Four(b.year) + (['-'] + MonthOn(b));
    hide Print, MonthOn, Four;
    FourOrder(a.year, b.year);
    FourIsFour(a.year);
    FourIsFour(b.year);
    LessConcat(Four(a.year), Four(b.year), ['-'] + MonthOn(a), ['-'] + MonthOn(b));
    AfterSeparator('-', MonthOn(a), MonthOn(b));
    MonthOnOrder(a, b);
    TimeOrder(a, b);
  }

  lemma FourIsFour(n: int)
    requires 0 <= n <= 9999
    ensures |Four(n)| == 4
  {
  }

  /** Comparing two accepted texts as strings is comparing the seconds they name; the empty string
      comes before them all, as 0 does. */
  lemma TextOrderIsTimeOrder(a: Civil, b: Civil)
    requires InRange(a) && InRange(b)
    ensures Less(Print(a), Print(b)) <==> Seconds(a) < Seconds(b)
    ensures Print(a) == Print(b) <==> Seconds(a) == Seconds(b)
    ensures Less("", Print(a)) && NONE < Seconds(a)
  {
    hide Print, Seconds;
    PrintFollowsCalendar(a, b);
    PrintFollowsCalendar(b, a);
    PrintFollowsCalendar(a, a);
    CalendarFollowsSeconds(a, b);
    CalendarFollowsSeconds(b, a);
    PrintedIsLater(a);
  }

  lemma PrintedIsLater(a: Civil)
    requires InRange(a)
    ensures Less("", Print(a)) && IsTime(Seconds(a))
  {
    RangeIsTime(a);
  }

  lemma RangeIsTime(a: Civil)
    requires InRange(a)
    ensures IsTime(Seconds(a))
  {
    var first, past := Civil(2020, 1, 1, 0, 0, 0), Civil(10000, 1, 1, 0, 0, 0);
    assert Seconds(first) == YEAR_2020 && Seconds(past) == YEAR_10000;
    if a != first { SecondsFollowCalendar(first, a); }
    SecondsFollowCalendar(a, past);
  }

  lemma YearBounds()
    ensures Seconds(Civil(2020, 1, 1, 0, 0, 0)) == YEAR_2020
    ensures Seconds(Civil(2101, 1, 1, 0, 0, 0)) == YEAR_2101
    ensures Seconds(Civil(10000, 1, 1, 0, 0, 0)) == YEAR_10000
  {
  }

  // ---- Exactly the canonical printings are accepted ----

  // The printing of a moment, wherever its year has four digits.
  ghost predicate Prints(v: string, s: int) {
    exists c: Civil | Valid(c) && 0 <= c.year <= 9999 :: Seconds(c) == s && v == Print(c)
  }

  /** Time: parses, names a year from 2020 to 9999, and prints back to itself in UTC. */
  ghost predicate Time(v: string) {
    && Parse(v).Some? && 2020 <= Fields(v).year <= 9999
    && Prints(v, Parse(v).value)
  }

  lemma TwoReadsBack(n: int)
    requires 0 <= n <= 99
    ensures |Two(n)| == 2 && AllDigits(Two(n)) && Number(Two(n)) == n
  {
  }

  lemma FourReadsBack(n: int)
    requires 0 <= n <= 9999
    ensures |Four(n)| == 4 && AllDigits(Four(n)) && 100 * Number(Four(n)[..2]) + Number(Four(n)[2..]) == n
  {
    TwoReadsBack(n / 100);
    TwoReadsBack(n % 100);
    assert Four(n)[..2] == Two(n / 100) && Four(n)[2..] == Two(n % 100);
  }

  lemma ClockLayout(c: Civil)
    requires Valid(c)
    ensures var v := Clock(c);
            && |v| == 9 && v[0..2] == Two(c.hour) && v[2] == ':' && v[3..5] == Two(c.minute) && v[5] == ':'
            && v[6..8] == Two(c.second) && v[8..] == "Z"
  {
    hide Two;
    TwoIsTwo(c.hour);
    TwoIsTwo(c.minute);
    TwoIsTwo(c.second);
  }

  lemma MonthOnLayout(c: Civil)
    requires Valid(c)
    ensures var v := MonthOn(c);
            && |v| == 15 && v[0..2] == Two(c.month) && v[2] == '-' && v[3..5] == Two(c.day) && v[5] == 'T'
                && v[6..] == Clock(c)
  {
    hide Two, Clock;
    TwoIsTwo(c.month);
    TwoIsTwo(c.day);
    ClockLayout(c);
  }

  lemma PrintLayout(c: Civil)
    requires Valid(c) && 0 <= c.year <= 9999
    ensures var v := Print(c);
            && |v| == 20 && v[0..4] == Four(c.year) && v[4] == '-' && v[5..7] == Two(c.month) && v[7] == '-'
            && v[8..10] == Two(c.day) && v[10] == 'T' && v[11..13] == Two(c.hour) && v[13] == ':'
            && v[14..16] == Two(c.minute) && v[16] == ':' && v[17..19] == Two(c.second) && v[19..] == "Z"
  {
    var v := Print(c);
    assert v == Four(c.year) + (['-'] + MonthOn(c));
    hide Two, Four, Print, Clock, MonthOn;
    FourIsFour(c.year);
    MonthOnLayout(c);
    ClockLayout(c);
    assert v[5..] == MonthOn(c);
    assert v[11..] == MonthOn(c)[6..] == Clock(c);
    assert v[5..7] == MonthOn(c)[0..2] && v[8..10] == MonthOn(c)[3..5];
    assert v[11..13] == Clock(c)[0..2] && v[14..16] == Clock(c)[3..5] && v[17..19] == Clock(c)[6..8];
    assert v[19..] == Clock(c)[8..];
    assert v[13] == v[11..][2] && v[16] == v[11..][5] && v[7] == v[5..][2] && v[10] == v[5..][5];
  }

  lemma PrintParsesBack(c: Civil)
    requires Valid(c) && 0 <= c.year <= 9999
    ensures Shaped(Print(c)) && Fields(Print(c)) == c && Parse(Print(c)) == Some(Seconds(c))
  {
    hide Seconds, Print, Two, Four;
    var v := Print(c);
    PrintLayout(c);
    FourReadsBack(c.year);
    TwoReadsBack(c.month);
    TwoReadsBack(c.day);
    TwoReadsBack(c.hour);
    TwoReadsBack(c.minute);
    TwoReadsBack(c.second);
    assert v[0..2] == Four(c.year)[..2] && v[2..4] == Four(c.year)[2..];
  }

  /** A text is accepted exactly when it is the canonical printing of a date from 2020 to 9999: no
      offset, fraction or lower-case variant of the same moment is. */
  lemma TimeAcceptsExactlyPrintings(v: string)
    ensures Time(v) <==> exists c | InRange(c) :: v == Print(c)
    ensures Time(v) ==> IsTime(Parse(v).value)
  {
    hide Seconds, Print, Shaped, Fields, Parse;
    if Time(v) {
      var c: Civil :| Valid(c) && 0 <= c.year <= 9999 && Seconds(c) == Parse(v).value && v == Print(c);
      PrintParsesBack(c);
      RangeIsTime(c);
    }
    if exists c :: InRange(c) && v == Print(c) {
      var c :| InRange(c) && v == Print(c);
      PrintParsesBack(c);
    }
  }

  // ---- Every second has a printing ----

  function Tick(c: Civil): Civil {
    if c.second < 59 then c.(second := c.second + 1)
    else if c.minute < 59 then c.(minute := c.minute + 1, second := 0)
    else if c.hour < 23 then c.(hour := c.hour + 1, minute := 0, second := 0)
    else if c.day < MonthDays(c.year, c.month) then Civil(c.year, c.month, c.day + 1, 0, 0, 0)
    else if c.month < 12 then Civil(c.year, c.month + 1, 1, 0, 0, 0)
    else Civil(c.year + 1, 1, 1, 0, 0, 0)
  }

  lemma MidnightIsOneDayLater(c: Civil)
    requires Valid(c) && c.hour == 23 && c.minute == 59 && c.second == 59
    ensures Valid(Tick(c))
    ensures var t := Tick(c);
            && t.hour == t.minute == t.second == 0
            && BeforeYear(t.year) + BeforeMonth(t.year, t.month) + t.day == BeforeYear(c.year)
                + BeforeMonth(c.year, c.month) + c.day + 1
  {
    YearIsTwelveMonths(c.year);
    YearLength(c.year);
    hide BeforeYear, Leap;
  }

  lemma TickIsOneSecond(c: Civil)
    requires Valid(c)
    ensures Valid(Tick(c)) && Seconds(Tick(c)) == Seconds(c) + 1
  {
    if c.hour == 23 && c.minute == 59 && c.second == 59 { MidnightIsOneDayLater(c); }
    hide BeforeYear, BeforeMonth;
  }

  /** Every whole second of the years 2020 to 9999 has an accepted text. */
  lemma {:induction false} EverySecondHasAText(s: int) returns (c: Civil)
    requires IsTime(s)
    ensures InRange(c) && Seconds(c) == s
    decreases s
  {
    if s == YEAR_2020 {
      YearBounds();
      c := Civil(2020, 1, 1, 0, 0, 0);
    } else {
      var before := EverySecondHasAText(s - 1);
      TickIsOneSecond(before);
      c := Tick(before);
      YearBounds();
      hide Seconds;
      if c.year > 9999 { PastIsPast(c); }
    }
  }

  lemma PastIsPast(c: Civil)
    requires Valid(c) && c.year > 9999
    ensures Seconds(c) >= YEAR_10000
  {
    YearBounds();
    var past := Civil(10000, 1, 1, 0, 0, 0);
    if c != past { SecondsFollowCalendar(past, c); }
  }
}
