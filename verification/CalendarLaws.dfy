/** What the calendar means, apart from how it is computed: the epoch, the day after each day, the time
    of day, and the characters of the ISO text. */
module CalendarLaws {
  import opened Digits
  import opened Calendar

  // ---------------------------------------------------------------- the parts of a day number are unique

  lemma {:induction false} YearsGrow(a: int, b: int)
    requires a < b
    ensures DayFromYear(a + 1) <= DayFromYear(b)
    decreases b - a
  {
    if a + 1 < b {
      YearsGrow(a, b - 1);
      YearLength(b - 1);
    }
  }

  lemma YearIs(day: int, year: nat)
    requires year <= 9999 && DayFromYear(0) <= day < DayFromYear(10000)
    requires DayFromYear(year) <= day < DayFromYear(year + 1)
    ensures YearOf(day, 0) == year
  {
    var y := YearOf(day, 0);
    if y < year {
      YearsGrow(y, year);
    } else if year < y {
      YearsGrow(year, y);
    }
  }

  lemma MonthIs(leap: bool, dayOfYear: nat, month: nat)
    requires 1 <= month <= 12 && dayOfYear < MonthStart(leap, 13)
    requires MonthStart(leap, month) <= dayOfYear < MonthStart(leap, month + 1)
    ensures MonthOf(leap, dayOfYear, 1) == month
  {
    var m := MonthOf(leap, dayOfYear, 1);
    MonthsGrow(leap, m, month);
    MonthsGrow(leap, month, m);
  }

  lemma MonthsGrow(leap: bool, a: nat, b: nat)
    requires 1 <= a <= 12 && 1 <= b <= 12
    ensures a < b ==> MonthStart(leap, a + 1) <= MonthStart(leap, b)
  {
  }

  /** The date of a day number, from where its year and month begin. */
  lemma DateIs(t: Millis, year: nat, month: nat)
    requires year <= 9999 && 1 <= month <= 12
    requires var day := t / MILLIS_PER_DAY - DayFromYear(year);
             0 <= day && MonthStart(IsLeap(year), month) <= day < MonthStart(IsLeap(year), month + 1)
    ensures CivilOf(t).year == year && CivilOf(t).month == month
    ensures CivilOf(t).day == 1 + t / MILLIS_PER_DAY - DayFromYear(year) - MonthStart(IsLeap(year), month)
  {
    var day := t / MILLIS_PER_DAY;
    YearLength(year);
    MonthEnds(IsLeap(year), month);
    YearIs(day, year);
    MonthIs(IsLeap(year), day - DayFromYear(year), month);
  }

  lemma MonthEnds(leap: bool, month: nat)
    requires 1 <= month <= 12
    ensures MonthStart(leap, month + 1) <= MonthStart(leap, 13)
    ensures month < 12 ==> MonthStart(leap, month + 1) < MonthStart(leap, month + 2)
  {
  }

  // ---------------------------------------------------------------- the laws

  lemma Epoch()
    ensures CivilOf(0) == Civil(1970, 1, 1, 0, 0, 0, 0)
  {
    assert DayFromYear(1970) == 0;
    DateIs(0, 1970, 1);
  }

  lemma MonthLengths(leap: bool, month: nat)
    requires 1 <= month <= 12
    ensures MonthStart(leap, month + 1) - MonthStart(leap, month)
         == if month == 2 then (if leap then 29 else 28)
            else if month == 4 || month == 6 || month == 9 || month == 11 then 30
            else 31
  {
  }

  lemma SameTimeNextDay(t: int)
    ensures (t + MILLIS_PER_DAY) / MILLIS_PER_DAY == t / MILLIS_PER_DAY + 1
    ensures (t + MILLIS_PER_DAY) % MILLIS_PER_DAY == t % MILLIS_PER_DAY
  {
  }

  /** A day later it is the next day of the month, or the first of the next month, or New Year's Day, at
      the same time: the months have 31, 28, 31, 30, 31, 30, 31, 31, 30, 31, 30 and 31 days, and February
      has 29 in the years divisible by 4, except those divisible by 100 but not by 400. */
  lemma NextDay(t: Millis, next: Millis)
    requires next == t + 86_400_000
    ensures var c, c' := CivilOf(t), CivilOf(next);
            var leap := c.year % 4 == 0 && (c.year % 100 != 0 || c.year % 400 == 0);
            var last := if c.month == 2 then (if leap then 29 else 28)
                        else if c.month == 4 || c.month == 6 || c.month == 9 || c.month == 11 then 30
                        else 31;
            && 1 <= c.month <= 12 && 1 <= c.day <= last
            && (c'.hour, c'.minute, c'.second, c'.milli) == (c.hour, c.minute, c.second, c.milli)
            && (c'.year, c'.month, c'.day)
            == if c.day < last then (c.year, c.month, c.day + 1)
               else if c.month < 12 then (c.year, c.month + 1, 1)
               else (c.year + 1, 1, 1)
  {
    hide CivilOf;
    NextTime(t, next);
    NextDate(t, next);
    MonthLengths(IsLeap(CivilOf(t).year), CivilOf(t).month);
    DayInMonth(t);
  }

  lemma NextTime(t: Millis, next: Millis)
    requires next == t + MILLIS_PER_DAY
    ensures var c, c' := CivilOf(t), CivilOf(next);
            (c'.hour, c'.minute, c'.second, c'.milli) == (c.hour, c.minute, c.second, c.milli)
  {
    SameTimeNextDay(t);
  }

  lemma NextDate(t: Millis, next: Millis)
    requires next == t + MILLIS_PER_DAY
    ensures var c, c' := CivilOf(t), CivilOf(next);
            (c'.year, c'.month, c'.day)
            == if c.day < MonthStart(IsLeap(c.year), c.month + 1) - MonthStart(IsLeap(c.year), c.month)
               then (c.year, c.month, c.day + 1)
               else if c.month < 12 then (c.year, c.month + 1, 1)
               else (c.year + 1, 1, 1)
  {
    hide CivilOf, MonthStart, IsLeap;
    var c := CivilOf(t);
    SameTimeNextDay(t);
    DayInMonth(t);
    if c.day < MonthStart(IsLeap(c.year), c.month + 1) - MonthStart(IsLeap(c.year), c.month) {
      DateIs(next, c.year, c.month);
    } else if c.month < 12 {
      MonthEnds(IsLeap(c.year), c.month);
      DateIs(next, c.year, c.month + 1);
    } else {
      NewYear(t, next);
    }
  }

  lemma DayInMonth(t: Millis)
    ensures var c := CivilOf(t);
            && c.day - 1 == t / MILLIS_PER_DAY - DayFromYear(c.year) - MonthStart(IsLeap(c.year), c.month)
            && c.day <= MonthStart(IsLeap(c.year), c.month + 1) - MonthStart(IsLeap(c.year), c.month)
  {
  }

  lemma NewYear(t: Millis, next: Millis)
    requires next == t + MILLIS_PER_DAY
    requires var c := CivilOf(t); c.month == 12 && c.day == MonthStart(IsLeap(c.year), 13) - MonthStart(IsLeap(c.year), 12)
    ensures CivilOf(next).year == CivilOf(t).year + 1 && CivilOf(next).month == 1 && CivilOf(next).day == 1
  {
    var c := CivilOf(t);
    DayInMonth(t);
    SameTimeNextDay(t);
    YearLength(c.year);
    hide CivilOf, MonthStart, IsLeap, DayFromYear;
    FirstOfYear(next, c.year + 1);
  }

  lemma FirstOfYear(t: Millis, year: nat)
    requires t / MILLIS_PER_DAY == DayFromYear(year) && year <= 10000
    ensures CivilOf(t).year == year && CivilOf(t).month == 1 && CivilOf(t).day == 1
  {
    hide CivilOf, MonthStart, IsLeap, DayFromYear;
    if year < 10000 {
      January(IsLeap(year));
      DateIs(t, year, 1);
    }
  }

  lemma January(leap: bool)
    ensures MonthStart(leap, 1) == 0 && MonthStart(leap, 2) == 31
  {
  }

  /** The time of day: hours, minutes, seconds and milliseconds since midnight. */
  lemma TimeOfDay(t: Millis)
    ensures var c := CivilOf(t);
            && c.hour < 24 && c.minute < 60 && c.second < 60 && c.milli < 1000
            && ((c.hour * 60 + c.minute) * 60 + c.second) * 1000 + c.milli == t % 86_400_000
  {
    var rest := t % MILLIS_PER_DAY;
    var seconds := rest / 1000;
    var minutes := seconds / 60;
    assert rest == seconds * 1000 + rest % 1000;
    assert seconds == minutes * 60 + seconds % 60;
    assert minutes == minutes / 60 * 60 + minutes % 60;
  }

  // ---------------------------------------------------------------- the text

  /** The value of the decimal digit at a place of a text. */
  function DigitAt(s: string, i: nat): int
    requires i < |s|
  {
    s[i] as int - '0' as int
  }

  lemma Field2(n: nat, end: char)
    requires n < 100
    ensures var s := Field(n, 2, end); |s| == 3 && DigitAt(s, 0) * 10 + DigitAt(s, 1) == n && s[2] == end
    ensures forall i :: 0 <= i < 2 ==> '0' <= Field(n, 2, end)[i] <= '9'
  {
    Render2(n);
    hide Render, DigitChar;
    DigitBack(n / 10);
    DigitBack(n % 10);
  }

  lemma DigitBack(d: nat)
    requires d < 10
    ensures '0' <= DigitChar(d) <= '9' && DigitChar(d) as int - '0' as int == d
  {
  }

  lemma Render2(n: nat)
    requires n < 100
    ensures Render(n, 10, 2) == [DigitChar(n / 10), DigitChar(n % 10)]
  {
    var tens := Render(n / 10, 10, 1);
    assert Render(n / 100, 10, 0) == "";
    assert tens == Render(n / 10 / 10, 10, 0) + [DigitChar(n / 10 % 10)];
    assert n / 10 % 10 == n / 10;
  }

  lemma Field3(n: nat, end: char)
    requires n < 1000
    ensures var s := Field(n, 3, end);
            |s| == 4 && DigitAt(s, 0) * 100 + DigitAt(s, 1) * 10 + DigitAt(s, 2) == n && s[3] == end
    ensures forall i :: 0 <= i < 3 ==> '0' <= Field(n, 3, end)[i] <= '9'
  {
    Field2(n / 10, end);
    assert Render(n, 10, 3) == Render(n / 10, 10, 2) + [DigitChar(n % 10)];
    assert Field(n / 10, 2, end) == Render(n / 10, 10, 2) + [end];
  }

  lemma Field4(n: nat, end: char)
    requires n < 10000
    ensures var s := Field(n, 4, end);
            && |s| == 5 && s[4] == end
            && DigitAt(s, 0) * 1000 + DigitAt(s, 1) * 100 + DigitAt(s, 2) * 10 + DigitAt(s, 3) == n
    ensures forall i :: 0 <= i < 4 ==> '0' <= Field(n, 4, end)[i] <= '9'
  {
    Field3(n / 10, end);
    assert Render(n, 10, 4) == Render(n / 10, 10, 3) + [DigitChar(n % 10)];
    assert Field(n / 10, 3, end) == Render(n / 10, 10, 3) + [end];
  }

  /** `YYYY-MM-DDTHH:MM:SS.mmmZ`, place by place. */
  lemma IsoText(t: Millis)
    ensures var s, c := ToIso(t), CivilOf(t);
            && |s| == 24
            && s[4] == '-' && s[7] == '-' && s[10] == 'T' && s[13] == ':' && s[16] == ':' && s[19] == '.' && s[23] == 'Z'
            && DigitAt(s, 0) * 1000 + DigitAt(s, 1) * 100 + DigitAt(s, 2) * 10 + DigitAt(s, 3) == c.year
            && DigitAt(s, 5) * 10 + DigitAt(s, 6) == c.month
            && DigitAt(s, 8) * 10 + DigitAt(s, 9) == c.day
            && DigitAt(s, 11) * 10 + DigitAt(s, 12) == c.hour
            && DigitAt(s, 14) * 10 + DigitAt(s, 15) == c.minute
            && DigitAt(s, 17) * 10 + DigitAt(s, 18) == c.second
            && DigitAt(s, 20) * 100 + DigitAt(s, 21) * 10 + DigitAt(s, 22) == c.milli
  {
    hide Field, CivilOf;
    var c := CivilOf(t);
    Field4(c.year, '-');
    Field2(c.month, '-');
    Field2(c.day, 'T');
    Field2(c.hour, ':');
    Field2(c.minute, ':');
    Field2(c.second, '.');
    Field3(c.milli, 'Z');
  }
}
