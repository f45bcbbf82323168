/** Instants and their ISO 8601 text, as `Date.prototype.toISOString` writes it and PostgreSQL
    reads it back.  Instants are microseconds since 1970-01-01T00:00:00Z, the resolution of a
    `timestamptz` column; a JavaScript `Date` keeps only the millisecond. */
module Calendar {
  import opened Wrappers
  import opened Digits

  const MILLIS_PER_DAY := 86_400_000

  /** Leap days before the first day of `year`, counted from year 1 (negative before it). */
  function LeapDaysBefore(year: int): int {
    (year - 1) / 4 - (year - 1) / 100 + (year - 1) / 400
  }

  /** Days from the epoch to the first day of `year` in the proleptic Gregorian calendar. */
  function DayFromYear(year: int): int {
    365 * (year - 1970) + LeapDaysBefore(year) - LeapDaysBefore(1970)
  }

  const MIN_MILLIS: int := DayFromYear(0) * MILLIS_PER_DAY
  const MAX_MILLIS: int := DayFromYear(10000) * MILLIS_PER_DAY

  /** Milliseconds of the years 0 to 9999, the range of four-digit ISO years. */
  type Millis = t: int | MIN_MILLIS <= t < MAX_MILLIS

  /** The first instant of the year 1, the first year PostgreSQL reads. */
  const FIRST_MILLIS: int := DayFromYear(1) * MILLIS_PER_DAY

  /** Microseconds of the years 1 to 9999: what a column holds. */
  type Micros = t: int | FIRST_MILLIS * 1000 <= t < MAX_MILLIS * 1000

  /** The millisecond a JavaScript `Date` keeps of a column value. */
  function ToMillis(t: Micros): Millis {
    assert DayFromYear(0) < DayFromYear(1);
    t / 1000
  }

  predicate MillisExact(t: Micros) {
    t % 1000 == 0
  }

  predicate IsLeap(year: int) {
    year % 4 == 0 && (year % 100 != 0 || year % 400 == 0)
  }

  /** Days of the year before the first of `month`; month 13 stands for the whole year. */
  function MonthStart(leap: bool, month: nat): (d: nat)
    requires 1 <= month <= 13
  {
    [0, 31, 59, 90, 120, 151, 181, 212, 243, 273, 304, 334, 365][month - 1] + if leap && month > 2 then 1 else 0
  }

  function DaysInMonth(leap: bool, month: nat): (d: nat)
    requires 1 <= month <= 12
    ensures 28 <= d <= 31
  {
    MonthStart(leap, month + 1) - MonthStart(leap, month)
  }

  lemma FloorStep(k: int, d: nat)
    requires d == 4 || d == 100 || d == 400
    ensures (k + 1) / d - k / d == if (k + 1) % d == 0 then 1 else 0
  {
  }

  lemma MultipleOf(n: int, d: nat, k: nat)
    requires (d == 100 && k == 4) || (d == 4 && k == 25)
    ensures n % (k * d) == 0 ==> n % d == 0
  {
    if n % (k * d) == 0 {
      var q := n / (k * d);
      assert n == (k * q) * d;
    }
  }

  lemma YearLength(year: int)
    ensures DayFromYear(year + 1) - DayFromYear(year) == MonthStart(IsLeap(year), 13)
  {
    FloorStep(year - 1, 4);
    FloorStep(year - 1, 100);
    FloorStep(year - 1, 400);
    MultipleOf(year, 100, 4);
    MultipleOf(year, 4, 25);
  }

  /** The year of a day, searched upwards from `year`. */
  function YearOf(day: int, year: nat): (y: nat)
    requires year <= 9999
    requires DayFromYear(year) <= day < DayFromYear(10000)
    ensures y <= 9999
    ensures DayFromYear(y) <= day < DayFromYear(y + 1)
    decreases 10000 - year
  {
    if day < DayFromYear(year + 1) then year else YearOf(day, year + 1)
  }

  /** The month of a day of the year, searched upwards from `month`. */
  function MonthOf(leap: bool, dayOfYear: nat, month: nat): (m: nat)
    requires 1 <= month <= 12
    requires MonthStart(leap, month) <= dayOfYear < MonthStart(leap, 13)
    ensures month <= m <= 12
    ensures MonthStart(leap, m) <= dayOfYear < MonthStart(leap, m + 1)
    decreases 13 - month
  {
    if dayOfYear < MonthStart(leap, month + 1) then month else MonthOf(leap, dayOfYear, month + 1)
  }

  datatype Civil = Civil(year: nat, month: nat, day: nat, hour: nat, minute: nat, second: nat, milli: nat)

  /** The calendar fields of an instant. */
  predicate ValidCivil(c: Civil) {
    && c.year <= 9999
    && 1 <= c.month <= 12
    && 1 <= c.day <= DaysInMonth(IsLeap(c.year), c.month)
    && c.hour < 24 && c.minute < 60 && c.second < 60 && c.milli < 1000
  }

  function CivilOf(t: Millis): (c: Civil)
    ensures ValidCivil(c)
  {
    var day, rest := t / MILLIS_PER_DAY, t % MILLIS_PER_DAY;
    var year := YearOf(day, 0);
    YearLength(year);
    var dayOfYear := day - DayFromYear(year);
    var month := MonthOf(IsLeap(year), dayOfYear, 1);
    var seconds := rest / 1000;
    var minutes := seconds / 60;
    Civil(year, month, 1 + dayOfYear - MonthStart(IsLeap(year), month),
          minutes / 60, minutes % 60, seconds % 60, rest % 1000)
  }

  function InstantOf(c: Civil): int
    requires ValidCivil(c)
  {
    (DayFromYear(c.year) + MonthStart(IsLeap(c.year), c.month) + c.day - 1) * MILLIS_PER_DAY
    + c.hour * 3_600_000 + c.minute * 60_000 + c.second * 1000 + c.milli
  }

  lemma InstantOfCivilOf(t: Millis)
    ensures InstantOf(CivilOf(t)) == t
  {
    var rest := t % MILLIS_PER_DAY;
    var seconds := rest / 1000;
    var minutes := seconds / 60;
    assert rest == seconds * 1000 + rest % 1000;
    assert seconds == minutes * 60 + seconds % 60;
    assert minutes == minutes / 60 * 60 + minutes % 60;
  }

  /** A numeral of `width` digits with the character that ends it. */
  function Field(n: nat, width: nat, end: char): (s: string)
    ensures |s| == width + 1
  {
    Render(n, 10, width) + [end]
  }

  function CivilText(c: Civil): (s: string)
    ensures |s| == 24
  {
    Field(c.year, 4, '-') + (Field(c.month, 2, '-') + (Field(c.day, 2, 'T') + (Field(c.hour, 2, ':')
    + (Field(c.minute, 2, ':') + (Field(c.second, 2, '.') + Field(c.milli, 3, 'Z'))))))
  }

  /** `toISOString` */
  function ToIso(t: Millis): (s: string)
    ensures |s| == 24
  {
    CivilText(CivilOf(t))
  }

  /** Reads a numeral and its end character; returns the number and the rest. */
  function ReadField(s: string, width: nat, end: char): Option<(nat, string)> {
    if |s| <= width || s[width] != end then None
    else
      match Read(s[..width], 10)
      case Some(n) => Some((n, s[width + 1..]))
      case None => None
  }

  lemma ReadFieldText(n: nat, width: nat, end: char, rest: string)
    requires n < Power(10, width)
    ensures ReadField(Field(n, width, end) + rest, width, end) == Some((n, rest))
  {
    var s := Field(n, width, end) + rest;
    ReadRender(n, 10, width);
    assert s[..width] == Render(n, 10, width);
    assert s[width + 1..] == rest;
  }

  function ReadTime(s: string): Option<(nat, nat, nat, nat)> {
    match ReadField(s, 2, ':')
    case None => None
    case Some((h, s)) => match ReadField(s, 2, ':')
    case None => None
    case Some((mi, s)) => match ReadField(s, 2, '.')
    case None => None
    case Some((sec, s)) => match ReadField(s, 3, 'Z')
    case None => None
    case Some((ms, s)) => if s == "" then Some((h, mi, sec, ms)) else None
  }

  function ReadCivil(s: string): Option<Civil> {
    match ReadField(s, 4, '-')
    case None => None
    case Some((y, s)) => match ReadField(s, 2, '-')
    case None => None
    case Some((mo, s)) => match ReadField(s, 2, 'T')
    case None => None
    case Some((d, s)) => match ReadTime(s)
    case None => None
    case Some((h, mi, sec, ms)) => Some(Civil(y, mo, d, h, mi, sec, ms))
  }

  /** The instant an ISO text denotes, if it denotes one. */
  function FromIso(s: string): Option<int> {
    match ReadCivil(s)
    case Some(c) => if ValidCivil(c) then Some(InstantOf(c)) else None
    case None => None
  }

  /** The instant the database reads in a timestamp literal of that form: it knows no year 0. */
  function FromLiteral(s: string): Option<int> {
    match ReadCivil(s)
    case Some(c) => if ValidCivil(c) && c.year >= 1 then Some(InstantOf(c)) else None
    case None => None
  }

  lemma ReadTimeText(h: nat, mi: nat, sec: nat, ms: nat)
    requires h < 100 && mi < 100 && sec < 100 && ms < 1000
    ensures ReadTime(Field(h, 2, ':') + (Field(mi, 2, ':') + (Field(sec, 2, '.') + Field(ms, 3, 'Z')))) == Some((h, mi, sec, ms))
  {
    Powers();
    var z := Field(ms, 3, 'Z');
    assert z + "" == z;
    ReadFieldText(ms, 3, 'Z', "");
    ReadFieldText(sec, 2, '.', z);
    ReadFieldText(mi, 2, ':', Field(sec, 2, '.') + z);
    ReadFieldText(h, 2, ':', Field(mi, 2, ':') + (Field(sec, 2, '.') + z));
  }

  lemma ReadCivilText(c: Civil)
    requires ValidCivil(c)
    ensures ReadCivil(CivilText(c)) == Some(c)
  {
    Powers();
    var time := Field(c.hour, 2, ':') + (Field(c.minute, 2, ':') + (Field(c.second, 2, '.') + Field(c.milli, 3, 'Z')));
    ReadTimeText(c.hour, c.minute, c.second, c.milli);
    ReadFieldText(c.day, 2, 'T', time);
    ReadFieldText(c.month, 2, '-', Field(c.day, 2, 'T') + time);
    ReadFieldText(c.year, 4, '-', Field(c.month, 2, '-') + (Field(c.day, 2, 'T') + time));
  }

  /** Reading the text of an instant gives the instant back, for every instant of the years 0 to 9999. */
  lemma FromIsoToIso(t: Millis)
    ensures FromIso(ToIso(t)) == Some(t)
  {
    ReadCivilText(CivilOf(t));
    InstantOfCivilOf(t);
  }

  lemma LeapDaysGrow(year: int)
    requires year >= 1
    ensures LeapDaysBefore(year) >= 0 == LeapDaysBefore(1)
  {
    var n := year - 1;
    assert n / 4 >= n / 100;
  }

  lemma YearZero(t: Millis)
    ensures CivilOf(t).year >= 1 <==> t >= FIRST_MILLIS
  {
    var day := t / MILLIS_PER_DAY;
    var year := CivilOf(t).year;
    assert DayFromYear(year) <= day < DayFromYear(year + 1);
    if year >= 1 {
      LeapDaysGrow(year);
      assert DayFromYear(year) >= DayFromYear(1);
    }
  }

  /** The database reads the text of an instant as that instant exactly if it is not of the year 0. */
  lemma FromLiteralToIso(t: Millis)
    ensures FromLiteral(ToIso(t)) == if t >= FIRST_MILLIS then Some(t) else None
  {
    ReadCivilText(CivilOf(t));
    InstantOfCivilOf(t);
    YearZero(t);
  }
}
