/** The civil date of a day counted from 1970-01-01. */
module Calendar {
  import Text

  datatype Date = Date(year: int, month: int, day: int)

  // ----- the calendar of section 3.2.1 of ISO 8601:2004 -----

  predicate IsLeap(year: int) {
    year % 4 == 0 && (year % 100 != 0 || year % 400 == 0)
  }

  function MonthLength(year: int, month: int): int
    requires 1 <= month <= 12
  {
    if month == 2 then (if IsLeap(year) then 29 else 28)
    else if month == 4 || month == 6 || month == 9 || month == 11 then 30
    else 31
  }

  predicate IsDate(d: Date) {
    1 <= d.month <= 12 && 1 <= d.day <= MonthLength(d.year, d.month)
  }

  function NextDay(d: Date): Date
    requires IsDate(d)
  {
    if d.day < MonthLength(d.year, d.month) then d.(day := d.day + 1)
    else if d.month < 12 then Date(d.year, d.month + 1, 1)
    else Date(d.year + 1, 1, 1)
  }

  // ----- the computation -----

  /** Years begin in March and eras of 400 years on 1 March of a year
      divisible by 400. */
  function CivilFromDays(days: nat): Date {
    var z := days + 719_468;
    var era := z / 146_097;
    var doe := z - era * 146_097;
    var yoe := YearOfEra(doe);
    var year := yoe + era * 400;
    var doy := doe - (365 * yoe + yoe / 4 - yoe / 100);
    var mp := (5 * doy + 2) / 153;
    var day := doy - (153 * mp + 2) / 5 + 1;
    var month := if mp < 10 then mp + 3 else mp - 9;
    Date(if month <= 2 then year + 1 else year, month, day)
  }

  function YearOfEra(doe: int): int {
    (doe - doe / 1460 + doe / 36_524 - doe / 146_096) / 365
  }

  function Padded(n: int, width: nat): string {
    var digits := if n >= 0 then Text.Decimal(n) else "-" + Text.Decimal(-n);
    seq(if |digits| < width then width - |digits| else 0, _ => '0') + digits
  }

  function DateFromUnix(seconds: nat): string {
    var d := CivilFromDays(seconds / 86_400);
    Padded(d.year, 4) + "-" + Padded(d.month, 2) + "-" + Padded(d.day, 2)
  }

  // ----- the place of a day in its era -----

  /** Century, four-year cycle, year of the cycle and day of the year. */
  datatype Place = Place(century: int, cycle: int, year: int, day: int)

  predicate IsPlace(p: Place) {
    && 0 <= p.century <= 3
    && 0 <= p.cycle <= 24
    && 0 <= p.year <= 3
    && 0 <= p.day < YearLength(p)
  }

  /** A year of the era that ends in a February of 29 days. */
  predicate LongYear(p: Place) {
    p.year == 3 && (p.cycle != 24 || p.century == 3)
  }

  function YearLength(p: Place): int {
    if LongYear(p) then 366 else 365
  }

  function EraDay(p: Place): int {
    36_524 * p.century + 1461 * p.cycle + 365 * p.year + p.day
  }

  function EraYear(p: Place): int {
    100 * p.century + 4 * p.cycle + p.year
  }

  function PlaceOf(doe: int): Place {
    var century := if doe / 36_524 > 3 then 3 else doe / 36_524;
    var a := doe - 36_524 * century;
    var cycle := a / 1461;
    var b := a - 1461 * cycle;
    var year := if b / 365 > 3 then 3 else b / 365;
    Place(century, cycle, year, b - 365 * year)
  }

  lemma PlaceExists(doe: int)
    requires 0 <= doe < 146_097
    ensures IsPlace(PlaceOf(doe)) && EraDay(PlaceOf(doe)) == doe
  {
  }

  /** The corrections of the year formula cancel. */
  lemma FourYears(p: Place)
    requires IsPlace(p)
    ensures var late := if p.year == 3 && 24 * p.century + p.cycle + p.day >= 365 then 1 else 0;
            EraDay(p) / 1460 == 25 * p.century + p.cycle + late
  {
  }

  lemma Centuries(p: Place)
    requires IsPlace(p)
    ensures EraDay(p) / 36_524 - EraDay(p) / 146_096 == p.century
  {
  }

  lemma YearOfPlace(p: Place)
    requires IsPlace(p)
    ensures 0 <= EraDay(p) < 146_097
    ensures YearOfEra(EraDay(p)) == EraYear(p)
  {
    var doe := EraDay(p);
    var late := if p.year == 3 && 24 * p.century + p.cycle + p.day >= 365 then 1 else 0;
    assert doe / 1460 == 25 * p.century + p.cycle + late by { FourYears(p); }
    assert doe / 36_524 - doe / 146_096 == p.century by { Centuries(p); }
    hide IsPlace;
    assert doe - doe / 1460 + doe / 36_524 - doe / 146_096 == 365 * EraYear(p) + (p.day - late);
  }

  lemma DayOfPlace(p: Place)
    requires IsPlace(p)
    ensures EraYear(p) / 4 == 25 * p.century + p.cycle && EraYear(p) / 100 == p.century
    ensures EraDay(p) - (365 * EraYear(p) + EraYear(p) / 4 - EraYear(p) / 100) == p.day
  {
  }

  /** Month (from March) and day of a day of the year. */
  function MonthDay(doy: int): (int, int) {
    var mp := (5 * doy + 2) / 153;
    (mp, doy - (153 * mp + 2) / 5 + 1)
  }

  function DateAt(era: int, p: Place): Date {
    var (mp, day) := MonthDay(p.day);
    var month := if mp < 10 then mp + 3 else mp - 9;
    var year := EraYear(p) + era * 400;
    Date(if month <= 2 then year + 1 else year, month, day)
  }

  lemma CivilIsPlace(days: nat)
    ensures var z := days + 719_468;
            var era := z / 146_097;
            var doe := z - era * 146_097;
            0 <= doe < 146_097 && IsPlace(PlaceOf(doe)) && CivilFromDays(days) == DateAt(era, PlaceOf(doe))
  {
    var z := days + 719_468;
    var doe := z - z / 146_097 * 146_097;
    PlaceExists(doe);
    YearOfPlace(PlaceOf(doe));
    DayOfPlace(PlaceOf(doe));
  }

  // ----- one day later -----

  function NextPlace(p: Place): Place {
    if p.day + 1 < YearLength(p) then p.(day := p.day + 1)
    else if p.year < 3 then Place(p.century, p.cycle, p.year + 1, 0)
    else if p.cycle < 24 then Place(p.century, p.cycle + 1, 0, 0)
    else Place(p.century + 1, 0, 0, 0)
  }

  const LAST := Place(3, 24, 3, 365)

  lemma PlaceUnique(p: Place, q: Place)
    requires IsPlace(p) && IsPlace(q) && EraDay(p) == EraDay(q)
    ensures p == q
  {
  }

  lemma NextPlaceRight(p: Place)
    requires IsPlace(p) && p != LAST
    ensures IsPlace(NextPlace(p)) && EraDay(NextPlace(p)) == EraDay(p) + 1
  {
  }

  lemma LastDay(p: Place)
    requires IsPlace(p)
    ensures p == LAST <==> EraDay(p) == 146_096
  {
  }

  lemma LeapPeriod(y: int, era: int)
    ensures IsLeap(y + era * 400) <==> IsLeap(y)
  {
    Period400(y, era);
    Period100(y, era * 4);
    Period4(y, era * 100);
  }

  lemma Period400(y: int, k: int)
    ensures (y + 400 * k) % 400 == y % 400
  {
  }

  lemma Period100(y: int, k: int)
    ensures (y + 100 * k) % 100 == y % 100
  {
  }

  lemma Period4(y: int, k: int)
    ensures (y + 4 * k) % 4 == y % 4
  {
  }

  lemma LeapYearOfEra(p: Place)
    requires IsPlace(p)
    ensures IsLeap(EraYear(p) + 1) <==> LongYear(p)
  {
    var y := EraYear(p) + 1;
    var inCycle := p.year + 1;
    var inCentury := 4 * p.cycle + inCycle;
    assert y == 100 * p.century + inCentury && 1 <= inCentury <= 100;
    assert y % 4 == 0 <==> inCycle == 4;
    assert y % 100 == 0 <==> inCentury == 100;
    assert y % 400 == 0 <==> inCentury == 100 && p.century == 3;
  }

  /** The year in which the February of a place's year falls. */
  lemma LeapPlace(era: int, p: Place)
    requires IsPlace(p)
    ensures IsLeap(EraYear(p) + 1 + era * 400) <==> LongYear(p)
  {
    hide IsLeap;
    LeapPeriod(EraYear(p) + 1, era);
    LeapYearOfEra(p);
  }

  /** Where the months of a year that begins in March begin. */
  function MonthStart(mp: int): int {
    (153 * mp + 2) / 5
  }

  lemma MonthOfDay(doy: int)
    requires 0 <= doy <= 365
    ensures var (mp, day) := MonthDay(doy);
            && 0 <= mp <= 11
            && MonthStart(mp) <= doy < MonthStart(mp + 1)
            && day == doy - MonthStart(mp) + 1
  {
  }

  lemma MonthStarts()
    ensures MonthStart(0) == 0 && MonthStart(1) == 31 && MonthStart(2) == 61 && MonthStart(3) == 92
    ensures MonthStart(4) == 122 && MonthStart(5) == 153 && MonthStart(6) == 184 && MonthStart(7) == 214
    ensures MonthStart(8) == 245 && MonthStart(9) == 275 && MonthStart(10) == 306 && MonthStart(11) == 337
    ensures MonthStart(12) == 367
  {
  }

  /** A day's month is the only one it fits in. */
  lemma MonthUnique(doy: int, mp: int)
    requires 0 <= doy <= 365 && 0 <= mp <= 11 && MonthStart(mp) <= doy < MonthStart(mp + 1)
    ensures MonthDay(doy) == (mp, doy - MonthStart(mp) + 1)
  {
    hide MonthStart, MonthDay;
    MonthOfDay(doy);
    MonthStarts();
  }

  lemma DateIsValid(era: int, p: Place)
    requires IsPlace(p)
    ensures IsDate(DateAt(era, p))
  {
    MonthOfDay(p.day);
    MonthStarts();
    LeapPlace(era, p);
  }

  /** Within one year from March on. */
  lemma NextInYear(era: int, p: Place)
    requires IsPlace(p) && p.day + 1 < YearLength(p)
    ensures IsDate(DateAt(era, p)) && DateAt(era, p.(day := p.day + 1)) == NextDay(DateAt(era, p))
  {
    hide IsLeap, MonthStart, MonthDay;
    DateIsValid(era, p);
    MonthOfDay(p.day);
    MonthStarts();
    var mp := MonthDay(p.day).0;
    if p.day + 1 < MonthStart(mp + 1) {
      MonthUnique(p.day + 1, mp);
    } else {
      MonthUnique(p.day + 1, mp + 1);
    }
    LeapPlace(era, p);
  }

  /** From the end of February to 1 March. */
  lemma NextYear(era: int, p: Place)
    requires IsPlace(p) && p.day + 1 == YearLength(p)
    ensures IsDate(DateAt(era, p)) && NextDay(DateAt(era, p)) == Date(EraYear(p) + 1 + era * 400, 3, 1)
  {
    DateIsValid(era, p);
    MonthStarts();
    MonthUnique(p.day, 11);
    LeapPlace(era, p);
  }

  lemma FirstOfMarch(era: int, p: Place)
    requires IsPlace(p) && p.day == 0
    ensures DateAt(era, p) == Date(EraYear(p) + era * 400, 3, 1)
  {
  }

  lemma LastOfYear(p: Place)
    requires IsPlace(p)
    ensures p.day + 1 <= YearLength(p) && (p == LAST ==> p.day + 1 == YearLength(p))
    ensures IsPlace(Place(0, 0, 0, 0))
  {
  }

  lemma YearAfter(p: Place)
    requires IsPlace(p) && p.day + 1 == YearLength(p) && p != LAST
    ensures EraYear(NextPlace(p)) == EraYear(p) + 1 && NextPlace(p).day == 0
  {
    hide YearLength, IsPlace;
    LongOnlyLast(p);
    PlaceRange(p);
    if p.year < 3 {
      assert NextPlace(p) == Place(p.century, p.cycle, p.year + 1, 0);
    } else if p.cycle < 24 {
      assert NextPlace(p) == Place(p.century, p.cycle + 1, 0, 0);
    } else if p.century < 3 {
      assert NextPlace(p) == Place(p.century + 1, 0, 0, 0);
    }
  }

  lemma EraYears()
    ensures EraYear(LAST) == 399 && EraYear(Place(0, 0, 0, 0)) == 0
  {
  }

  lemma PlaceRange(p: Place)
    requires IsPlace(p)
    ensures 0 <= p.century <= 3 && 0 <= p.cycle <= 24 && 0 <= p.year <= 3
  {
  }

  lemma LongOnlyLast(p: Place)
    requires IsPlace(p) && p.day + 1 == YearLength(p)
    ensures p == LAST <==> p.year == 3 && p.cycle == 24 && p.century == 3
  {
  }

  lemma NextPlaceDate(era: int, p: Place)
    requires IsPlace(p)
    ensures IsDate(DateAt(era, p))
    ensures NextDay(DateAt(era, p))
            == if p == LAST then DateAt(era + 1, Place(0, 0, 0, 0)) else DateAt(era, NextPlace(p))
  {
    hide DateAt, IsDate, NextDay, IsPlace, EraYear;
    LastOfYear(p);
    if p.day + 1 < YearLength(p) {
      NextInYear(era, p);
    } else {
      NextYear(era, p);
      if p == LAST {
        EraYears();
        FirstOfMarch(era + 1, Place(0, 0, 0, 0));
      } else {
        YearAfter(p);
        NextPlaceRight(p);
        FirstOfMarch(era, NextPlace(p));
      }
    }
  }

  /** Day 0 is 1 January 1970. */
  lemma EpochDay()
    ensures CivilFromDays(0) == Date(1970, 1, 1)
  {
  }

  /** Every day has a proper date, and the next day has the next date. */
  lemma CivilSuccessor(n: nat)
    ensures IsDate(CivilFromDays(n)) && CivilFromDays(n + 1) == NextDay(CivilFromDays(n))
  {
    hide CivilFromDays, IsDate, NextDay, DateAt, PlaceOf, EraDay, IsPlace, NextPlace;
    var z := n + 719_468;
    var era := z / 146_097;
    var doe := z - era * 146_097;
    CivilIsPlace(n);
    CivilIsPlace(n + 1);
    PlaceExists(doe);
    var p := PlaceOf(doe);
    NextPlaceDate(era, p);
    LastDay(p);
    if p == LAST {
      NextEra(z, era);
      PlaceExists(0);
      FirstPlace();
      PlaceUnique(PlaceOf(0), Place(0, 0, 0, 0));
    } else {
      SameEra(z, era);
      NextPlaceRight(p);
      PlaceExists(doe + 1);
      PlaceUnique(PlaceOf(doe + 1), NextPlace(p));
    }
  }

  lemma FirstPlace()
    ensures IsPlace(Place(0, 0, 0, 0)) && EraDay(Place(0, 0, 0, 0)) == 0
  {
  }

  lemma NextEra(z: int, era: int)
    requires z == era * 146_097 + 146_096
    ensures (z + 1) / 146_097 == era + 1 && z + 1 - (era + 1) * 146_097 == 0
  {
  }

  lemma SameEra(z: int, era: int)
    requires 0 <= z - era * 146_097 < 146_096
    ensures (z + 1) / 146_097 == era
  {
  }

  /** Dates never repeat: a later day has a later date. */
  predicate Earlier(a: Date, b: Date) {
    a.year < b.year || (a.year == b.year && (a.month < b.month || (a.month == b.month && a.day < b.day)))
  }

  lemma {:induction false} LaterDay(m: nat, n: nat)
    requires m < n
    ensures Earlier(CivilFromDays(m), CivilFromDays(n))
    decreases n
  {
    hide CivilFromDays, Earlier, NextDay, IsDate;
    CivilSuccessor(n - 1);
    NextIsLater(CivilFromDays(n - 1));
    if m < n - 1 {
      LaterDay(m, n - 1);
      EarlierTransitive(CivilFromDays(m), CivilFromDays(n - 1), CivilFromDays(n));
    }
  }

  lemma NextIsLater(d: Date)
    requires IsDate(d)
    ensures Earlier(d, NextDay(d))
  {
  }

  lemma EarlierTransitive(a: Date, b: Date, c: Date)
    requires Earlier(a, b) && Earlier(b, c)
    ensures Earlier(a, c)
  {
  }

  // ----- the date as text -----

  lemma {:induction false} ZerosInFront(n: nat, digits: string)
    ensures Text.DecimalValue(seq(n, _ => '0') + digits) == Text.DecimalValue(digits)
    decreases |digits|, n
  {
    var all := seq(n, _ => '0') + digits;
    if digits != "" {
      assert all[..|all| - 1] == seq(n, _ => '0') + digits[..|digits| - 1];
      ZerosInFront(n, digits[..|digits| - 1]);
    } else if n > 0 {
      assert all[..|all| - 1] == seq(n - 1, _ => '0') + "";
      ZerosInFront(n - 1, "");
    } else {
      assert all == "";
    }
  }

  lemma {:induction false} DecimalLength(n: nat)
    ensures n < 10 ==> |Text.Decimal(n)| == 1
    ensures n < 100 ==> |Text.Decimal(n)| <= 2
    ensures n < 1000 ==> |Text.Decimal(n)| <= 3
    ensures n < 10000 ==> |Text.Decimal(n)| <= 4
  {
    if n >= 10 {
      DecimalLength(n / 10);
    }
  }

  lemma PaddedMeaning(n: nat, width: nat)
    requires |Text.Decimal(n)| <= width
    ensures |Padded(n, width)| == width && Text.DecimalValue(Padded(n, width)) == n
  {
    var digits := Text.Decimal(n);
    Text.DecimalRoundTrip(n);
    ZerosInFront(width - |digits|, digits);
    if |digits| == width {
      assert seq(0, _ => '0') + digits == digits;
    }
  }

  lemma DateRange(n: nat)
    ensures var d := CivilFromDays(n); d.year >= 1970 && 1 <= d.month <= 12 && 1 <= d.day <= 31
  {
    hide CivilFromDays;
    CivilSuccessor(n);
    EpochDay();
    if n > 0 {
      LaterDay(0, n);
    }
  }

  /** The text is year, month and day in that order, with four, two and two
      digits, and hyphens between them. */
  lemma DateText(seconds: nat)
    requires CivilFromDays(seconds / 86_400).year <= 9999
    ensures var d, text := CivilFromDays(seconds / 86_400), DateFromUnix(seconds);
            && |text| == 10 && text[4] == '-' && text[7] == '-'
            && Text.DecimalValue(text[..4]) == d.year
            && Text.DecimalValue(text[5..7]) == d.month
            && Text.DecimalValue(text[8..]) == d.day
  {
    hide CivilFromDays, Padded;
    var d := CivilFromDays(seconds / 86_400);
    DateRange(seconds / 86_400);
    DecimalLength(d.year);
    DecimalLength(d.month);
    DecimalLength(d.day);
    PaddedMeaning(d.year, 4);
    PaddedMeaning(d.month, 2);
    PaddedMeaning(d.day, 2);
    var text := DateFromUnix(seconds);
    assert text[..4] == Padded(d.year, 4) && text[5..7] == Padded(d.month, 2) && text[8..] == Padded(d.day, 2);
  }
}
