/** Civil date and time of an instant, written and read in the ISO 8601 form the device, the handler
    and the verifier exchange. Instants are whole seconds since 1970-01-01T00:00:00 UTC. */
module Calendar {

  import opened Wrappers
  import opened Text

  datatype Civil = Civil(year: nat, month: nat, day: nat, hour: nat, minute: nat, second: nat)
  {
    predicate Valid()
    {
      && 1970 <= year <= 9999 && 1 <= month <= 12 && 1 <= day <= DaysInMonth(year, month)
      && hour < 24 && minute < 60 && second < 60
    }
  }

  predicate Leap(year: nat) { year % 4 == 0 && (year % 100 != 0 || year % 400 == 0) }

  function DaysInMonth(year: nat, month: nat): nat
  {
    if month == 2 then (if Leap(year) then 29 else 28)
    else if month in {4, 6, 9, 11} then 30
    else 31
  }

  /** The dates of the Gregorian calendar from 1970 to 9999, and the times of a day. */
  lemma GregorianDate(c: Civil)
    ensures c.Valid() <==>
              && 1970 <= c.year <= 9999 && 1 <= c.month <= 12 && c.hour <= 23 && c.minute <= 59 && c.second <= 59
              && var february := if c.year % 400 == 0 || (c.year % 4 == 0 && c.year % 100 != 0) then 29 else 28;
              1 <= c.day <= [31, february, 31, 30, 31, 30, 31, 31, 30, 31, 30, 31][c.month - 1]
  {
  }

  function DaysInYear(year: nat): nat { if Leap(year) then 366 else 365 }

  /** Days of the year before the given month. */
  function DaysBefore(year: nat, month: nat): nat
  {
    if month <= 1 then 0 else DaysBefore(year, month - 1) + DaysInMonth(year, month - 1)
  }

  /** Days from 1970-01-01 to the first day of the year. */
  function YearStart(year: nat): nat
  {
    if year <= 1970 then 0 else YearStart(year - 1) + DaysInYear(year - 1)
  }

  function ToInstant(c: Civil): int
  {
    (YearStart(c.year) + DaysBefore(c.year, c.month) + c.day - 1) * 86400 + c.hour * 3600 + c.minute * 60 + c.second
  }

  /** The year a day lies in, and its day of the year. */
  function YearOf(day: nat, year: nat): (r: (nat, nat))
    decreases day
  {
    if day < DaysInYear(year) then (year, day) else YearOf(day - DaysInYear(year), year + 1)
  }

  function MonthOf(dayOfYear: nat, year: nat, month: nat): (r: (nat, nat))
    requires 1 <= month <= 12
    decreases 12 - month
  {
    if dayOfYear < DaysInMonth(year, month) || month == 12 then (month, dayOfYear)
    else MonthOf(dayOfYear - DaysInMonth(year, month), year, month + 1)
  }

  function FromInstant(t: int): Civil
    requires t >= 0
  {
    var (year, dayOfYear) := YearOf(t / 86400, 1970);
    var (month, day) := MonthOf(dayOfYear, year, 1);
    Civil(year, month, day + 1, t % 86400 / 3600, t % 3600 / 60, t % 60)
  }

  /** The last second of the year 9999. */
  const LAST := 253402300799

  lemma {:induction false} YearOfSplits(day: nat, year: nat)
    requires year >= 1970
    ensures var (y, d) := YearOf(day, year);
            y >= year && YearStart(y) + d == YearStart(year) + day && d < DaysInYear(y)
    decreases day
  {
    if day >= DaysInYear(year) {
      YearOfSplits(day - DaysInYear(year), year + 1);
    }
  }

  lemma {:induction false} MonthOfSplits(dayOfYear: nat, year: nat, month: nat)
    requires 1 <= month <= 12
    requires DaysBefore(year, month) + dayOfYear < DaysInYear(year)
    ensures var (m, d) := MonthOf(dayOfYear, year, month);
            month <= m <= 12 && 0 <= d && DaysBefore(year, m) + d == DaysBefore(year, month) + dayOfYear && d < DaysInMonth(year, m)
    decreases 12 - month
  {
    if month == 12 {
      YearIsTwelveMonths(year);
    } else if dayOfYear >= DaysInMonth(year, month) {
      MonthOfSplits(dayOfYear - DaysInMonth(year, month), year, month + 1);
    }
  }

  lemma YearIsTwelveMonths(year: nat)
    ensures DaysBefore(year, 12) + 31 == DaysInYear(year)
  {
    assert DaysBefore(year, 2) == 31;
    assert DaysBefore(year, 4) == 62 + DaysInMonth(year, 2);
    assert DaysBefore(year, 6) == 123 + DaysInMonth(year, 2);
    assert DaysBefore(year, 8) == 184 + DaysInMonth(year, 2);
    assert DaysBefore(year, 10) == 245 + DaysInMonth(year, 2);
  }

  function LeapsUpTo(year: nat): int { year / 4 - year / 100 + year / 400 }

  lemma {:induction false} YearStartClosedForm(year: nat)
    requires year >= 1970
    ensures YearStart(year) == 365 * (year - 1970) + LeapsUpTo(year - 1) - 477
    decreases year
  {
    if year > 1970 {
      YearStartClosedForm(year - 1);
      LeapStep(year - 1);
    }
  }

  lemma LeapStep(year: nat)
    requires year >= 1
    ensures LeapsUpTo(year) - LeapsUpTo(year - 1) == if Leap(year) then 1 else 0
  {
    FourStep(year);
    HundredStep(year);
    FourHundredStep(year);
    HundredIsFour(year);
  }

  lemma FourStep(n: nat)
    requires n >= 1
    ensures n / 4 - (n - 1) / 4 == if n % 4 == 0 then 1 else 0
  {
  }

  lemma HundredStep(n: nat)
    requires n >= 1
    ensures n / 100 - (n - 1) / 100 == if n % 100 == 0 then 1 else 0
  {
  }

  lemma FourHundredStep(n: nat)
    requires n >= 1
    ensures n / 400 - (n - 1) / 400 == if n % 400 == 0 then 1 else 0
  {
  }

  lemma HundredIsFour(n: nat)
    ensures n % 100 == 0 ==> n % 4 == 0
    ensures n % 400 == 0 ==> n % 100 == 0
  {
    Hundreds(n / 100);
    FourHundreds(n / 400);
  }

  lemma Hundreds(k: nat)
    ensures 100 * k % 4 == 0
  {
  }

  lemma FourHundreds(k: nat)
    ensures 400 * k % 100 == 0
  {
  }

  lemma {:induction false} YearStartGrows(a: nat, b: nat)
    requires 1970 <= a <= b
    ensures YearStart(a) <= YearStart(b)
    decreases b
  {
    if a < b {
      YearStartGrows(a, b - 1);
    }
  }

  /** A day has one date. */
  lemma DateOfDay(day: nat)
    requires day * 86400 <= LAST
    ensures var (year, dayOfYear) := YearOf(day, 1970);
            && 1970 <= year <= 9999
            && var (month, d) := MonthOf(dayOfYear, year, 1);
            1 <= month <= 12 && 0 <= d < DaysInMonth(year, month) && YearStart(year) + DaysBefore(year, month) + d == day
  {
    hide MonthOf, DaysInMonth;
    var (year, dayOfYear) := YearOf(day, 1970);
    YearOfSplits(day, 1970);
    StartOfEpoch(year);
    if year >= 10000 {
      YearStartGrows(10000, year);
      YearStartClosedForm(10000);
      assert false;
    }
    MonthOfSplits(dayOfYear, year, 1);
  }

  lemma StartOfEpoch(year: nat)
    ensures YearStart(1970) == 0 && DaysBefore(year, 1) == 0
  {
  }

  lemma SecondsOfDay(r: int)
    requires 0 <= r < 86400
    ensures r == r / 3600 * 3600 + r % 3600 / 60 * 60 + r % 3600 % 60
    ensures 0 <= r / 3600 < 24 && 0 <= r % 3600 / 60 < 60
  {
  }

  lemma Remainders(t: int)
    requires t >= 0
    ensures t % 86400 % 3600 == t % 3600 && t % 3600 % 60 == t % 60
  {
  }

  /** Breaking an instant into a civil time loses nothing. */
  lemma CivilOfInstant(t: int)
    requires 0 <= t <= LAST
    ensures FromInstant(t).Valid() && ToInstant(FromInstant(t)) == t
  {
    hide YearStart, YearOf, MonthOf, DaysBefore, DaysInMonth;
    DateOfDay(t / 86400);
    SecondsOfDay(t % 86400);
    Remainders(t);
    var c := FromInstant(t);
    assert YearStart(c.year) + DaysBefore(c.year, c.month) + c.day - 1 == t / 86400;
    assert c.hour * 3600 + c.minute * 60 + c.second == t % 86400;
    assert t / 86400 * 86400 + t % 86400 == t;
    InstantOf(c, t / 86400, t % 86400);
  }

  lemma InstantOf(c: Civil, day: int, seconds: int)
    requires YearStart(c.year) + DaysBefore(c.year, c.month) + c.day - 1 == day
    requires c.hour * 3600 + c.minute * 60 + c.second == seconds
    ensures ToInstant(c) == day * 86400 + seconds
  {
  }

  // ---- text --------------------------------------------------------------------------

  predicate Numeral(s: string, width: nat) { |s| == width && AllDigits(s) }

  /** Three numerals, the first of the given width, the others of two digits. */
  function ParseThree(s: string, width: nat, sep: char): Option<(nat, nat, nat)>
  {
    var parts := Split(s, sep);
    if |parts| == 3 && Numeral(parts[0], width) && Numeral(parts[1], 2) && Numeral(parts[2], 2)
    then Some((DigitsValue(parts[0]), DigitsValue(parts[1]), DigitsValue(parts[2])))
    else None
  }

  lemma JoinThree(a: string, b: string, c: string, sep: char)
    ensures Join([a, b, c], sep) == a + [sep] + (b + [sep] + c)
  {
    assert [a, b, c][1..] == [b, c] && [b, c][1..] == [c];
    assert Join([b, c], sep) == b + [sep] + Join([c], sep);
  }

  lemma NumeralsParse(a: nat, b: nat, c: nat, width: nat, sep: char)
    requires a < Pow10(width) && b < 100 && c < 100 && !IsDigit(sep)
    ensures var text := Join([PadNat(a, width), PadNat(b, 2), PadNat(c, 2)], sep);
            && ParseThree(text, width, sep) == Some((a, b, c)) && |text| == width + 6
            && forall x :: x in text ==> IsDigit(x) || x == sep
  {
    assert Pow10(2) == 100;
    PadNatParses(a, width);
    PadNatParses(b, 2);
    PadNatParses(c, 2);
    hide Join, PadNat, Split;
    ThreeParse([PadNat(a, width), PadNat(b, 2), PadNat(c, 2)], width, sep);
    ThreeChars(PadNat(a, width), PadNat(b, 2), PadNat(c, 2), sep);
  }

  lemma ThreeParse(parts: seq<string>, width: nat, sep: char)
    requires |parts| == 3 && Numeral(parts[0], width) && Numeral(parts[1], 2) && Numeral(parts[2], 2) && !IsDigit(sep)
    ensures ParseThree(Join(parts, sep), width, sep)
            == Some((DigitsValue(parts[0]), DigitsValue(parts[1]), DigitsValue(parts[2])))
  {
    hide Join, Split;
    forall i | 0 <= i < |parts| ensures sep !in parts[i] {
      assert AllDigits(parts[i]);
    }
    SplitJoin(parts, sep);
  }

  lemma ThreeChars(a: string, b: string, c: string, sep: char)
    requires AllDigits(a) && Numeral(b, 2) && Numeral(c, 2)
    ensures |Join([a, b, c], sep)| == |a| + 6
    ensures forall x :: x in Join([a, b, c], sep) ==> IsDigit(x) || x == sep
  {
    hide Join;
    JoinThree(a, b, c, sep);
  }

  function PrintDate(c: Civil): string { Join([PadNat(c.year, 4), PadNat(c.month, 2), PadNat(c.day, 2)], '-') }

  function PrintTime(c: Civil): string { Join([PadNat(c.hour, 2), PadNat(c.minute, 2), PadNat(c.second, 2)], ':') }

  /** YYYY-MM-DDTHH:MM:SS */
  function PrintCivil(c: Civil): string { PrintDate(c) + ['T'] + PrintTime(c) }

  function ParseCivil(s: string): Option<Civil>
  {
    if |s| != 19 || s[10] != 'T' then None
    else
      match (ParseThree(s[..10], 4, '-'), ParseThree(s[11..], 2, ':'))
      case (Some((year, month, day)), Some((hour, minute, second))) =>
        var c := Civil(year, month, day, hour, minute, second);
        if c.Valid() then Some(c) else None
      case _ => None
  }

  predicate CivilChar(x: char) { IsDigit(x) || x == '-' || x == ':' || x == 'T' }

  lemma PrintCivilParses(c: Civil)
    requires c.Valid()
    ensures ParseCivil(PrintCivil(c)) == Some(c)
    ensures |PrintCivil(c)| == 19
    ensures forall x :: x in PrintCivil(c) ==> CivilChar(x)
  {
    hide PadNat, Join;
    assert Pow10(4) == 10000 && Pow10(2) == 100;
    NumeralsParse(c.year, c.month, c.day, 4, '-');
    NumeralsParse(c.hour, c.minute, c.second, 2, ':');
    var date, time, s := PrintDate(c), PrintTime(c), PrintCivil(c);
    assert s[..10] == date && s[11..] == time;
  }

  /** "+HH:MM" for the offsets the device uses. */
  function PrintOffset(offset: int): string
    requires 0 <= offset < 86400
  {
    ['+'] + Join([PadNat(offset / 3600, 2), PadNat(offset % 3600 / 60, 2)], ':')
  }

  function ParseOffset(s: string): Option<int>
  {
    if |s| != 6 || s[0] != '+' then None
    else
      var parts := Split(s[1..], ':');
      if |parts| == 2 && Numeral(parts[0], 2) && Numeral(parts[1], 2)
      then Some(DigitsValue(parts[0]) * 3600 + DigitsValue(parts[1]) * 60)
      else None
  }

  lemma OffsetParses(offset: int)
    requires 0 <= offset < 86400 && offset % 60 == 0
    ensures ParseOffset(PrintOffset(offset)) == Some(offset)
  {
    var parts := [PadNat(offset / 3600, 2), PadNat(offset % 3600 / 60, 2)];
    assert Pow10(2) == 100;
    PadNatParses(offset / 3600, 2);
    PadNatParses(offset % 3600 / 60, 2);
    SplitJoin(parts, ':');
    assert Join(parts, ':') == parts[0] + [':'] + parts[1];
    assert PrintOffset(offset)[1..] == Join(parts, ':');
  }

  /** log_time.isoformat(timespec="seconds") at the given offset. */
  function PrintStamp(t: int, offset: int): string
    requires 0 <= offset < 86400 && t + offset >= 0
  {
    PrintCivil(FromInstant(t + offset)) + PrintOffset(offset)
  }

  /** isoparse of such a text: the instant it denotes. */
  function ParseStamp(s: string): Option<int>
  {
    if |s| < 19 then None
    else
      match (ParseCivil(s[..19]), ParseOffset(s[19..]))
      case (Some(c), Some(offset)) => Some(ToInstant(c) - offset)
      case _ => None
  }

  lemma StampParses(civil: string, offset: string)
    requires |civil| == 19 && ParseCivil(civil).Some? && ParseOffset(offset).Some?
    ensures ParseStamp(civil + offset) == Some(ToInstant(ParseCivil(civil).value) - ParseOffset(offset).value)
  {
    assert (civil + offset)[..19] == civil && (civil + offset)[19..] == offset;
  }

  /** The printed civil time of an instant is read back as that instant. */
  lemma CivilTextParses(t: int)
    requires 0 <= t <= LAST
    ensures var text := PrintCivil(FromInstant(t));
            && |text| == 19 && (forall x :: x in text ==> CivilChar(x))
            && ParseCivil(text).Some? && ToInstant(ParseCivil(text).value) == t
  {
    CivilOfInstant(t);
    PrintCivilParses(FromInstant(t));
  }

  lemma PrintStampParses(t: int, offset: int)
    requires 0 <= offset < 86400 && offset % 60 == 0 && 0 <= t && t + offset <= LAST
    ensures ParseStamp(PrintStamp(t, offset)) == Some(t)
  {
    hide PrintCivil, PrintOffset, FromInstant, ParseStamp;
    CivilTextParses(t + offset);
    OffsetParses(offset);
    StampParses(PrintCivil(FromInstant(t + offset)), PrintOffset(offset));
  }

  /** The handler's rewriting of a log time: to UTC, in ISO form, without the offset, with ".000Z". */
  function UtcText(logTime: string): Option<string>
  {
    match ParseStamp(logTime)
    case Some(t) =>
      if t < 0 then None
      else Some(Split(PrintCivil(FromInstant(t)) + "+00:00", '+')[0] + ".000Z")
    case None => None
  }

  /** The verifier's reading of such a text. */
  function InstantOfUtcText(s: string): Option<int>
  {
    match ParseCivil(Split(s, '.')[0])
    case Some(c) => Some(ToInstant(c))
    case None => None
  }

  /** From the device's clock through the offset text, the handler and the verifier: the same second. */
  lemma LogTimeSurvives(t: int, offset: int)
    requires 0 <= offset < 86400 && offset % 60 == 0 && 0 <= t && t + offset <= LAST
    ensures var text := UtcText(PrintStamp(t, offset));
            text.Some? && InstantOfUtcText(text.value) == Some(t) && ';' !in text.value
  {
    PrintStampParses(t, offset);
    CivilTextParses(t);
    UtcTextParts(PrintCivil(FromInstant(t)));
  }

  lemma UtcTextParts(iso: string)
    requires forall x :: x in iso ==> CivilChar(x)
    ensures Split(iso + "+00:00", '+')[0] == iso
    ensures Split(iso + ".000Z", '.')[0] == iso
    ensures ';' !in iso + ".000Z"
  {
    assert iso + "+00:00" == iso + ['+'] + "00:00";
    SplitAtFirst(iso, "00:00", '+');
    assert iso + ".000Z" == iso + ['.'] + "000Z";
    SplitAtFirst(iso, "000Z", '.');
  }
}
