/** Numeric columns of the export: the German grouped text of a decimal value, rounded half up, and the
    pattern the validator holds it against. */
module NumberFormat {

  import opened Wrappers
  import opened Text

  /** (-1)^negative * coefficient / 10^scale */
  datatype Decimal = Decimal(negative: bool, coefficient: nat, scale: nat)

  datatype Error = InvalidOperation

  /** Digits of the default arithmetic context. */
  const PRECISION := 28

  // ---- rounding ----------------------------------------------------------------------

  function HalfUp(coefficient: nat, unit: nat): nat
    requires unit >= 1
  {
    (2 * coefficient + unit) / (2 * unit)
  }

  /** The coefficient of value.quantize(10^-places, ROUND_HALF_UP). */
  function Rounded(value: Decimal, places: nat): nat
  {
    if value.scale <= places then value.coefficient * Pow10(places - value.scale)
    else HalfUp(value.coefficient, Pow10(value.scale - places))
  }

  function Quantize(value: Decimal, places: nat): Result<Decimal, Error>
  {
    var rounded := Rounded(value, places);
    if rounded >= Pow10(PRECISION) then Err(InvalidOperation) else Ok(Decimal(value.negative, rounded, places))
  }

  /** Rounding moves the magnitude by at most half a unit, and up exactly in the middle. */
  lemma HalfUpIsNearest(coefficient: nat, unit: nat)
    requires unit >= 1
    ensures var r := HalfUp(coefficient, unit);
            && 2 * r * unit - unit <= 2 * coefficient < 2 * r * unit + unit
  {
    var r, total := HalfUp(coefficient, unit), 2 * coefficient + unit;
    assert total == r * (2 * unit) + total % (2 * unit);
    assert r * (2 * unit) == 2 * r * unit;
  }

  lemma {:induction false} Pow10Sum(a: nat, b: nat)
    ensures Pow10(a + b) == Pow10(a) * Pow10(b)
  {
    if a > 0 {
      Pow10Sum(a - 1, b);
      assert Pow10(a + b) == 10 * Pow10(a - 1 + b);
      Associate(10, Pow10(a - 1), Pow10(b));
    }
  }

  lemma Associate(a: int, b: int, c: int)
    ensures a * (b * c) == a * b * c
  {
  }

  /** The rounded value differs from the original by at most half a unit in the last place, the middle going
      away from zero, and by nothing where the places suffice. Compared over the common denominator 10^places * 10^scale. */
  lemma RoundingError(value: Decimal, places: nat)
    ensures var exact, rounded := value.coefficient * Pow10(places), Rounded(value, places) * Pow10(value.scale);
            && 2 * rounded - Pow10(value.scale) <= 2 * exact < 2 * rounded + Pow10(value.scale)
            && (value.scale <= places ==> rounded == exact)
  {
    var c := value.coefficient;
    if value.scale <= places {
      Pow10Sum(places - value.scale, value.scale);
      Associate(c, Pow10(places - value.scale), Pow10(value.scale));
    } else {
      var unit, p: int, r: int := Pow10(value.scale - places), Pow10(places), Rounded(value, places);
      Pow10Sum(value.scale - places, places);
      HalfUpIsNearest(c, unit);
      Scale(2 * r * unit - unit, 2 * c, 2 * r * unit + unit, p);
      assert p > 0;
      Expand(r, unit, p, c);
    }
  }

  lemma Scale(low: int, x: int, high: int, p: nat)
    requires low <= x < high && p > 0
    ensures low * p <= x * p < high * p
  {
  }

  lemma Expand(r: int, unit: int, p: int, c: int)
    ensures (2 * r * unit - unit) * p == 2 * (r * (unit * p)) - unit * p
    ensures (2 * r * unit + unit) * p == 2 * (r * (unit * p)) + unit * p
    ensures 2 * c * p == 2 * (c * p)
  {
    Associate(r, unit, p);
    assert (2 * r * unit - unit) * p == 2 * r * unit * p - unit * p;
    assert (2 * r * unit + unit) * p == 2 * r * unit * p + unit * p;
    assert 2 * r * unit * p == 2 * (r * unit * p);
  }

  // ---- printing ----------------------------------------------------------------------

  /** The digits before and after the decimal symbol. */
  function Units(value: Decimal): nat { Quotient(value.coefficient, Pow10(value.scale)) }

  function Fraction(value: Decimal): nat { Remainder(value.coefficient, Pow10(value.scale)) }

  function Quotient(a: nat, b: nat): nat
    requires b >= 1
  {
    a / b
  }

  function Remainder(a: nat, b: nat): nat
    requires b >= 1
  {
    a % b
  }

  lemma UnitsAndFraction(value: Decimal)
    ensures Fraction(value) < Pow10(value.scale)
    ensures value.coefficient == Units(value) * Pow10(value.scale) + Fraction(value)
  {
  }

  /** Digits in groups of three, separated by full stops. */
  function Grouped(n: nat): string
  {
    if n < 1000 then PrintNat(n) else Grouped(n / 1000) + "." + PadNat(n % 1000, 3)
  }

  function Sign(negative: bool): string { if negative then "-" else "" }

  /** "{:,.<places>f}" with the two separators exchanged. */
  function PrintDecimal(value: Decimal): string
    requires value.scale > 0
  {
    Sign(value.negative) + (Grouped(Units(value)) + "," + PadNat(Fraction(value), value.scale))
  }

  /** "{:,d}" of the value truncated to an integer; zero has no sign. */
  function PrintInteger(value: Decimal): string
  {
    Sign(value.negative && Units(value) > 0) + Grouped(Units(value))
  }

  function Printed(value: Decimal, places: nat): Result<string, Error>
  {
    if places > 0 then
      match Quantize(value, places)
      case Ok(rounded) => Ok(PrintDecimal(rounded))
      case Err(e) => Err(e)
    else Ok(PrintInteger(value))
  }

  /** The fields of one export record, by column name. */
  class Record {
    var data: map<string, string>

    constructor ()
      ensures data == map[]
    {
      data := map[];
    }

    /** A value that cannot be rounded leaves the field as it was. */
    method SetNumeric(name: string, places: nat, value: Decimal) returns (r: Result<(), Error>)
      modifies this
      ensures Printed(value, places).Err? ==> r == Err(Printed(value, places).error) && data == old(data)
      ensures Printed(value, places).Ok? ==> r.Ok? && data == old(data)[name := Printed(value, places).value]
    {
      if places > 0 {
        var rounded := Quantize(value, places);
        if rounded.Err? {
          return Err(rounded.error);
        }
        data := data[name := PrintDecimal(rounded.value)];
      } else {
        data := data[name := PrintInteger(value)];
      }
      r := Ok(());
    }
  }

  // ---- reading back ------------------------------------------------------------------

  function WithoutStops(s: string): string
  {
    if s == "" then "" else if s[0] == '.' then WithoutStops(s[1..]) else [s[0]] + WithoutStops(s[1..])
  }

  /** Sign, grouped digits, comma, decimals. */
  function ParseDecimal(s: string): Option<Decimal>
  {
    var negative := |s| > 0 && s[0] == '-';
    var parts := Split(if negative then s[1..] else s, ',');
    if |parts| != 2 then None
    else
      var units := WithoutStops(parts[0]);
      if units == "" || !AllDigits(units) || !AllDigits(parts[1]) then None
      else Some(Decimal(negative, DigitsValue(units) * Pow10(|parts[1]|) + DigitsValue(parts[1]), |parts[1]|))
  }

  lemma {:induction false} WithoutStopsConcat(s: string, t: string)
    ensures WithoutStops(s + t) == WithoutStops(s) + WithoutStops(t)
  {
    if s == "" {
      assert s + t == t;
    } else {
      WithoutStopsConcat(s[1..], t);
      assert (s + t)[1..] == s[1..] + t && (s + t)[0] == s[0];
    }
  }

  lemma {:induction false} DigitsHaveNoStops(s: string)
    requires AllDigits(s)
    ensures WithoutStops(s) == s
  {
    if s != "" {
      assert AllDigits(s[1..]);
      DigitsHaveNoStops(s[1..]);
      assert IsDigit(s[0]);
      assert [s[0]] + s[1..] == s;
    }
  }

  lemma {:induction false} DigitsConcat(s: string, t: string)
    requires AllDigits(s) && AllDigits(t)
    ensures AllDigits(s + t) && DigitsValue(s + t) == DigitsValue(s) * Pow10(|t|) + DigitsValue(t)
  {
    if t == "" {
      assert s + t == s;
    } else {
      var front := t[..|t| - 1];
      DigitsConcat(s, front);
      assert (s + t)[..|s + t| - 1] == s + front;
      Associate(DigitsValue(s), Pow10(|front|), 10);
    }
  }

  /** Without its stops the grouped text is the number. */
  lemma {:induction false} GroupedParses(n: nat)
    ensures var digits := WithoutStops(Grouped(n));
            digits != "" && AllDigits(digits) && DigitsValue(digits) == n
  {
    if n < 1000 {
      PrintNatParses(n);
      DigitsHaveNoStops(PrintNat(n));
    } else {
      GroupedParses(n / 1000);
      assert Pow10(3) == 1000;
      PadNatParses(n % 1000, 3);
      OneMoreGroup(Grouped(n / 1000), PadNat(n % 1000, 3));
    }
  }

  lemma OneMoreGroup(high: string, low: string)
    requires WithoutStops(high) != "" && AllDigits(WithoutStops(high)) && AllDigits(low) && |low| == 3
    ensures var digits := WithoutStops(high + "." + low);
            && digits != "" && AllDigits(digits)
            && DigitsValue(digits) == DigitsValue(WithoutStops(high)) * 1000 + DigitsValue(low)
  {
    hide DigitsValue, AllDigits;
    DigitsHaveNoStops(low);
    WithoutStopsConcat(high + ".", low);
    WithoutStopsConcat(high, ".");
    assert WithoutStops(".") == "" && WithoutStops(high) + "" == WithoutStops(high);
    DigitsConcat(WithoutStops(high), low);
    assert Pow10(3) == 1000;
  }

  lemma {:induction false} GroupedChars(n: nat)
    ensures forall c :: c in Grouped(n) ==> IsDigit(c) || c == '.'
    ensures Grouped(n) != "" && IsDigit(Grouped(n)[0])
  {
    if n < 1000 {
      PrintNatParses(n);
    } else {
      GroupedChars(n / 1000);
      assert Pow10(3) == 1000;
      PadNatParses(n % 1000, 3);
    }
  }

  /** Reading the printed text gives back the rounded value, so two values share a text only if they round
      to the same. */
  lemma PrintDecimalParses(value: Decimal)
    requires value.scale > 0
    ensures ParseDecimal(PrintDecimal(value)) == Some(value)
  {
    hide Grouped, PadNat, Split, WithoutStops, Units, Fraction, Pow10, DigitsValue;
    var whole, rest := Grouped(Units(value)), PadNat(Fraction(value), value.scale);
    UnitsAndFraction(value);
    GroupedParses(Units(value));
    GroupedChars(Units(value));
    PadNatParses(Fraction(value), value.scale);
    var body := whole + "," + rest;
    assert ',' !in whole && ',' !in rest;
    SplitAtFirst(whole, rest, ',');
    SplitOfPlain(rest, ',');
    assert body == whole + [','] + rest;
    assert PrintDecimal(value) == Sign(value.negative) + body;
    if value.negative {
      assert PrintDecimal(value)[1..] == body;
    } else {
      assert PrintDecimal(value) == body && body[0] == whole[0];
    }
  }

  /** Sign and grouped digits. */
  function ParseInteger(s: string): Option<int>
  {
    var negative := |s| > 0 && s[0] == '-';
    var units := WithoutStops(if negative then s[1..] else s);
    if units == "" || !AllDigits(units) then None
    else
      var size: int := DigitsValue(units);
      Some(if negative then -size else size)
  }

  /** Without decimals the text reads back as the value cut off towards zero, and only a number below zero has a sign. */
  lemma PrintIntegerParses(value: Decimal)
    ensures var n := ParseInteger(PrintInteger(value));
            && n.Some?
            && (if value.negative then n.value <= 0 else n.value >= 0)
            && var size := if n.value < 0 then -n.value else n.value;
            && size * Pow10(value.scale) <= value.coefficient < (size + 1) * Pow10(value.scale)
            && |PrintInteger(value)| > 0 && (PrintInteger(value)[0] == '-' <==> n.value < 0)
  {
    hide Grouped, WithoutStops, Units, Fraction, Pow10, DigitsValue;
    var n, text := Units(value), PrintInteger(value);
    UnitsAndFraction(value);
    GroupedParses(n);
    GroupedChars(n);
    if value.negative && n > 0 {
      assert text[0] == '-' && text[1..] == Grouped(n);
    } else {
      assert text == Grouped(n);
      assert IsDigit(text[0]);
    }
    assert (n + 1) * Pow10(value.scale) == n * Pow10(value.scale) + Pow10(value.scale);
  }

  // ---- the validator -----------------------------------------------------------------

  /** [0-9]{1,3}(.[0-9]{3})* where the group symbol, a full stop, is put into the pattern unescaped and so
      stands for any character but a line feed. */
  predicate MatchesGroups(s: string)
  {
    if |s| <= 3 then |s| >= 1 && AllDigits(s)
    else |s| >= 5 && AllDigits(s[|s| - 3..]) && s[|s| - 4] != '\n' && MatchesGroups(s[..|s| - 4])
  }

  /** -?([0-9]+|groups), without decimals. */
  predicate MatchesInteger(s: string)
  {
    var body := if |s| > 0 && s[0] == '-' then s[1..] else s;
    (|body| >= 1 && AllDigits(body)) || MatchesGroups(body)
  }

  /** ... followed by the decimal symbol and the decimals, the end being allowed before a final line feed. */
  predicate MatchesNumeric(s: string, places: nat)
  {
    var text := if |s| > 0 && s[|s| - 1] == '\n' then s[..|s| - 1] else s;
    if places == 0 then MatchesInteger(text)
    else
      && |text| > places && text[|text| - places - 1] == ',' && AllDigits(text[|text| - places..])
      && MatchesInteger(text[..|text| - places - 1])
  }

  /** Every fourth character from the end separates groups, the others are digits. */
  predicate FitsPlace(c: char, place: nat) { if place % 4 == 3 then c != '\n' else '0' <= c <= '9' }

  /** Groups of three after a first one of one to three. */
  predicate InGroups(s: string)
  {
    |s| % 4 != 0 && forall i :: 0 <= i < |s| ==> FitsPlace(s[i], |s| - 1 - i)
  }

  lemma FourLess(c: char, place: nat)
    ensures FitsPlace(c, place + 4) <==> FitsPlace(c, place)
  {
  }

  lemma OneMoreInGroups(s: string)
    requires |s| > 4
    ensures InGroups(s) <==> InGroups(s[..|s| - 4]) && s[|s| - 4] != '\n' && AllDigits(s[|s| - 3..])
  {
    var n := |s| - 4;
    var front, low := s[..n], s[n + 1..];
    assert (n + 4) % 4 == n % 4;
    forall i | 0 <= i < n ensures FitsPlace(s[i], |s| - 1 - i) <==> FitsPlace(front[i], n - 1 - i) {
      FourLess(s[i], n - 1 - i);
    }
    assert FitsPlace(s[n], 3) <==> s[n] != '\n';
    assert FitsPlace(s[n + 1], 2) <==> IsDigit(low[0]);
    assert FitsPlace(s[n + 2], 1) <==> IsDigit(low[1]);
    assert FitsPlace(s[n + 3], 0) <==> IsDigit(low[2]);
    hide FitsPlace;
    assert AllDigits(low) <==> IsDigit(low[0]) && IsDigit(low[1]) && IsDigit(low[2]);
    if InGroups(front) && s[n] != '\n' && AllDigits(low) {
      forall i | 0 <= i < |s| ensures FitsPlace(s[i], |s| - 1 - i) {
        assert i < n || i == n || i == n + 1 || i == n + 2 || i == n + 3;
      }
    }
  }

  lemma {:induction false} GroupsByPlace(s: string)
    ensures MatchesGroups(s) <==> InGroups(s)
  {
    if |s| > 4 {
      OneMoreInGroups(s);
      GroupsByPlace(s[..|s| - 4]);
      hide InGroups;
    } else if 0 < |s| < 4 {
      assert forall i :: 0 <= i < |s| ==> (FitsPlace(s[i], |s| - 1 - i) <==> IsDigit(s[i]));
    }
  }

  predicate Digits(s: string) { forall i :: 0 <= i < |s| ==> '0' <= s[i] <= '9' }

  /** An integer part: digits alone or in groups. */
  predicate IntegerPart(s: string) { (s != "" && Digits(s)) || InGroups(s) }

  /** The text is a sign or none, an integer part, the comma and the decimals if there are any, and perhaps a line feed. */
  predicate Composed(s: string, places: nat, negative: bool, whole: string, decimals: string, lineFeed: bool)
  {
    && IntegerPart(whole) && |decimals| == places && Digits(decimals)
    && s == (Sign(negative) + whole + (if places == 0 then "" else "," + decimals)) + (if lineFeed then "\n" else "")
  }

  lemma EndsInDigits(whole: string)
    requires IntegerPart(whole)
    ensures whole != "" && IsDigit(whole[0]) && IsDigit(whole[|whole| - 1])
  {
    if InGroups(whole) {
      assert FitsPlace(whole[0], |whole| - 1) && FitsPlace(whole[|whole| - 1], 0);
    }
  }

  lemma IntegerIsPart(s: string)
    ensures (|s| >= 1 && AllDigits(s)) || MatchesGroups(s) <==> IntegerPart(s)
  {
    GroupsByPlace(s);
    hide MatchesGroups, InGroups;
  }

  lemma Decompose(s: string, places: nat) returns (negative: bool, whole: string, decimals: string, lineFeed: bool)
    requires MatchesNumeric(s, places)
    ensures Composed(s, places, negative, whole, decimals, lineFeed)
  {
    hide MatchesInteger, IntegerPart, Sign;
    lineFeed := |s| > 0 && s[|s| - 1] == '\n';
    var text := if lineFeed then s[..|s| - 1] else s;
    assert s == text + (if lineFeed then "\n" else "");
    var head: string;
    head, decimals := SplitDecimals(text, places);
    negative, whole := SplitSign(head);
    hide MatchesNumeric;
  }

  lemma SplitDecimals(text: string, places: nat) returns (head: string, decimals: string)
    requires places == 0 ==> MatchesInteger(text)
    requires places > 0 ==>
               && |text| > places && text[|text| - places - 1] == ',' && AllDigits(text[|text| - places..])
               && MatchesInteger(text[..|text| - places - 1])
    ensures MatchesInteger(head) && |decimals| == places && Digits(decimals)
    ensures text == head + (if places == 0 then "" else "," + decimals)
  {
    hide MatchesInteger;
    if places == 0 {
      head, decimals := text, "";
    } else {
      var n := |text| - places;
      head, decimals := text[..n - 1], text[n..];
      assert forall i :: 0 <= i < places ==> IsDigit(decimals[i]);
      assert text[..n] == head + ",";
    }
  }

  lemma SplitSign(head: string) returns (negative: bool, whole: string)
    requires MatchesInteger(head)
    ensures head == Sign(negative) + whole && IntegerPart(whole)
  {
    hide MatchesGroups, IntegerPart;
    negative := |head| > 0 && head[0] == '-';
    whole := if negative then head[1..] else head;
    IntegerIsPart(whole);
  }

  /** The pattern accepts exactly the texts composed in this way. */
  lemma PatternIsComposed(s: string, places: nat)
    ensures MatchesNumeric(s, places)
            <==> exists negative, whole, decimals, lineFeed :: Composed(s, places, negative, whole, decimals, lineFeed)
  {
    hide Composed, MatchesNumeric;
    if MatchesNumeric(s, places) {
      var negative, whole, decimals, lineFeed := Decompose(s, places);
    }
    forall negative, whole, decimals, lineFeed | Composed(s, places, negative, whole, decimals, lineFeed)
      ensures MatchesNumeric(s, places)
    {
      ComposedIsMatched(s, places, negative, whole, decimals, lineFeed);
    }
  }

  lemma SignedPart(negative: bool, whole: string)
    requires IntegerPart(whole)
    ensures MatchesInteger(Sign(negative) + whole)
  {
    EndsInDigits(whole);
    IntegerIsPart(whole);
    hide MatchesGroups, IntegerPart;
    var head := Sign(negative) + whole;
    assert negative ==> head[1..] == whole;
    assert !negative ==> head == whole;
  }

  lemma WithLineFeed(text: string, places: nat)
    requires MatchesNumeric(text, places) && text != "" && text[|text| - 1] != '\n'
    ensures MatchesNumeric(text + "\n", places)
  {
    hide MatchesInteger;
    assert (text + "\n")[..|text|] == text;
  }

  lemma ComposedIsMatched(s: string, places: nat, negative: bool, whole: string, decimals: string, lineFeed: bool)
    requires Composed(s, places, negative, whole, decimals, lineFeed)
    ensures MatchesNumeric(s, places)
  {
    EndsInDigits(whole);
    SignedPart(negative, whole);
    hide MatchesInteger, IntegerPart;
    var head := Sign(negative) + whole;
    var text := head + (if places == 0 then "" else "," + decimals);
    if places == 0 {
      assert text == head;
    } else {
      assert text == head + "," + decimals;
      ComposedMatches(head, decimals, places);
      assert text[|text| - 1] == decimals[places - 1];
    }
    assert IsDigit(text[|text| - 1]);
    assert MatchesNumeric(text, places);
    WithLineFeed(text, places);
    assert s == if lineFeed then text + "\n" else text;
  }

  lemma {:induction false} GroupedMatches(n: nat)
    ensures MatchesGroups(Grouped(n))
  {
    if n < 1000 {
      PrintNatParses(n);
      PrintNatShort(n);
    } else {
      GroupedMatches(n / 1000);
      assert Pow10(3) == 1000;
      PadNatParses(n % 1000, 3);
      var high, low, s := Grouped(n / 1000), PadNat(n % 1000, 3), Grouped(n);
      assert s == high + "." + low;
      assert s[|s| - 3..] == low && s[..|s| - 4] == high && s[|s| - 4] == '.';
    }
  }

  lemma PrintNatShort(n: nat)
    requires n < 1000
    ensures |PrintNat(n)| <= 3
  {
    assert |PrintNat(n / 10)| == 1 + if n / 10 < 10 then 0 else |PrintNat(n / 100)|;
    assert n / 100 < 10;
  }

  /** Every value that can be rounded prints a text the validator accepts, and it reads back as the rounded value. */
  lemma PrintedIsValid(value: Decimal, places: nat)
    requires Printed(value, places).Ok?
    ensures MatchesNumeric(Printed(value, places).value, places)
    ensures places > 0 ==>
              ParseDecimal(Printed(value, places).value) == Some(Decimal(value.negative, Rounded(value, places), places))
    ensures places == 0 ==> Printed(value, places).value == PrintInteger(value)
  {
    hide Grouped, PadNat, MatchesGroups, MatchesInteger, Units, Fraction, Pow10, DigitsValue, ParseDecimal, Rounded;
    if places > 0 {
      var rounded := Quantize(value, places).value;
      PrintDecimalParses(rounded);
      UnitsAndFraction(rounded);
      var whole, rest := Grouped(Units(rounded)), PadNat(Fraction(rounded), places);
      PadNatParses(Fraction(rounded), places);
      SignedMatches(value.negative, Units(rounded));
      var head := Sign(value.negative) + whole;
      assert PrintDecimal(rounded) == head + "," + rest;
      ComposedMatches(head, rest, places);
    } else {
      SignedMatches(value.negative && Units(value) > 0, Units(value));
    }
  }

  /** A value is refused exactly when it has decimals and, rounded, more than 28 digits. */
  lemma WhenPrinted(value: Decimal, places: nat)
    ensures Printed(value, places).Ok? <==> places == 0 || Rounded(value, places) < Pow10(28)
  {
    hide Rounded, Pow10, PrintDecimal, PrintInteger;
  }

  lemma ComposedMatches(head: string, decimals: string, places: nat)
    requires places > 0 && |decimals| == places && AllDigits(decimals) && MatchesInteger(head)
    ensures MatchesNumeric(head + "," + decimals, places)
  {
    hide MatchesInteger;
    var s := head + "," + decimals;
    assert s[|s| - places..] == decimals && s[..|s| - places - 1] == head && s[|s| - places - 1] == ',';
    assert IsDigit(s[|s| - 1]);
  }

  lemma SignedMatches(negative: bool, n: nat)
    ensures var s := Sign(negative) + Grouped(n);
            MatchesInteger(s) && |s| > 0 && s[|s| - 1] != '\n'
  {
    hide MatchesGroups;
    GroupedMatches(n);
    GroupedChars(n);
    var s, body := Sign(negative) + Grouped(n), Grouped(n);
    assert body[|body| - 1] in body;
    if negative {
      assert s[1..] == body;
    } else {
      assert s == body;
    }
  }

  predicate PlainNumber(s: string) { forall c :: c in s ==> IsDigit(c) || c == '.' }

  lemma {:induction false} OthersStay(s: string)
    ensures forall c :: c in s && c != '.' ==> c in WithoutStops(s)
    ensures forall c :: c in WithoutStops(s) ==> c in s && c != '.'
  {
    if s != "" {
      OthersStay(s[1..]);
      assert s == [s[0]] + s[1..];
    }
  }

  lemma {:induction false} SplitLong(s: string, t: string, sep: char)
    ensures |Split(s + [sep] + t, sep)| >= 2
    ensures sep in s ==> |Split(s + [sep] + t, sep)| >= 3
  {
    var whole := s + [sep] + t;
    if s == "" {
      assert whole[1..] == t;
    } else {
      assert whole[1..] == s[1..] + [sep] + t && whole[0] == s[0];
      assert s == [s[0]] + s[1..];
      SplitLong(s[1..], t, sep);
    }
  }

  /** What the validator accepts is a number exactly when the integer part, after its sign, holds nothing
      but digits and full stops. */
  lemma AcceptedIsReadable(negative: bool, whole: string, decimals: string, places: nat)
    requires places > 0 && |decimals| == places && AllDigits(decimals)
    requires whole != "" && whole[0] != '-' && MatchesInteger(whole)
    ensures MatchesNumeric(Sign(negative) + whole + "," + decimals, places)
    ensures ParseDecimal(Sign(negative) + whole + "," + decimals).Some? <==> PlainNumber(whole)
  {
    hide Split, WithoutStops, DigitsValue, Pow10, MatchesGroups, MatchesNumeric, PlainNumber;
    var head := Sign(negative) + whole;
    assert MatchesInteger(head) by {
      assert negative ==> head[1..] == whole;
      assert !negative ==> head == whole;
    }
    ComposedMatches(head, decimals, places);
    BodyParses(negative, whole, decimals);
  }

  lemma BodyParses(negative: bool, whole: string, decimals: string)
    requires AllDigits(decimals) && whole != "" && whole[0] != '-' && MatchesInteger(whole)
    ensures ParseDecimal(Sign(negative) + whole + "," + decimals).Some? <==> PlainNumber(whole)
  {
    hide Split, WithoutStops, DigitsValue, Pow10, MatchesGroups, MatchesInteger;
    var s := Sign(negative) + whole + "," + decimals;
    var body := whole + [','] + decimals;
    assert s == Sign(negative) + body;
    assert body[0] == whole[0];
    assert s[0] == '-' <==> negative;
    assert negative ==> s[1..] == body;
    assert !negative ==> s == body;
    assert ',' !in decimals;
    SplitLong(whole, decimals, ',');
    SplitOfPlain(decimals, ',');
    if ',' !in whole {
      SplitAtFirst(whole, decimals, ',');
      UnitsAreDigits(whole);
      assert Split(body, ',') == [whole, decimals];
    }
  }

  lemma UnitsAreDigits(whole: string)
    requires whole != "" && whole[0] != '-' && MatchesInteger(whole)
    ensures WithoutStops(whole) != "" && (AllDigits(WithoutStops(whole)) <==> PlainNumber(whole))
  {
    hide MatchesGroups, MatchesInteger, WithoutStops;
    OthersStay(whole);
    StartsWithDigit(whole);
    var digits := WithoutStops(whole);
    if AllDigits(digits) {
      forall c | c in whole ensures IsDigit(c) || c == '.' {
        assert c != '.' ==> c in digits;
      }
    }
    if PlainNumber(whole) {
      forall i | 0 <= i < |digits| ensures IsDigit(digits[i]) {
        assert digits[i] in digits;
      }
    }
  }

  lemma {:induction false} StartsWithDigit(s: string)
    requires s != "" && s[0] != '-' && MatchesInteger(s)
    ensures exists c :: c in s && IsDigit(c)
  {
    if MatchesGroups(s) {
      assert IsDigit(s[|s| - 1]);
    } else {
      assert IsDigit(s[0]);
    }
  }

  /** The other direction fails: the unescaped group symbol lets any character separate the groups. */
  lemma GroupSymbolIsAnything()
    ensures MatchesNumeric("1x234,5", 1) && ParseDecimal("1x234,5").None?
  {
    SeparatedMatches("1", 'x', "234", "5");
    SeparatedDoesNotParse("1", 'x', "234", "5");
    assert "1" + ['x'] + "234" + "," + "5" == "1x234,5";
  }

  lemma SeparatedMatches(high: string, c: char, low: string, decimals: string)
    requires |high| == 1 && AllDigits(high) && |low| == 3 && AllDigits(low) && |decimals| == 1 && AllDigits(decimals)
    requires c != '\n'
    ensures MatchesNumeric(high + [c] + low + "," + decimals, 1)
  {
    var t := high + [c] + low;
    assert t[|t| - 3..] == low && t[..|t| - 4] == high && t[|t| - 4] == c;
    var s := t + "," + decimals;
    assert s[|s| - 1..] == decimals && s[..|s| - 2] == t;
    assert IsDigit(high[0]) && IsDigit(decimals[0]);
  }

  lemma SeparatedDoesNotParse(high: string, c: char, low: string, decimals: string)
    requires |high| == 1 && AllDigits(high) && AllDigits(low) && AllDigits(decimals)
    requires !IsDigit(c) && c != '.' && c != ','
    ensures ParseDecimal(high + [c] + low + "," + decimals).None?
  {
    hide Split, DigitsValue, WithoutStops, Pow10;
    var t := high + [c] + low;
    var s := t + "," + decimals;
    assert s == t + [','] + decimals;
    SplitAtFirst(t, decimals, ',');
    SplitOfPlain(decimals, ',');
    assert IsDigit(high[0]) && s[0] == high[0];
    WithoutStopsConcat(high + [c], low);
    WithoutStopsConcat(high, [c]);
    DigitsHaveNoStops(high);
    OneChar(c);
    assert WithoutStops(t)[1] == c;
  }

  lemma OneChar(c: char)
    requires c != '.'
    ensures WithoutStops([c]) == [c]
  {
    assert [c][1..] == "";
  }
}
