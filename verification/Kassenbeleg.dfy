/** The process data of a signed receipt: five gross sums by tax rate and the payments, as one line of text. */
module Kassenbeleg {

  import opened Wrappers
  import opened Text

  datatype TaxType = RegularVat | ReducedVat | NoTax | Transparent

  /** Index of a tax type among the five sums; the special rates 2 and 3 are never used. */
  function IndexForTaxType(t: TaxType): nat
  {
    match t
    case RegularVat => 0
    case ReducedVat => 1
    case NoTax => 4
    case Transparent => 4
  }

  // ---- amounts -----------------------------------------------------------------------

  /** f"{amount:.2f}" of an amount in whole cents. */
  function PrintCents(cents: int): string
  {
    var magnitude := if cents < 0 then -cents else cents;
    (if cents < 0 then "-" else "") + PrintNat(magnitude / 100) + "." + PadNat(magnitude % 100, 2)
  }

  function ParseCents(s: string): Option<int>
  {
    var parts := Split(s, '.');
    if |parts| != 2 || |parts[1]| != 2 || !AllDigits(parts[1]) then None
    else
      var negative := |parts[0]| > 0 && parts[0][0] == '-';
      var units := if negative then parts[0][1..] else parts[0];
      if |units| == 0 || !AllDigits(units) then None
      else
        var magnitude: int := DigitsValue(units) * 100 + DigitsValue(parts[1]);
        Some(if negative then -magnitude else magnitude)
  }

  predicate AmountChar(c: char) { IsDigit(c) || c == '-' || c == '.' }

  lemma PrintCentsParses(cents: int)
    ensures ParseCents(PrintCents(cents)) == Some(cents)
    ensures forall c :: c in PrintCents(cents) ==> AmountChar(c)
    ensures PrintCents(cents) != ""
  {
    hide PrintNat, PadNat, Split;
    var magnitude := if cents < 0 then -cents else cents;
    var units, rest := PrintNat(magnitude / 100), PadNat(magnitude % 100, 2);
    PrintNatParses(magnitude / 100);
    assert Pow10(2) == 100;
    PadNatParses(magnitude % 100, 2);
    var head := (if cents < 0 then "-" else "") + units;
    assert PrintCents(cents) == head + ['.'] + rest;
    SplitAtFirst(head, rest, '.');
    SplitOfPlain(rest, '.');
    if cents < 0 {
      assert head[1..] == units;
    } else {
      assert head == units && IsDigit(head[0]);
    }
    forall c | c in head + ['.'] + rest ensures AmountChar(c) {
      assert c in units ==> IsDigit(c);
      assert c in rest ==> IsDigit(c);
    }
  }

  // ---- the receipt under construction ------------------------------------------------

  function Capitalize(s: string): string
  {
    if s == "" then "" else [Upper(s[0])] + LowerAll(s[1..])
  }

  function Upper(c: char): char { if 'a' <= c <= 'z' then c - 'a' + 'A' else c }

  function Lower(c: char): char { if 'A' <= c <= 'Z' then c - 'A' + 'a' else c }

  function LowerAll(s: string): string
  {
    seq(|s|, i requires 0 <= i < |s| => Lower(s[i]))
  }

  /** re.match(r"[A-Z]{3}", currency): only the beginning of the text is looked at. */
  predicate CurrencyAccepted(currency: string)
  {
    |currency| >= 3 && forall i :: 0 <= i < 3 ==> 'A' <= currency[i] <= 'Z'
  }

  datatype Error = UnknownPaymentKind | BadCurrency

  datatype Payment = Payment(cents: int, kind: string, currency: string)

  /** The text of one payment; the currency is left out for EUR. */
  function PaymentText(p: Payment): string
  {
    if p.currency == "EUR" then Join([PrintCents(p.cents), p.kind], ':')
    else Join([PrintCents(p.cents), p.kind, p.currency], ':')
  }

  function PaymentTexts(payments: seq<Payment>): seq<string>
  {
    seq(|payments|, i requires 0 <= i < |payments| => PaymentText(payments[i]))
  }

  function AmountTexts(amounts: seq<int>): seq<string>
  {
    seq(|amounts|, i requires 0 <= i < |amounts| => PrintCents(amounts[i]))
  }

  function ProcessData(receiptType: string, amounts: seq<int>, payments: seq<string>): string
  {
    Join([receiptType, Join(AmountTexts(amounts), '_'), Join(payments, '_')], '^')
  }

  datatype LineItem = LineItem(cents: int, taxType: TaxType)

  function Total(items: seq<LineItem>): int
  {
    if items == [] then 0 else Total(items[..|items| - 1]) + items[|items| - 1].cents
  }

  /** The sum of the items that belong to one of the five rates. */
  function RateTotal(items: seq<LineItem>, index: nat): int
  {
    if items == [] then 0
    else
      var last := items[|items| - 1];
      RateTotal(items[..|items| - 1], index) + (if IndexForTaxType(last.taxType) == index then last.cents else 0)
  }

  function RateTotals(items: seq<LineItem>): seq<int> { seq(5, i requires 0 <= i => RateTotal(items, i)) }

  /** The sum of the items with one of the given tax types. */
  function SumOf(items: seq<LineItem>, types: set<TaxType>): int
  {
    if items == [] then 0
    else
      var last := items[|items| - 1];
      SumOf(items[..|items| - 1], types) + (if last.taxType in types then last.cents else 0)
  }

  /** The five sums are those of the regular rate, the reduced rate, the two special rates that are never
      used, and the untaxed items; together they are the amount paid. */
  lemma {:induction false} RateTotalsAddUp(items: seq<LineItem>)
    ensures var r := RateTotals(items); r[0] + r[1] + r[2] + r[3] + r[4] == Total(items)
    ensures RateTotals(items)
            == [SumOf(items, {RegularVat}), SumOf(items, {ReducedVat}), 0, 0, SumOf(items, {NoTax, Transparent})]
  {
    if items != [] {
      RateTotalsAddUp(items[..|items| - 1]);
    }
  }

  class Kassenbeleg_V1 {
    var receiptType: string
    var grossSums: seq<int>
    var payments: seq<string>

    constructor ()
      ensures receiptType == "Beleg" && grossSums == [0, 0, 0, 0, 0] && payments == []
    {
      receiptType, grossSums, payments := "Beleg", [0, 0, 0, 0, 0], [];
    }

    method AddLineItem(cents: int, taxType: TaxType)
      requires |grossSums| == 5
      modifies this`grossSums
      ensures grossSums == old(grossSums)[IndexForTaxType(taxType) := old(grossSums)[IndexForTaxType(taxType)] + cents]
    {
      var index := IndexForTaxType(taxType);
      grossSums := grossSums[index := grossSums[index] + cents];
    }

    method AddPayment(cents: int, kind: string, currency: string) returns (r: Result<(), Error>)
      modifies this`payments
      ensures r == (if Capitalize(kind) != "Bar" && Capitalize(kind) != "Unbar" then Err(UnknownPaymentKind)
                    else if currency != "EUR" && !CurrencyAccepted(currency) then Err(BadCurrency)
                    else Ok(()))
      ensures payments == if r.Ok? then old(payments) + [PaymentText(Payment(cents, Capitalize(kind), currency))]
                          else old(payments)
    {
      var kind := Capitalize(kind);
      if kind != "Bar" && kind != "Unbar" {
        return Err(UnknownPaymentKind);
      }
      var parts := [PrintCents(cents), kind];
      if currency != "EUR" {
        if !CurrencyAccepted(currency) {
          return Err(BadCurrency);
        }
        parts := parts + [currency];
      }
      assert parts == if currency == "EUR" then [PrintCents(cents), kind] else [PrintCents(cents), kind, currency];
      payments := payments + [Join(parts, ':')];
      return Ok(());
    }

    method GetProcessData() returns (text: string)
      ensures text == ProcessData(receiptType, grossSums, payments)
    {
      text := Join([receiptType, Join(AmountTexts(grossSums), '_'), Join(payments, '_')], '^');
    }
  }

  /** The process data of a signature request: every line item into its rate, the total as the one payment. */
  method MakeProcessData(items: seq<LineItem>, kind: string, currency: string) returns (r: Result<string, Error>)
    ensures r.Err? <==>
              (Capitalize(kind) != "Bar" && Capitalize(kind) != "Unbar") || (currency != "EUR" && !CurrencyAccepted(currency))
    ensures r.Ok? ==> r.value == ProcessData("Beleg", RateTotals(items),
                                             PaymentTexts([Payment(Total(items), Capitalize(kind), currency)]))
  {
    var beleg := new Kassenbeleg_V1();
    var total := 0;
    var i := 0;
    while i < |items|
      invariant 0 <= i <= |items|
      invariant beleg.grossSums == RateTotals(items[..i]) && total == Total(items[..i])
      invariant beleg.receiptType == "Beleg" && beleg.payments == []
    {
      beleg.AddLineItem(items[i].cents, items[i].taxType);
      total := total + items[i].cents;
      assert items[..i + 1][..i] == items[..i];
      i := i + 1;
    }
    assert items[..i] == items;
    var added := beleg.AddPayment(total, kind, currency);
    if added.Err? {
      return Err(added.error);
    }
    assert beleg.payments == PaymentTexts([Payment(Total(items), Capitalize(kind), currency)]);
    var text := beleg.GetProcessData();
    r := Ok(text);
  }

  /** In whatever case the kind of payment is given, it must be the word for cash or the word for the rest; the
      currency must begin with three of the 26 capital letters. */
  lemma WhatIsAccepted(kind: string, currency: string)
    ensures Capitalize(kind) == "Bar" <==> |kind| == 3 && kind[0] in "bB" && kind[1] in "aA" && kind[2] in "rR"
    ensures Capitalize(kind) == "Unbar" <==>
              |kind| == 5 && kind[0] in "uU" && kind[1] in "nN" && kind[2] in "bB" && kind[3] in "aA" && kind[4] in "rR"
    ensures CurrencyAccepted(currency) <==>
              |currency| >= 3 && forall i :: 0 <= i < 3 ==> currency[i] in "ABCDEFGHIJKLMNOPQRSTUVWXYZ"
  {
    if |kind| == 3 {
      assert LowerAll(kind[1..]) == [Lower(kind[1]), Lower(kind[2])];
    } else if |kind| == 5 {
      assert LowerAll(kind[1..]) == [Lower(kind[1]), Lower(kind[2]), Lower(kind[3]), Lower(kind[4])];
    }
    Letters(currency);
  }

  lemma Letters(s: string)
    ensures forall i :: 0 <= i < |s| ==> ('A' <= s[i] <= 'Z' <==> s[i] in "ABCDEFGHIJKLMNOPQRSTUVWXYZ")
  {
    var all := "ABCDEFGHIJKLMNOPQRSTUVWXYZ";
    forall i | 0 <= i < |s| && 'A' <= s[i] <= 'Z' ensures s[i] in all {
      assert all[(s[i] - 'A') as int] == s[i];
    }
  }

  // ---- reading it back ---------------------------------------------------------------

  datatype Receipt = Receipt(receiptType: string, amounts: seq<int>, payments: seq<Payment>)

  function ParseAmounts(parts: seq<string>): Option<seq<int>>
  {
    if parts == [] then Some([])
    else
      match (ParseCents(parts[0]), ParseAmounts(parts[1..]))
      case (Some(cents), Some(rest)) => Some([cents] + rest)
      case _ => None
  }

  function ParsePayment(s: string): Option<Payment>
  {
    var parts := Split(s, ':');
    if |parts| < 2 then None
    else
      match ParseCents(parts[0])
      case None => None
      case Some(cents) =>
        if |parts| == 2 then Some(Payment(cents, parts[1], "EUR"))
        else if |parts| == 3 then Some(Payment(cents, parts[1], parts[2]))
        else None
  }

  function ParsePayments(parts: seq<string>): Option<seq<Payment>>
  {
    if parts == [] then Some([])
    else
      match (ParsePayment(parts[0]), ParsePayments(parts[1..]))
      case (Some(p), Some(rest)) => Some([p] + rest)
      case _ => None
  }

  function Parse(text: string): Option<Receipt>
  {
    var parts := Split(text, '^');
    if |parts| != 3 then None
    else
      match (ParseAmounts(Split(parts[1], '_')), ParsePayments(if parts[2] == "" then [] else Split(parts[2], '_')))
      case (Some(amounts), Some(payments)) => Some(Receipt(parts[0], amounts, payments))
      case _ => None
  }

  /** No separator of the format. */
  predicate Plain(s: string) { '^' !in s && '_' !in s && ':' !in s }

  predicate PlainPayment(p: Payment) { Plain(p.kind) && Plain(p.currency) }

  lemma PaymentParses(p: Payment)
    requires PlainPayment(p)
    ensures ParsePayment(PaymentText(p)) == Some(p)
    ensures '^' !in PaymentText(p) && '_' !in PaymentText(p) && PaymentText(p) != ""
  {
    hide Join, Split, PrintCents, ParseCents;
    PrintCentsParses(p.cents);
    var parts := if p.currency == "EUR" then [PrintCents(p.cents), p.kind] else [PrintCents(p.cents), p.kind, p.currency];
    forall i | 0 <= i < |parts| ensures ':' !in parts[i] && '^' !in parts[i] && '_' !in parts[i] {
    }
    SplitJoin(parts, ':');
    JoinAvoids(parts, ':', '^');
    JoinAvoids(parts, ':', '_');
    JoinNotEmpty(parts, ':');
  }

  lemma JoinNotEmpty(parts: seq<string>, sep: char)
    requires |parts| >= 1 && parts[0] != ""
    ensures Join(parts, sep) != ""
  {
  }

  lemma {:induction false} AmountsParse(amounts: seq<int>)
    ensures ParseAmounts(AmountTexts(amounts)) == Some(amounts)
  {
    hide PrintCents, ParseCents;
    if amounts != [] {
      PrintCentsParses(amounts[0]);
      AmountsParse(amounts[1..]);
      assert AmountTexts(amounts)[1..] == AmountTexts(amounts[1..]);
      assert [amounts[0]] + amounts[1..] == amounts;
    } else {
      assert AmountTexts(amounts) == [];
    }
  }

  lemma {:induction false} PaymentsParse(payments: seq<Payment>)
    requires forall i :: 0 <= i < |payments| ==> PlainPayment(payments[i])
    ensures ParsePayments(PaymentTexts(payments)) == Some(payments)
  {
    hide PaymentText, ParsePayment;
    if payments != [] {
      PaymentParses(payments[0]);
      PaymentsParse(payments[1..]);
      assert PaymentTexts(payments)[1..] == PaymentTexts(payments[1..]);
      assert [payments[0]] + payments[1..] == payments;
    } else {
      assert PaymentTexts(payments) == [];
    }
  }

  lemma AmountsSplit(amounts: seq<int>)
    requires amounts != []
    ensures Split(Join(AmountTexts(amounts), '_'), '_') == AmountTexts(amounts)
    ensures '^' !in Join(AmountTexts(amounts), '_')
  {
    var texts := AmountTexts(amounts);
    forall i | 0 <= i < |texts| ensures '_' !in texts[i] && '^' !in texts[i] {
      PrintCentsParses(amounts[i]);
    }
    SplitJoin(texts, '_');
    JoinAvoids(texts, '_', '^');
  }

  lemma PaymentsSplit(payments: seq<Payment>)
    requires forall i :: 0 <= i < |payments| ==> PlainPayment(payments[i])
    ensures var text := Join(PaymentTexts(payments), '_');
            && '^' !in text
            && (if text == "" then [] else Split(text, '_')) == PaymentTexts(payments)
  {
    var texts := PaymentTexts(payments);
    forall i | 0 <= i < |texts| ensures '_' !in texts[i] && '^' !in texts[i] && texts[i] != "" {
      PaymentParses(payments[i]);
    }
    JoinAvoids(texts, '_', '^');
    if payments != [] {
      SplitJoin(texts, '_');
      JoinNotEmpty(texts, '_');
    }
  }

  /** A payment read from a text without '^' and '_' is plain. */
  lemma ParsedPaymentIsPlain(s: string)
    requires '^' !in s && '_' !in s
    ensures ParsePayment(s).Some? ==> PlainPayment(ParsePayment(s).value)
  {
    hide Split, ParseCents;
    SplitPartsArePlain(s, ':');
    SplitAvoids(s, ':', '^');
    SplitAvoids(s, ':', '_');
  }

  lemma {:induction false} ParsedPaymentsArePlain(parts: seq<string>)
    requires forall i :: 0 <= i < |parts| ==> '^' !in parts[i] && '_' !in parts[i]
    ensures ParsePayments(parts).Some? ==> forall p :: p in ParsePayments(parts).value ==> PlainPayment(p)
  {
    if parts != [] {
      ParsedPaymentIsPlain(parts[0]);
      ParsedPaymentsArePlain(parts[1..]);
    }
  }

  /** Whatever the text, the payments read from it are plain. */
  lemma ParsedIsPlain(text: string)
    ensures Parse(text).Some? ==> forall p :: p in Parse(text).value.payments ==> PlainPayment(p)
  {
    hide Split, ParsePayments, ParseAmounts;
    SplitPartsArePlain(text, '^');
    var parts := Split(text, '^');
    if |parts| == 3 {
      var texts := if parts[2] == "" then [] else Split(parts[2], '_');
      SplitPartsArePlain(parts[2], '_');
      SplitAvoids(parts[2], '_', '^');
      ParsedPaymentsArePlain(texts);
    }
  }

  /** The text decodes to exactly the amounts and payments it was made from if and only if kinds and
      currencies hold no separator; so no two such receipts share a text. */
  lemma ProcessDataParses(receiptType: string, amounts: seq<int>, payments: seq<Payment>)
    requires '^' !in receiptType && amounts != []
    ensures Parse(ProcessData(receiptType, amounts, PaymentTexts(payments))) == Some(Receipt(receiptType, amounts, payments))
            <==> forall p :: p in payments ==> PlainPayment(p)
  {
    hide *;
    var text := ProcessData(receiptType, amounts, PaymentTexts(payments));
    ParsedIsPlain(text);
    if forall p :: p in payments ==> PlainPayment(p) {
      PlainDataParses(receiptType, amounts, payments);
    }
  }

  lemma PlainDataParses(receiptType: string, amounts: seq<int>, payments: seq<Payment>)
    requires '^' !in receiptType && amounts != []
    requires forall i :: 0 <= i < |payments| ==> PlainPayment(payments[i])
    ensures Parse(ProcessData(receiptType, amounts, PaymentTexts(payments))) == Some(Receipt(receiptType, amounts, payments))
  {
    hide Join, Split, ParseAmounts, ParsePayments, AmountTexts, PaymentTexts;
    var parts := [receiptType, Join(AmountTexts(amounts), '_'), Join(PaymentTexts(payments), '_')];
    AmountsSplit(amounts);
    PaymentsSplit(payments);
    SplitJoin(parts, '^');
    AmountsParse(amounts);
    PaymentsParse(payments);
  }

  /** A character foreign to the format gets into the text only through the currency. */
  lemma ForeignChar(receiptType: string, amounts: seq<int>, p: Payment, c: char)
    requires !AmountChar(c) && c !in "^_:EUR" && c !in receiptType && c !in p.kind
    ensures c in ProcessData(receiptType, amounts, PaymentTexts([p])) <==> c in p.currency
  {
    hide Join, PrintCents;
    var texts := AmountTexts(amounts);
    forall i | 0 <= i < |texts| ensures c !in texts[i] {
      PrintCentsParses(amounts[i]);
    }
    JoinAvoids(texts, '_', c);
    PrintCentsParses(p.cents);
    var payment := if p.currency == "EUR" then [PrintCents(p.cents), p.kind] else [PrintCents(p.cents), p.kind, p.currency];
    assert PaymentText(p) == Join(payment, ':');
    var payments := PaymentTexts([p]);
    assert payments == [PaymentText(p)];
    var parts := [receiptType, Join(texts, '_'), Join(payments, '_')];
    if c in p.currency {
      assert payment[2] == p.currency;
      JoinContains(payment, ':', 2, c);
      JoinContains(payments, '_', 0, c);
      JoinContains(parts, '^', 2, c);
    } else {
      JoinAvoids(payment, ':', c);
      JoinAvoids(payments, '_', c);
      JoinAvoids(parts, '^', c);
    }
  }

  /** Without the condition on the currency it fails: "USD_1.00:Bar" begins like a currency and so passes
      the currency check, and the text then reads as two payments. */
  lemma CurrencyWithSeparator(cents: int, more: int)
    ensures var p := Payment(cents, "Bar", "USD" + "_" + PrintCents(more) + ":" + "Bar");
            && CurrencyAccepted(p.currency)
            && Join(PaymentTexts([p]), '_') == Join(PaymentTexts([Payment(cents, "Bar", "USD"), Payment(more, "Bar", "EUR")]), '_')
  {
    var bar, usd := "Bar", "USD";
    var currency := usd + "_" + PrintCents(more) + ":" + bar;
    assert usd != "EUR" && CurrencyAccepted(usd) && |usd| == 3;
    assert currency[..3] == usd;
    assert currency != "EUR" by { assert |currency| > 3; }
    TwoPaymentsInOne(cents, more, bar, usd, currency);
  }

  lemma TwoPaymentsInOne(cents: int, more: int, kind: string, first: string, currency: string)
    requires currency == first + "_" + PrintCents(more) + ":" + kind && currency != "EUR" && first != "EUR"
    ensures Join(PaymentTexts([Payment(cents, kind, currency)]), '_')
            == Join(PaymentTexts([Payment(cents, kind, first), Payment(more, kind, "EUR")]), '_')
  {
    hide PrintCents, Join, PaymentText;
    var p, q, r := Payment(cents, kind, currency), Payment(cents, kind, first), Payment(more, kind, "EUR");
    assert PaymentTexts([p]) == [PaymentText(p)];
    assert PaymentTexts([q, r]) == [PaymentText(q), PaymentText(r)];
    PaymentTextOf(p);
    PaymentTextOf(q);
    PaymentTextOf(r);
    JoinTwo(PaymentText(q), PaymentText(r), '_');
    JoinOne(PaymentText(p), '_');
  }

  lemma JoinOne(a: string, sep: char)
    ensures Join([a], sep) == a
  {
  }

  lemma JoinTwo(a: string, b: string, sep: char)
    ensures Join([a, b], sep) == a + [sep] + b
  {
  }

  lemma PaymentTextOf(p: Payment)
    ensures PaymentText(p) == PrintCents(p.cents) + ":" + p.kind + (if p.currency == "EUR" then "" else ":" + p.currency)
  {
    hide PrintCents;
    var amount := PrintCents(p.cents);
    JoinTwo(amount, p.kind, ':');
    JoinTwo(p.kind, p.currency, ':');
    assert [amount, p.kind, p.currency][1..] == [p.kind, p.currency];
    assert Join([amount, p.kind, p.currency], ':') == amount + ":" + (p.kind + ":" + p.currency);
  }
}
