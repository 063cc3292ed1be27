/** Redeeming vouchers on a pending order: which line items they pay for, and the discount lines per tax rate. */
module Voucher {

  import opened Wrappers
  import opened Greedy

  datatype Product = Product(name: string, price: real, pricePerVoucher: Option<real>, priceInVouchers: Option<int>)

  class PendingLineItem {
    const product: Product
    const quantity: int
    const taxRateId: int
    const taxName: string
    const taxRate: real
    var vouchersRedeemed: int

    constructor (product: Product, quantity: int, taxRateId: int, taxName: string, taxRate: real)
      ensures this.product == product && this.quantity == quantity && this.taxRateId == taxRateId
      ensures this.taxName == taxName && this.taxRate == taxRate && vouchersRedeemed == 0
    {
      this.product, this.quantity, this.taxRateId := product, quantity, taxRateId;
      this.taxName, this.taxRate, vouchersRedeemed := taxName, taxRate, 0;
    }
  }

  /** An item without either voucher price takes no vouchers. */
  function OfferOf(x: PendingLineItem): Offer
  {
    if x.product.priceInVouchers.None? || x.product.pricePerVoucher.None? then Offer(None, 0)
    else Offer(x.product.pricePerVoucher, x.product.priceInVouchers.value * x.quantity)
  }

  function Offers(items: seq<PendingLineItem>): (offers: seq<Offer>)
    ensures |offers| == |items|
  {
    seq(|items|, i requires 0 <= i < |items| => OfferOf(items[i]))
  }

  // ---- the order of visit ------------------------------------------------------------

  /** Comparison by (price_per_voucher is None, price_per_voucher), largest first. */
  predicate NotAfter(x: PendingLineItem, y: PendingLineItem)
  {
    x.product.pricePerVoucher.None?
    || (y.product.pricePerVoucher.Some? && x.product.pricePerVoucher.value >= y.product.pricePerVoucher.value)
  }

  function Insert(x: PendingLineItem, items: seq<PendingLineItem>): seq<PendingLineItem>
  {
    if items == [] || NotAfter(x, items[0]) then [x] + items else [items[0]] + Insert(x, items[1..])
  }

  /** sorted(..., reverse=True), which keeps the order of equal items. */
  function Sorted(items: seq<PendingLineItem>): seq<PendingLineItem>
  {
    if items == [] then [] else Insert(items[0], Sorted(items[1..]))
  }

  ghost predicate InOrder(items: seq<PendingLineItem>)
  {
    forall i, j :: 0 <= i < j < |items| ==> NotAfter(items[i], items[j])
  }

  lemma {:induction false} InsertKeepsOrder(x: PendingLineItem, items: seq<PendingLineItem>)
    requires InOrder(items)
    ensures InOrder(Insert(x, items)) && multiset(Insert(x, items)) == multiset(items) + multiset{x}
  {
    if items == [] || NotAfter(x, items[0]) {
      var all := Insert(x, items);
      forall i, j | 0 <= i < j < |all| ensures NotAfter(all[i], all[j]) {
        if i == 0 && j > 1 {
          assert NotAfter(items[0], items[j - 1]);
        }
      }
    } else {
      var rest := Insert(x, items[1..]);
      InsertKeepsOrder(x, items[1..]);
      assert items == [items[0]] + items[1..];
      assert forall k :: 0 <= k < |items[1..]| ==> NotAfter(items[0], items[1..][k]);
      forall j | 0 <= j < |rest| ensures NotAfter(items[0], rest[j]) {
        assert rest[j] in multiset(rest);
        assert rest[j] == x || rest[j] in items[1..];
      }
    }
  }

  lemma {:induction false} SortedSorts(items: seq<PendingLineItem>)
    ensures InOrder(Sorted(items)) && multiset(Sorted(items)) == multiset(items)
    ensures |Sorted(items)| == |items|
  {
    if items != [] {
      SortedSorts(items[1..]);
      InsertKeepsOrder(items[0], Sorted(items[1..]));
      assert items == [items[0]] + items[1..];
    }
    assert |multiset(Sorted(items))| == |Sorted(items)| && |multiset(items)| == |items|;
  }

  lemma {:induction false} OffersPermute(items: seq<PendingLineItem>, others: seq<PendingLineItem>)
    requires multiset(items) == multiset(others)
    ensures multiset(Offers(items)) == multiset(Offers(others))
    decreases |others|
  {
    if others == [] {
      assert |multiset(items)| == 0;
    } else {
      assert others[0] in multiset(items);
      var k :| 0 <= k < |items| && items[k] == others[0];
      RemoveOne(items, others, k);
      var rest := items[..k] + items[k + 1..];
      OffersPermute(rest, others[1..]);
      assert Offers(items) == Offers(items)[..k] + [OfferOf(items[k])] + Offers(items)[k + 1..];
      assert Offers(rest) == Offers(items)[..k] + Offers(items)[k + 1..];
      assert Offers(others) == [OfferOf(others[0])] + Offers(others[1..]);
    }
  }

  /** The visit starts with the items whose vouchers are worth most. */
  lemma VisitIsDescending(items: seq<PendingLineItem>)
    ensures Descending(Offers(Sorted(items)))
    ensures multiset(Offers(Sorted(items))) == multiset(Offers(items))
  {
    SortedSorts(items);
    OffersPermute(Sorted(items), items);
    var sorted := Sorted(items);
    var offers := Offers(sorted);
    forall i, j | 0 <= i < j < |offers| && offers[i].rate.Some? && offers[j].rate.Some?
      ensures offers[i].rate.value >= offers[j].rate.value
    {
      assert NotAfter(sorted[i], sorted[j]);
    }
  }

  // ---- discount lines ----------------------------------------------------------------

  /** A line for the discount product, of quantity 1. */
  datatype Discount = Discount(taxName: string, taxRateId: int, taxRate: real, price: real)

  /** One line per tax name, in order of first use, with the tax fields of the first item. */
  function Deduct(lines: seq<Discount>, x: PendingLineItem, deduction: real): seq<Discount>
  {
    if lines == [] then [Discount(x.taxName, x.taxRateId, x.taxRate, -deduction)]
    else if lines[0].taxName == x.taxName then [lines[0].(price := lines[0].price - deduction)] + lines[1..]
    else [lines[0]] + Deduct(lines[1..], x, deduction)
  }

  function DiscountLines(items: seq<PendingLineItem>, budget: int, lines: seq<Discount>): seq<Discount>
  {
    if items == [] || budget <= 0 then lines
    else
      var offer := OfferOf(items[0]);
      if offer.rate.None? then DiscountLines(items[1..], budget, lines)
      else
        var take := Min(budget, offer.capacity);
        DiscountLines(items[1..], budget - take, Deduct(lines, items[0], Worth(offer, take)))
  }

  /** Sum of the lines of one tax name. */
  function TaxTotal(lines: seq<Discount>, tax: string): real
  {
    if lines == [] then 0.0
    else (if lines[0].taxName == tax then lines[0].price else 0.0) + TaxTotal(lines[1..], tax)
  }

  function Total(lines: seq<Discount>): real
  {
    if lines == [] then 0.0 else lines[0].price + Total(lines[1..])
  }

  /** What the vouchers pay for the items of one tax name. */
  function TaxDeduction(items: seq<PendingLineItem>, taken: seq<int>, tax: string): real
    requires |taken| == |items|
  {
    if items == [] then 0.0
    else (if items[0].taxName == tax then Worth(OfferOf(items[0]), taken[0]) else 0.0)
         + TaxDeduction(items[1..], taken[1..], tax)
  }

  predicate OneLinePerTax(lines: seq<Discount>)
  {
    forall i, j :: 0 <= i < j < |lines| ==> lines[i].taxName != lines[j].taxName
  }

  lemma {:induction false} DeductTaxTotal(lines: seq<Discount>, x: PendingLineItem, deduction: real, tax: string)
    ensures TaxTotal(Deduct(lines, x, deduction), tax)
            == TaxTotal(lines, tax) - (if x.taxName == tax then deduction else 0.0)
  {
    if lines != [] && lines[0].taxName != x.taxName {
      DeductTaxTotal(lines[1..], x, deduction, tax);
      assert Deduct(lines, x, deduction)[1..] == Deduct(lines[1..], x, deduction);
    }
  }

  lemma {:induction false} DeductTotal(lines: seq<Discount>, x: PendingLineItem, deduction: real)
    ensures Total(Deduct(lines, x, deduction)) == Total(lines) - deduction
  {
    if lines != [] && lines[0].taxName != x.taxName {
      DeductTotal(lines[1..], x, deduction);
      assert Deduct(lines, x, deduction)[1..] == Deduct(lines[1..], x, deduction);
    }
  }

  lemma {:induction false} DeductNames(lines: seq<Discount>, x: PendingLineItem, deduction: real)
    requires OneLinePerTax(lines)
    ensures OneLinePerTax(Deduct(lines, x, deduction))
    ensures forall d :: d in Deduct(lines, x, deduction) ==> d.taxName == x.taxName || d in lines
  {
    if lines != [] && lines[0].taxName != x.taxName {
      DeductNames(lines[1..], x, deduction);
      var after := Deduct(lines[1..], x, deduction);
      assert lines == [lines[0]] + lines[1..];
      forall j | 0 <= j < |after| ensures after[j].taxName != lines[0].taxName {
        assert after[j] in after;
      }
    }
  }

  lemma {:induction false} NothingTaken(items: seq<PendingLineItem>, tax: string)
    ensures TaxDeduction(items, Zeros(|items|), tax) == 0.0
  {
    if items != [] {
      NothingTaken(items[1..], tax);
      assert Zeros(|items|)[1..] == Zeros(|items[1..]|);
    }
  }

  /** The line of each tax name is minus the deductions of its items; together they are minus the gain. */
  lemma {:induction false} LinesMatchDeductions(items: seq<PendingLineItem>, budget: int, lines: seq<Discount>, tax: string)
    ensures var taken, after := Spend(Offers(items), budget), DiscountLines(items, budget, lines);
            && TaxTotal(after, tax) == TaxTotal(lines, tax) - TaxDeduction(items, taken, tax)
            && Total(after) == Total(lines) - Gain(Offers(items), taken)
            && (OneLinePerTax(lines) ==> OneLinePerTax(after))
  {
    hide Times, Deduct, OneLinePerTax, OfferOf;
    var offers := Offers(items);
    if items == [] {
    } else if budget <= 0 {
      ZerosSpendNothing(offers);
      NothingTaken(items, tax);
    } else {
      assert offers[1..] == Offers(items[1..]);
      var offer := offers[0];
      var take := if offer.rate.None? then 0 else Min(budget, offer.capacity);
      var lines' := if offer.rate.None? then lines else Deduct(lines, items[0], Worth(offer, take));
      LinesMatchDeductions(items[1..], budget - take, lines', tax);
      DeductTaxTotal(lines, items[0], Worth(offer, take), tax);
      DeductTotal(lines, items[0], Worth(offer, take));
      if OneLinePerTax(lines) {
        DeductNames(lines, items[0], Worth(offer, take));
      }
      assert Spend(offers, budget) == [take] + Spend(Offers(items[1..]), budget - take);
      assert Spend(offers, budget)[1..] == Spend(Offers(items[1..]), budget - take);
    }
  }

  /** With one line per tax name the sum over a name is that line. */
  lemma {:induction false} LineIsTotal(lines: seq<Discount>, i: nat)
    requires OneLinePerTax(lines) && i < |lines|
    ensures TaxTotal(lines, lines[i].taxName) == lines[i].price
  {
    if i == 0 {
      NoLine(lines[1..], lines[0].taxName);
    } else {
      assert lines[1..][i - 1] == lines[i];
      LineIsTotal(lines[1..], i - 1);
    }
  }

  lemma {:induction false} NoLine(lines: seq<Discount>, tax: string)
    requires forall i :: 0 <= i < |lines| ==> lines[i].taxName != tax
    ensures TaxTotal(lines, tax) == 0.0
  {
    if lines != [] {
      NoLine(lines[1..], tax);
    }
  }

  // ---- the service -------------------------------------------------------------------

  function TaxNames(lines: seq<Discount>): (names: seq<string>)
    ensures |names| == |lines|
  {
    seq(|lines|, i requires 0 <= i < |lines| => lines[i].taxName)
  }

  /** Where the line of a tax name stands after a deduction, and that nothing else moved. */
  lemma {:induction false} DeductAt(lines: seq<Discount>, x: PendingLineItem, deduction: real)
    requires OneLinePerTax(lines)
    ensures x.taxName !in TaxNames(lines) ==>
              Deduct(lines, x, deduction) == lines + [Discount(x.taxName, x.taxRateId, x.taxRate, -deduction)]
    ensures forall k :: 0 <= k < |lines| && lines[k].taxName == x.taxName ==>
              Deduct(lines, x, deduction) == lines[k := lines[k].(price := lines[k].price - deduction)]
  {
    if lines != [] && lines[0].taxName != x.taxName {
      DeductAt(lines[1..], x, deduction);
      assert TaxNames(lines)[1..] == TaxNames(lines[1..]);
      forall k | 0 <= k < |lines| && lines[k].taxName == x.taxName
        ensures Deduct(lines, x, deduction) == lines[k := lines[k].(price := lines[k].price - deduction)]
      {
        assert lines[1..][k - 1].taxName == x.taxName;
      }
    } else if lines != [] {
      assert TaxNames(lines)[0] == x.taxName;
    }
  }

  predicate Distinct(items: seq<PendingLineItem>)
  {
    forall i, j :: 0 <= i < j < |items| ==> items[i] != items[j]
  }

  lemma {:induction false} InsertDistinct(x: PendingLineItem, items: seq<PendingLineItem>)
    requires Distinct(items) && x !in items
    ensures Distinct(Insert(x, items))
    ensures forall j :: 0 <= j < |Insert(x, items)| ==> Insert(x, items)[j] == x || Insert(x, items)[j] in items
  {
    if items == [] || NotAfter(x, items[0]) {
      assert Insert(x, items) == [x] + items;
    } else {
      var rest := Insert(x, items[1..]);
      InsertDistinct(x, items[1..]);
      assert items == [items[0]] + items[1..];
      assert Insert(x, items) == [items[0]] + rest;
      assert items[0] !in items[1..];
    }
  }

  lemma {:induction false} SortedDistinct(items: seq<PendingLineItem>)
    requires Distinct(items)
    ensures Distinct(Sorted(items))
    ensures forall j :: 0 <= j < |Sorted(items)| ==> Sorted(items)[j] in items
  {
    if items != [] {
      SortedDistinct(items[1..]);
      assert items[0] !in items[1..];
      InsertDistinct(items[0], Sorted(items[1..]));
    }
  }

  /** The item shows the vouchers spent on it; an item the loop does not reach keeps its old number. */
  predicate Redeemed(now: int, before: int, take: int) { now == take || (take == 0 && now == before) }

  function Take(x: PendingLineItem, remaining: int): int
  {
    if OfferOf(x).rate.None? then 0 else Min(remaining, OfferOf(x).capacity)
  }

  function LinesAfter(lines: seq<Discount>, x: PendingLineItem, remaining: int): seq<Discount>
  {
    if OfferOf(x).rate.None? then lines else Deduct(lines, x, Worth(OfferOf(x), Take(x, remaining)))
  }

  lemma VisitStep(items: seq<PendingLineItem>, i: nat, remaining: int, lines: seq<Discount>)
    requires i < |items| && remaining > 0
    ensures var take := Take(items[i], remaining);
            && Spend(Offers(items)[i..], remaining) == [take] + Spend(Offers(items)[i + 1..], remaining - take)
            && DiscountLines(items[i..], remaining, lines)
               == DiscountLines(items[i + 1..], remaining - take, LinesAfter(lines, items[i], remaining))
  {
    var offers := Offers(items);
    assert offers[i..][0] == OfferOf(items[i]) && offers[i..][1..] == offers[i + 1..];
    assert items[i..][0] == items[i] && items[i..][1..] == items[i + 1..];
  }

  /** The dictionary with its keys in order of insertion holds the given lines. */
  ghost predicate Keeps(byTax: map<string, Discount>, names: seq<string>, lines: seq<Discount>)
  {
    && names == TaxNames(lines) && OneLinePerTax(lines)
    && (forall name :: name in byTax <==> name in names)
    && forall k :: 0 <= k < |lines| ==> lines[k].taxName in byTax && byTax[lines[k].taxName] == lines[k]
  }

  /** Opening an entry for the item's tax name is Deduct on the lines. */
  lemma NewEntry(byTax: map<string, Discount>, names: seq<string>, lines: seq<Discount>, x: PendingLineItem,
                 deduction: real)
    requires Keeps(byTax, names, lines) && x.taxName !in byTax
    ensures Keeps(byTax[x.taxName := Discount(x.taxName, x.taxRateId, x.taxRate, -deduction)], names + [x.taxName],
                  Deduct(lines, x, deduction))
  {
    hide Deduct;
    DeductAt(lines, x, deduction);
    DeductNames(lines, x, deduction);
    assert names + [x.taxName] == TaxNames(Deduct(lines, x, deduction));
  }

  /** Adding a deduction to the entry of the item's tax name is Deduct on the lines. */
  lemma OldEntry(byTax: map<string, Discount>, names: seq<string>, lines: seq<Discount>, x: PendingLineItem,
                 deduction: real)
    requires Keeps(byTax, names, lines) && x.taxName in byTax
    ensures Keeps(byTax[x.taxName := byTax[x.taxName].(price := byTax[x.taxName].price - deduction)], names,
                  Deduct(lines, x, deduction))
  {
    hide Deduct, OneLinePerTax;
    DeductAt(lines, x, deduction);
    DeductNames(lines, x, deduction);
    var k :| 0 <= k < |names| && names[k] == x.taxName;
    OnlyLine(lines, k);
    var lines' := lines[k := lines[k].(price := lines[k].price - deduction)];
    assert lines[k].taxName == x.taxName && Deduct(lines, x, deduction) == lines';
    assert names == TaxNames(lines');
  }

  lemma OnlyLine(lines: seq<Discount>, k: nat)
    requires OneLinePerTax(lines) && k < |lines|
    ensures forall i :: 0 <= i < |lines| && i != k ==> lines[i].taxName != lines[k].taxName
  {
  }

  /** One item: the vouchers it takes, and its discount in the dictionary. */
  method VisitItem(x: PendingLineItem, remaining: int, byTax: map<string, Discount>, names: seq<string>,
                   ghost lines: seq<Discount>)
      returns (take: int, byTax': map<string, Discount>, names': seq<string>)
    requires Keeps(byTax, names, lines)
    modifies x
    ensures take == Take(x, remaining) && Redeemed(x.vouchersRedeemed, old(x.vouchersRedeemed), take)
    ensures Keeps(byTax', names', LinesAfter(lines, x, remaining))
  {
    hide Deduct, Keeps, Times, Min, LinesAfter, Take;
    OfferTaken(x, remaining, lines);
    if x.product.priceInVouchers.None? || x.product.pricePerVoucher.None? {
      return 0, byTax, names;
    }
    take := Min(remaining, x.product.priceInVouchers.value * x.quantity);
    var deduction := Times(x.product.pricePerVoucher.value, take);
    x.vouchersRedeemed := take;
    if x.taxName !in byTax {
      NewEntry(byTax, names, lines, x, deduction);
      byTax' := byTax[x.taxName := Discount(x.taxName, x.taxRateId, x.taxRate, -deduction)];
      names' := names + [x.taxName];
    } else {
      OldEntry(byTax, names, lines, x, deduction);
      byTax' := byTax[x.taxName := byTax[x.taxName].(price := byTax[x.taxName].price - deduction)];
      names' := names;
    }
  }

  /** compute_optimal_voucher_usage: discount lines are kept in a dictionary by tax name. */
  method ComputeOptimalVoucherUsage(maxVouchers: int, lineItems: seq<PendingLineItem>)
      returns (usedVouchers: int, additional: seq<Discount>)
    requires Distinct(lineItems)
    modifies lineItems
    ensures usedVouchers == Count(Spend(Offers(Sorted(lineItems)), maxVouchers))
    ensures forall k :: 0 <= k < |Sorted(lineItems)| ==>
              var x := Sorted(lineItems)[k];
              x in lineItems
              && Redeemed(x.vouchersRedeemed, old(x.vouchersRedeemed), Spend(Offers(Sorted(lineItems)), maxVouchers)[k])
    ensures additional == DiscountLines(Sorted(lineItems), maxVouchers, [])
  {
    hide Spend, Sorted, Offers, Deduct, Keeps, DiscountLines, Count, Distinct, LinesAfter, Take, Redeemed, Zeros;
    var sorted := Sorted(lineItems);
    ghost var offers := Offers(sorted);
    SortedDistinct(lineItems);
    NothingLeft(sorted, 0, maxVouchers, []);
    assert sorted[0..] == sorted && offers[0..] == offers;
    if maxVouchers == 0 {
      EndOfVisit([], Spend(offers, 0));
      forall k | 0 <= k < |sorted| ensures Redeemed(sorted[k].vouchersRedeemed, old(sorted[k].vouchersRedeemed), 0) {
        UntakenIsRedeemed(old(sorted[k].vouchersRedeemed));
      }
      return 0, [];
    }
    usedVouchers := 0;
    var byTax: map<string, Discount> := map[];
    var names: seq<string> := [];
    var i := 0;
    ghost var taken: seq<int> := [];
    ghost var lines: seq<Discount> := [];
    NothingKept();
    DistinctPairs(sorted);
    while i < |sorted| && usedVouchers < maxVouchers
      invariant 0 <= i <= |sorted| && |taken| == i
      invariant Spend(offers, maxVouchers) == taken + Spend(offers[i..], maxVouchers - usedVouchers)
      invariant usedVouchers == Count(taken)
      invariant forall k :: 0 <= k < i ==>
                  Redeemed(sorted[k].vouchersRedeemed, old(sorted[k].vouchersRedeemed), taken[k])
      invariant forall k :: i <= k < |sorted| ==> sorted[k].vouchersRedeemed == old(sorted[k].vouchersRedeemed)
      invariant DiscountLines(sorted, maxVouchers, []) == DiscountLines(sorted[i..], maxVouchers - usedVouchers, lines)
      invariant Keeps(byTax, names, lines)
    {
      var x := sorted[i];
      assert x in lineItems;
      var remaining := maxVouchers - usedVouchers;
      VisitStep(sorted, i, remaining, lines);
      CountAppend(taken, Take(x, remaining));
      var take;
      take, byTax, names := VisitItem(x, remaining, byTax, names, lines);
      usedVouchers := usedVouchers + take;
      lines := LinesAfter(lines, x, remaining);
      taken := taken + [take];
      i := i + 1;
    }
    NothingLeft(sorted, i, maxVouchers - usedVouchers, lines);
    EndOfVisit(taken, Spend(offers[i..], maxVouchers - usedVouchers));
    forall k | i <= k < |sorted|
      ensures Redeemed(sorted[k].vouchersRedeemed, old(sorted[k].vouchersRedeemed), Spend(offers, maxVouchers)[k])
    {
      UntakenIsRedeemed(old(sorted[k].vouchersRedeemed));
    }
    KeptLines(byTax, names, lines);
    additional := seq(|names|, k requires 0 <= k < |names| && names[k] in byTax => byTax[names[k]]);
  }

  lemma EndOfVisit(taken: seq<int>, rest: seq<int>)
    requires rest == Zeros(|rest|) && Count(rest) == 0
    ensures Count(taken + rest) == Count(taken)
    ensures forall k :: 0 <= k < |rest| ==> rest[k] == 0 && (taken + rest)[|taken| + k] == 0
  {
    CountConcat(taken, rest);
  }

  lemma DistinctPairs(items: seq<PendingLineItem>)
    requires Distinct(items)
    ensures forall i, j :: 0 <= i < |items| && 0 <= j < |items| && i != j ==> items[i] != items[j]
  {
  }

  lemma UntakenIsRedeemed(before: int)
    ensures Redeemed(before, before, 0)
  {
  }

  lemma OfferTaken(x: PendingLineItem, remaining: int, lines: seq<Discount>)
    ensures if x.product.priceInVouchers.Some? && x.product.pricePerVoucher.Some?
            then
              var take := Min(remaining, x.product.priceInVouchers.value * x.quantity);
              && Take(x, remaining) == take
              && LinesAfter(lines, x, remaining) == Deduct(lines, x, Times(x.product.pricePerVoucher.value, take))
            else Take(x, remaining) == 0 && LinesAfter(lines, x, remaining) == lines
  {
    hide Times, Deduct;
  }

  lemma NothingKept()
    ensures Keeps(map[], [], []) && Count([]) == 0
  {
  }

  lemma KeptLines(byTax: map<string, Discount>, names: seq<string>, lines: seq<Discount>)
    requires Keeps(byTax, names, lines)
    ensures |lines| == |names| && forall k :: 0 <= k < |names| ==> names[k] in byTax && byTax[names[k]] == lines[k]
  {
  }

  /** Once the items or the vouchers are used up, nothing more is taken. */
  lemma NothingLeft(items: seq<PendingLineItem>, i: nat, remaining: int, lines: seq<Discount>)
    requires i <= |items|
    ensures |Offers(items)[i..]| == |items| - i
    ensures i == |items| || remaining <= 0 ==>
              && Spend(Offers(items)[i..], remaining) == Zeros(|Offers(items)[i..]|)
              && Count(Zeros(|Offers(items)[i..]|)) == 0
              && DiscountLines(items[i..], remaining, lines) == lines
  {
    ZerosSpendNothing(Offers(items)[i..]);
  }

  lemma {:induction false} CountConcat(a: seq<int>, b: seq<int>)
    ensures Count(a + b) == Count(a) + Count(b)
  {
    if a == [] {
      assert a + b == b;
    } else {
      CountConcat(a[1..], b);
      assert (a + b)[1..] == a[1..] + b;
    }
  }

  lemma CountAppend(a: seq<int>, n: int)
    ensures Count(a + [n]) == Count(a) + n
  {
    CountConcat(a, [n]);
  }

  // ---- what the service promises -----------------------------------------------------

  /** No admissible way of spending the vouchers, in whatever order the items are listed, takes more off
      the price, and as many vouchers are spent as there are and as fit. */
  lemma UsageIsOptimal(lineItems: seq<PendingLineItem>, maxVouchers: int, taken: seq<int>)
    requires Sound(Offers(lineItems)) && Feasible(Offers(lineItems), taken, maxVouchers)
    ensures Gain(Offers(lineItems), taken) <= -Total(DiscountLines(Sorted(lineItems), maxVouchers, []))
    ensures Count(Spend(Offers(Sorted(lineItems)), maxVouchers)) == Min(maxVouchers, TotalRoom(Offers(lineItems)))
  {
    var offers, sorted := Offers(lineItems), Sorted(lineItems);
    VisitIsDescending(lineItems);
    GreedyBeatsAll(offers, Offers(sorted), maxVouchers, taken);
    LinesMatchDeductions(sorted, maxVouchers, [], "");
    SoundPermutes(offers, Offers(sorted));
    SpendIsFeasible(Offers(sorted), maxVouchers);
    CountIsNatural(taken);
    RoomAbovePermutes(offers, Offers(sorted), -1.0);
    RoomIsAll(offers);
    RoomIsAll(Offers(sorted));
  }

  /** Each discount line is minus what the vouchers pay for the items of its tax name, one line a name. */
  lemma DiscountPerTax(lineItems: seq<PendingLineItem>, maxVouchers: int, i: nat)
    requires i < |DiscountLines(Sorted(lineItems), maxVouchers, [])|
    ensures var lines, sorted := DiscountLines(Sorted(lineItems), maxVouchers, []), Sorted(lineItems);
            && OneLinePerTax(lines)
            && lines[i].price == -TaxDeduction(sorted, Spend(Offers(sorted), maxVouchers), lines[i].taxName)
  {
    var lines := DiscountLines(Sorted(lineItems), maxVouchers, []);
    LinesMatchDeductions(Sorted(lineItems), maxVouchers, [], lines[i].taxName);
    LineIsTotal(lines, i);
  }
}
