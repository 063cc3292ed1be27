/** The product table of the daily report: sales per product, with each order's voucher discount attributed
    back to the products it was given for. */
module DailyReport {

  import opened Wrappers
  import opened Greedy
  import V = Voucher

  const DISCOUNT := "Rabatt"

  /** A line of a sale that was not cancelled. */
  datatype Row = Row(productName: string, productPrice: real, priceInVouchers: Option<int>, quantity: int, totalPrice: real)

  /** Prices are positive and quantities are not negative where vouchers can be used; discounts cannot
      be paid with vouchers. */
  predicate WellFormed(row: Row)
  {
    row.priceInVouchers.Some? ==>
      row.priceInVouchers.value > 0 && row.productPrice > 0.0 && row.quantity >= 0 && row.productName != DISCOUNT
  }

  function OfferOf(row: Row): Offer
    requires WellFormed(row)
  {
    if row.priceInVouchers.None? then Offer(None, 0)
    else Offer(Some(row.productPrice / row.priceInVouchers.value as real), row.quantity * row.priceInVouchers.value)
  }

  predicate AllWellFormed(rows: seq<Row>) { forall i :: 0 <= i < |rows| ==> WellFormed(rows[i]) }

  function Offers(rows: seq<Row>): (offers: seq<Offer>)
    requires AllWellFormed(rows)
    ensures |offers| == |rows|
  {
    seq(|rows|, i requires 0 <= i < |rows| => OfferOf(rows[i]))
  }

  lemma OffersArePositive(rows: seq<Row>)
    requires AllWellFormed(rows)
    ensures Positive(Offers(rows))
  {
    forall i | 0 <= i < |rows| && Offers(rows)[i].rate.Some?
      ensures Offers(rows)[i].rate.value > 0.0 && Offers(rows)[i].capacity >= 0
    {
      assert WellFormed(rows[i]);
      Quotient(rows[i].productPrice, rows[i].priceInVouchers.value);
      NatProduct(rows[i].quantity, rows[i].priceInVouchers.value);
    }
  }

  lemma Quotient(a: real, b: int)
    requires a > 0.0 && b > 0
    ensures a / b as real > 0.0
  {
  }

  lemma NatProduct(a: int, b: int)
    requires a >= 0 && b >= 0
    ensures a * b >= 0
  {
  }

  // ---- the table ---------------------------------------------------------------------

  datatype ProductRow = ProductRow(name: string, quantity: real, totalPrice: real, noDiscounted: real, totalDiscounted: real)

  predicate OneRowPerName(table: seq<ProductRow>)
  {
    forall i, j :: 0 <= i < j < |table| ==> table[i].name != table[j].name
  }

  function Names(table: seq<ProductRow>): set<string> { set i | 0 <= i < |table| :: table[i].name }

  /** groupby("product_name"), one sale line at a time. */
  function Collect(table: seq<ProductRow>, row: Row): seq<ProductRow>
  {
    if table == [] then [ProductRow(row.productName, row.quantity as real, row.totalPrice, 0.0, 0.0)]
    else if table[0].name == row.productName then
      [table[0].(quantity := table[0].quantity + row.quantity as real,
                 totalPrice := table[0].totalPrice + row.totalPrice)] + table[1..]
    else [table[0]] + Collect(table[1..], row)
  }

  /** Moves a discount out of the sales of one product. */
  function Adjust(table: seq<ProductRow>, name: string, count: real, amount: real): seq<ProductRow>
  {
    if table == [] then []
    else
      var r := table[0];
      [if r.name != name then r
       else ProductRow(name, r.quantity - count, r.totalPrice - amount, r.noDiscounted + count, r.totalDiscounted + amount)]
      + Adjust(table[1..], name, count, amount)
  }

  /** Sales without the discount product. */
  function Revenue(table: seq<ProductRow>): real
  {
    if table == [] then 0.0 else (if table[0].name == DISCOUNT then 0.0 else table[0].totalPrice) + Revenue(table[1..])
  }

  function Discounted(table: seq<ProductRow>): real
  {
    if table == [] then 0.0 else table[0].totalDiscounted + Discounted(table[1..])
  }

  function WithoutDiscountRow(table: seq<ProductRow>): seq<ProductRow>
  {
    if table == [] then []
    else (if table[0].name == DISCOUNT then [] else [table[0]]) + WithoutDiscountRow(table[1..])
  }

  lemma {:induction false} CollectSums(table: seq<ProductRow>, row: Row)
    requires OneRowPerName(table)
    ensures var after := Collect(table, row);
            && OneRowPerName(after) && Names(after) == Names(table) + {row.productName}
            && Revenue(after) == Revenue(table) + (if row.productName == DISCOUNT then 0.0 else row.totalPrice)
            && Discounted(after) == Discounted(table)
  {
    hide Names, OneRowPerName;
    if table == [] {
      OneName(ProductRow(row.productName, row.quantity as real, row.totalPrice, 0.0, 0.0));
    } else if table[0].name == row.productName {
      var after := Collect(table, row);
      assert after[1..] == table[1..];
      SameNames(table, after);
      NamesSplit(table);
      SameNamesUnique(table, after);
    } else {
      UniqueSplit(table);
      CollectSums(table[1..], row);
      var rest := Collect(table[1..], row);
      assert Collect(table, row)[1..] == rest;
      NamesSplit(table);
      NamesSplit(Collect(table, row));
      UniqueCons(table[0], rest);
      assert Collect(table, row) == [table[0]] + rest;
    }
  }

  lemma OneName(r: ProductRow)
    ensures OneRowPerName([r]) && Names([r]) == {r.name} && Names([]) == {}
  {
    assert [r][0].name in Names([r]);
  }

  lemma SameNamesUnique(table: seq<ProductRow>, other: seq<ProductRow>)
    requires |table| == |other| && OneRowPerName(table)
    requires forall i :: 0 <= i < |table| ==> table[i].name == other[i].name
    ensures OneRowPerName(other)
  {
  }

  lemma UniqueSplit(table: seq<ProductRow>)
    requires OneRowPerName(table) && table != []
    ensures OneRowPerName(table[1..]) && table[0].name !in Names(table[1..])
  {
  }

  lemma UniqueCons(r: ProductRow, table: seq<ProductRow>)
    requires OneRowPerName(table) && r.name !in Names(table)
    ensures OneRowPerName([r] + table)
  {
    forall j | 0 <= j < |table| ensures table[j].name != r.name {
      assert table[j].name in Names(table);
    }
  }

  lemma NamesSplit(table: seq<ProductRow>)
    requires table != []
    ensures Names(table) == {table[0].name} + Names(table[1..])
  {
    forall name | name in Names(table) ensures name in {table[0].name} + Names(table[1..]) {
      var i :| 0 <= i < |table| && table[i].name == name;
      if i > 0 {
        assert table[1..][i - 1].name == name;
      }
    }
    forall name | name in Names(table[1..]) ensures name in Names(table) {
      var i :| 0 <= i < |table[1..]| && table[1..][i].name == name;
      assert table[i + 1].name == name;
    }
  }

  lemma SameNames(table: seq<ProductRow>, other: seq<ProductRow>)
    requires |table| == |other| && forall i :: 0 <= i < |table| ==> table[i].name == other[i].name
    ensures Names(table) == Names(other)
  {
  }

  lemma {:induction false} AdjustOther(table: seq<ProductRow>, name: string, count: real, amount: real)
    requires forall i :: 0 <= i < |table| ==> table[i].name != name
    ensures Adjust(table, name, count, amount) == table
  {
    if table != [] {
      AdjustOther(table[1..], name, count, amount);
    }
  }

  lemma {:induction false} AdjustKeepsNames(table: seq<ProductRow>, name: string, count: real, amount: real)
    ensures var after := Adjust(table, name, count, amount);
            |after| == |table| && forall i :: 0 <= i < |table| ==> after[i].name == table[i].name
  {
    if table != [] {
      AdjustKeepsNames(table[1..], name, count, amount);
    }
  }

  lemma {:induction false} AdjustSums(table: seq<ProductRow>, name: string, count: real, amount: real)
    requires OneRowPerName(table)
    ensures var after := Adjust(table, name, count, amount);
            && OneRowPerName(after) && Names(after) == Names(table)
            && (name in Names(table) && name != DISCOUNT ==>
                  Revenue(after) == Revenue(table) - amount && Discounted(after) == Discounted(table) + amount)
            && (amount == 0.0 ==> Revenue(after) == Revenue(table) && Discounted(after) == Discounted(table))
  {
    AdjustKeepsNames(table, name, count, amount);
    SameNames(table, Adjust(table, name, count, amount));
    if table != [] {
      NamesSplit(table);
      if table[0].name == name {
        AdjustOther(table[1..], name, count, amount);
      } else {
        AdjustSums(table[1..], name, count, amount);
      }
    }
  }

  // ---- one order ---------------------------------------------------------------------

  /** sort_values("price_per_voucher", ascending=False): rows without a price in vouchers come last. */
  predicate Arranged(rows: seq<Row>)
    requires AllWellFormed(rows)
  {
    && Descending(Offers(rows))
    && forall i, j :: 0 <= i < j < |rows| && rows[j].priceInVouchers.Some? ==> rows[i].priceInVouchers.Some?
  }

  function DiscountTotal(rows: seq<Row>): real
  {
    if rows == [] then 0.0 else (if rows[0].productName == DISCOUNT then rows[0].totalPrice else 0.0) + DiscountTotal(rows[1..])
  }

  function TotalPrice(rows: seq<Row>): real
  {
    if rows == [] then 0.0 else rows[0].totalPrice + TotalPrice(rows[1..])
  }

  /** The products a share of vouchers paid for. */
  function Pieces(row: Row, share: int): real
    requires WellFormed(row)
  {
    if row.priceInVouchers.None? then 0.0 else share as real / row.priceInVouchers.value as real
  }

  function AdjustAll(table: seq<ProductRow>, rows: seq<Row>, shares: seq<int>): seq<ProductRow>
    requires AllWellFormed(rows) && |shares| == |rows|
    decreases |rows|
  {
    if rows == [] then table
    else AdjustAll(Adjust(table, rows[0].productName, Pieces(rows[0], shares[0]), Worth(OfferOf(rows[0]), shares[0])),
                   rows[1..], shares[1..])
  }

  lemma {:induction false} AdjustAllSums(table: seq<ProductRow>, rows: seq<Row>, shares: seq<int>)
    requires AllWellFormed(rows) && |shares| == |rows| && OneRowPerName(table)
    requires forall i :: 0 <= i < |rows| ==> rows[i].productName in Names(table)
    ensures var after := AdjustAll(table, rows, shares);
            && OneRowPerName(after) && Names(after) == Names(table)
            && Revenue(after) == Revenue(table) - Gain(Offers(rows), shares)
            && Discounted(after) == Discounted(table) + Gain(Offers(rows), shares)
    decreases |rows|
  {
    hide Adjust, Worth, Pieces;
    if rows != [] {
      var amount := Worth(OfferOf(rows[0]), shares[0]);
      AdjustSums(table, rows[0].productName, Pieces(rows[0], shares[0]), amount);
      NoWorth(rows[0], shares[0]);
      AdjustAllSums(Adjust(table, rows[0].productName, Pieces(rows[0], shares[0]), amount), rows[1..], shares[1..]);
      assert Offers(rows)[1..] == Offers(rows[1..]);
    }
  }

  lemma NoWorth(row: Row, share: int)
    requires WellFormed(row)
    ensures row.productName == DISCOUNT ==> Worth(OfferOf(row), share) == 0.0
  {
  }

  /** What the discount lines of an order say the vouchers were worth, and the shares explained by it. */
  function DiscountWorth(rows: seq<Row>): real { -DiscountTotal(rows) }

  function Shares(rows: seq<Row>): (shares: seq<int>)
    requires AllWellFormed(rows)
    ensures |shares| == |rows|
  {
    OffersArePositive(rows);
    Attribute(Offers(rows), DiscountWorth(rows))
  }

  /** The worth no product explains. */
  function Unexplained(rows: seq<Row>): real
    requires AllWellFormed(rows)
  {
    OffersArePositive(rows);
    DiscountWorth(rows) - Gain(Offers(rows), Shares(rows))
  }

  lemma {:induction false} AdjustByNothing(table: seq<ProductRow>, name: string)
    ensures Adjust(table, name, 0.0, 0.0) == table
  {
    if table != [] {
      AdjustByNothing(table[1..], name);
    }
  }

  /** The loop's arithmetic on prices is the greedy share: as many vouchers as fit into the worth, at most
      those the quantity takes. */
  lemma ShareOfRow(row: Row, worth: real)
    requires WellFormed(row) && row.priceInVouchers.Some?
    ensures var rate, offer := row.productPrice / row.priceInVouchers.value as real, OfferOf(row);
            && rate > 0.0 && offer.rate == Some(rate)
            && var vouchers := (worth / rate).Floor;
            && Pieces(row, vouchers) == Times(rate, vouchers) / row.productPrice
            && (Pieces(row, vouchers) > row.quantity as real <==> vouchers > offer.capacity)
            && Pieces(row, offer.capacity) == row.quantity as real
            && Explain(offer, worth) == (if vouchers > offer.capacity then offer.capacity else vouchers)
  {
    var price, pv, q := row.productPrice, row.priceInVouchers.value, row.quantity;
    Quotient(price, pv);
    var rate := price / pv as real;
    var vouchers := (worth / rate).Floor;
    PiecesOf(price, pv, vouchers);
    PiecesCompare(pv, q, vouchers);
  }

  lemma PiecesOf(price: real, pv: int, n: int)
    requires price > 0.0 && pv > 0
    ensures price / pv as real * n as real / price == n as real / pv as real
  {
    var rate := price / pv as real;
    assert rate * pv as real == price;
    assert rate > 0.0;
    var pieces := n as real / pv as real;
    assert pieces * pv as real == n as real;
    assert rate * n as real == rate * pv as real * pieces == price * pieces;
  }

  lemma PiecesCompare(pv: int, q: int, n: int)
    requires pv > 0
    ensures n as real / pv as real > q as real <==> n > q * pv
    ensures (q * pv) as real / pv as real == q as real
  {
    var pieces := n as real / pv as real;
    assert pieces * pv as real == n as real;
    assert (q * pv) as real == q as real * pv as real;
    assert pieces > q as real <==> pieces * pv as real > q as real * pv as real;
  }

  /** What the worth still to explain pays for one row: pieces of the product, and their price. */
  method ShareOf(row: Row, worth: real) returns (pieces: real, amount: real)
    requires WellFormed(row)
    ensures var offer := OfferOf(row);
            && (offer.rate.Some? ==> offer.rate.value > 0.0)
            && var share := if offer.rate.None? then 0 else Explain(offer, worth);
            pieces == Pieces(row, share) && amount == Worth(offer, share)
  {
    if row.priceInVouchers.None? {
      return 0.0, 0.0;
    }
    ShareOfRow(row, worth);
    hide Times, Pieces, Explain;
    var rate := row.productPrice / row.priceInVouchers.value as real;
    var vouchers := (worth / rate).Floor;
    amount := Times(rate, vouchers);
    pieces := amount / row.productPrice;
    if pieces > row.quantity as real {
      pieces := row.quantity as real;
      vouchers := row.quantity * row.priceInVouchers.value;
      amount := Times(rate, vouchers);
    }
  }

  /** One order: its rows in the order of price per voucher, all but the last one visited. */
  method AttributeDiscount(products: seq<ProductRow>, rows: seq<Row>) returns (table: seq<ProductRow>, rest: real)
    requires AllWellFormed(rows) && Arranged(rows)
    requires exists i :: 0 <= i < |rows| && rows[i].productName == DISCOUNT
    ensures table == AdjustAll(products, rows, Shares(rows))
    ensures rest == Unexplained(rows)
  {
    hide Adjust, Arranged, Descending, Attribute, Worth, Pieces, Explain, DiscountTotal, AdjustAll, OfferOf, WellFormed, Gain;
    OffersArePositive(rows);
    LastIsUnpriced(rows);
    table := products;
    var worth := -DiscountTotal(rows);
    ghost var shares, offers := Shares(rows), Offers(rows);
    var n := 0;
    ghost var gained := 0.0;
    assert rows[0..] == rows && shares[0..] == shares && offers[0..] == offers;
    while n < |rows| - 1
      invariant 0 <= n <= |rows| - 1
      invariant AdjustAll(products, rows, shares) == AdjustAll(table, rows[n..], shares[n..])
      invariant Positive(offers[n..]) && Attribute(offers[n..], worth) == shares[n..]
      invariant worth == DiscountWorth(rows) - gained
      invariant Gain(offers, shares) == gained + Gain(offers[n..], shares[n..])
    {
      var row := rows[n];
      VisitRow(table, rows, shares, n, worth);
      var pieces, amount := ShareOf(row, worth);
      worth := worth - amount;
      table := Adjust(table, row.productName, pieces, amount);
      gained := gained + amount;
      n := n + 1;
    }
    LastRow(table, rows, shares, worth);
    rest := worth;
  }

  /** Unfolds the specification by the row at n. */
  lemma VisitRow(table: seq<ProductRow>, rows: seq<Row>, shares: seq<int>, n: nat, worth: real)
    requires AllWellFormed(rows) && |shares| == |rows| && n < |rows|
    requires Positive(Offers(rows)[n..]) && Attribute(Offers(rows)[n..], worth) == shares[n..]
    ensures var row, offer := rows[n], OfferOf(rows[n]);
            && (offer.rate.Some? ==> offer.rate.value > 0.0)
            && shares[n] == (if offer.rate.None? then 0 else Explain(offer, worth))
            && AdjustAll(table, rows[n..], shares[n..])
               == AdjustAll(Adjust(table, row.productName, Pieces(row, shares[n]), Worth(offer, shares[n])), rows[n + 1..],
                            shares[n + 1..])
            && Positive(Offers(rows)[n + 1..])
            && Attribute(Offers(rows)[n + 1..], worth - Worth(offer, shares[n])) == shares[n + 1..]
            && Gain(Offers(rows)[n..], shares[n..]) == Worth(offer, shares[n]) + Gain(Offers(rows)[n + 1..], shares[n + 1..])
  {
    hide Adjust, Worth, Pieces, Explain;
    var offers := Offers(rows);
    assert rows[n..][0] == rows[n] && rows[n..][1..] == rows[n + 1..];
    assert shares[n..][0] == shares[n] && shares[n..][1..] == shares[n + 1..];
    assert offers[n..][0] == OfferOf(rows[n]) && offers[n..][1..] == offers[n + 1..];
  }

  lemma LastIsUnpriced(rows: seq<Row>)
    requires AllWellFormed(rows) && Arranged(rows)
    requires exists i :: 0 <= i < |rows| && rows[i].productName == DISCOUNT
    ensures rows != [] && rows[|rows| - 1].priceInVouchers.None?
  {
    var i :| 0 <= i < |rows| && rows[i].productName == DISCOUNT;
    assert WellFormed(rows[i]);
  }

  lemma LastRow(table: seq<ProductRow>, rows: seq<Row>, shares: seq<int>, worth: real)
    requires AllWellFormed(rows) && |shares| == |rows| && rows != [] && rows[|rows| - 1].priceInVouchers.None?
    requires Positive(Offers(rows)[|rows| - 1..])
    requires Attribute(Offers(rows)[|rows| - 1..], worth) == shares[|rows| - 1..]
    ensures AdjustAll(table, rows[|rows| - 1..], shares[|rows| - 1..]) == table
    ensures Gain(Offers(rows)[|rows| - 1..], shares[|rows| - 1..]) == 0.0
  {
    var n := |rows| - 1;
    VisitRow(table, rows, shares, n, worth);
    AdjustByNothing(table, rows[n].productName);
    assert rows[n + 1..] == [] && shares[n + 1..] == [] && Offers(rows)[n + 1..] == [];
  }

  // ---- an order that a sale produced -------------------------------------------------

  function Nones(n: nat): seq<Offer> { seq(n, i => Offer(None, 0)) }

  /** The discount lines are worth what some number of vouchers pays for these rows, spent best first. The
      discount rows themselves offer nothing. */
  ghost predicate FromSale(rows: seq<Row>, visited: seq<Offer>, budget: int)
    requires AllWellFormed(rows)
  {
    && Descending(visited)
    && (exists n: nat :: multiset(visited + Nones(n)) == multiset(Offers(rows)))
    && DiscountWorth(rows) == GreedyGain(visited, budget)
  }

  lemma {:induction false} NonesAtTheEnd(offers: seq<Offer>, n: nat, budget: int)
    ensures GreedyGain(offers + Nones(n), budget) == GreedyGain(offers, budget)
    ensures forall i :: 0 <= i < |offers| ==> Spend(offers + Nones(n), budget)[i] == Spend(offers, budget)[i]
  {
    var all := offers + Nones(n);
    if budget <= 0 {
      ZerosSpendNothing(all);
      ZerosSpendNothing(offers);
    } else if offers == [] {
      assert all == Nones(n);
      NonesSpendNothing(n, budget);
    } else {
      assert all[1..] == offers[1..] + Nones(n);
      var take := if offers[0].rate.None? then 0 else Min(budget, offers[0].capacity);
      NonesAtTheEnd(offers[1..], n, budget - take);
      assert Spend(all, budget) == [take] + Spend(all[1..], budget - take);
      assert Spend(offers, budget) == [take] + Spend(offers[1..], budget - take);
      assert Spend(all, budget)[1..] == Spend(all[1..], budget - take);
      assert Spend(offers, budget)[1..] == Spend(offers[1..], budget - take);
    }
  }

  lemma {:induction false} NonesSpendNothing(n: nat, budget: int)
    ensures GreedyGain(Nones(n), budget) == 0.0
  {
    if n > 0 && budget > 0 {
      assert Nones(n)[1..] == Nones(n - 1);
      assert Spend(Nones(n), budget)[1..] == Spend(Nones(n - 1), budget);
      NonesSpendNothing(n - 1, budget);
    } else {
      ZerosSpendNothing(Nones(n));
    }
  }

  /** Given only the discount total, the report explains all of it: its loop finds the shares of the
      greedy sale, in the report's own order. */
  lemma SaleIsExplained(rows: seq<Row>, visited: seq<Offer>, budget: int)
    requires AllWellFormed(rows) && Arranged(rows) && FromSale(rows, visited, budget)
    ensures Unexplained(rows) == 0.0
    ensures Shares(rows) == Spend(Offers(rows), budget)
  {
    hide Spend, Gain, Attribute, OfferOf, WellFormed, Nones;
    OffersArePositive(rows);
    var n: nat :| multiset(visited + Nones(n)) == multiset(Offers(rows));
    PositiveIsSound(Offers(rows));
    DescendingWithNones(visited, n);
    NonesAtTheEnd(visited, n, budget);
    OrderDoesNotMatter(Offers(rows), visited + Nones(n), budget);
    AttributeInverts(Offers(rows), budget);
  }

  lemma PositiveIsSound(offers: seq<Offer>)
    requires Positive(offers)
    ensures Sound(offers)
  {
  }

  lemma DescendingWithNones(offers: seq<Offer>, n: nat)
    ensures Descending(offers) ==> Descending(offers + Nones(n))
    ensures StrictlyDescending(offers) ==> StrictlyDescending(offers + Nones(n))
  {
  }

  /** With pairwise different prices per voucher, every row gets exactly the vouchers the sale spent on it. */
  lemma SharesRecovered(rows: seq<Row>, visited: seq<Offer>, budget: int, i: nat, j: nat)
    requires AllWellFormed(rows) && Arranged(rows) && FromSale(rows, visited, budget)
    requires StrictlyDescending(visited) && StrictlyDescending(Offers(rows))
    requires i < |visited| && j < |rows| && visited[i] == Offers(rows)[j] && visited[i].rate.Some?
    ensures Shares(rows)[j] == Spend(visited, budget)[i]
  {
    hide Spend, Gain, Attribute, OfferOf, WellFormed, Nones;
    SaleIsExplained(rows, visited, budget);
    OffersArePositive(rows);
    PositiveIsSound(Offers(rows));
    var n: nat :| multiset(visited + Nones(n)) == multiset(Offers(rows));
    DescendingWithNones(visited, n);
    NonesAtTheEnd(visited, n, budget);
    SharesAgree(Offers(rows), visited + Nones(n), budget, j, i);
  }

  // ---- rows do not depend on their order ---------------------------------------------

  lemma {:induction false} RowsPermute(rows: seq<Row>, others: seq<Row>)
    requires multiset(rows) == multiset(others) && AllWellFormed(rows)
    ensures AllWellFormed(others) && multiset(Offers(rows)) == multiset(Offers(others))
    ensures DiscountTotal(rows) == DiscountTotal(others) && TotalPrice(rows) == TotalPrice(others)
    decreases |others|
  {
    hide WellFormed, OfferOf, Offers, DiscountTotal, TotalPrice;
    if others == [] {
      assert |multiset(rows)| == 0;
      assert rows == others;
    } else {
      assert others[0] in multiset(rows);
      var k :| 0 <= k < |rows| && rows[k] == others[0];
      RemoveOne(rows, others, k);
      var rest := rows[..k] + rows[k + 1..];
      RowsPermute(rest, others[1..]);
      SumsSplit(rows, k);
      assert DiscountTotal([rows[k]]) == DiscountTotal([others[0]]);
      SumsSplit(others, 0);
      assert others[..0] + others[1..] == others[1..];
      assert AllWellFormed(others) by {
        assert others == [others[0]] + others[1..];
      }
      OffersSplit(rows, k);
      OffersSplit(others, 0);
    }
  }

  lemma OffersSplit(rows: seq<Row>, k: nat)
    requires AllWellFormed(rows) && k < |rows|
    ensures multiset(Offers(rows)) == multiset{OfferOf(rows[k])} + multiset(Offers(rows[..k] + rows[k + 1..]))
  {
    var offers := Offers(rows);
    assert offers == offers[..k] + [offers[k]] + offers[k + 1..];
    assert Offers(rows[..k] + rows[k + 1..]) == offers[..k] + offers[k + 1..];
  }

  lemma {:induction false} SumsSplit(rows: seq<Row>, k: nat)
    requires k < |rows|
    ensures var rest := rows[..k] + rows[k + 1..];
            && DiscountTotal(rows) == DiscountTotal([rows[k]]) + DiscountTotal(rest)
            && TotalPrice(rows) == rows[k].totalPrice + TotalPrice(rest)
  {
    var rest := rows[..k] + rows[k + 1..];
    if k == 0 {
      assert rest == rows[1..];
    } else {
      SumsSplit(rows[1..], k - 1);
      assert rest[1..] == rows[1..][..k - 1] + rows[1..][k..];
    }
  }

  lemma {:induction false} SumsConcat(rows: seq<Row>, more: seq<Row>)
    ensures DiscountTotal(rows + more) == DiscountTotal(rows) + DiscountTotal(more)
    ensures TotalPrice(rows + more) == TotalPrice(rows) + TotalPrice(more)
  {
    if rows == [] {
      assert rows + more == more;
    } else {
      SumsConcat(rows[1..], more);
      assert (rows + more)[1..] == rows[1..] + more;
    }
  }

  // ---- the rows a voucher sale leaves ------------------------------------------------

  function RowOf(x: V.PendingLineItem): Row
  {
    Row(x.product.name, x.product.price, x.product.priceInVouchers, x.quantity, x.product.price * x.quantity as real)
  }

  function DiscountRow(d: V.Discount): Row { Row(DISCOUNT, d.price, None, 1, d.price) }

  function ItemRows(items: seq<V.PendingLineItem>): (rows: seq<Row>)
    ensures |rows| == |items|
  {
    seq(|items|, i requires 0 <= i < |items| => RowOf(items[i]))
  }

  function DiscountRows(lines: seq<V.Discount>): (rows: seq<Row>)
    ensures |rows| == |lines|
  {
    seq(|lines|, i requires 0 <= i < |lines| => DiscountRow(lines[i]))
  }

  /** The price per voucher is the price divided by the price in vouchers, where there is one. */
  predicate Consistent(x: V.PendingLineItem)
  {
    && WellFormed(RowOf(x)) && x.product.name != DISCOUNT
    && x.product.pricePerVoucher == (if x.product.priceInVouchers.None? then None
                                     else Some(x.product.price / x.product.priceInVouchers.value as real))
  }

  lemma SameOffer(x: V.PendingLineItem)
    requires Consistent(x)
    ensures V.OfferOf(x) == OfferOf(RowOf(x))
  {
    if x.product.priceInVouchers.Some? {
      Commute(x.quantity, x.product.priceInVouchers.value);
    }
  }

  lemma Commute(a: int, b: int)
    ensures a * b == b * a
  {
  }

  lemma {:induction false} DiscountRowsTotal(lines: seq<V.Discount>)
    ensures DiscountTotal(DiscountRows(lines)) == V.Total(lines)
  {
    if lines != [] {
      DiscountRowsTotal(lines[1..]);
      assert DiscountRows(lines)[1..] == DiscountRows(lines[1..]);
    }
  }

  lemma {:induction false} NoDiscountInItems(rows: seq<Row>)
    requires forall i :: 0 <= i < |rows| ==> rows[i].productName != DISCOUNT
    ensures DiscountTotal(rows) == 0.0
  {
    if rows != [] {
      NoDiscountInItems(rows[1..]);
    }
  }

  /** Whatever was sold and however many vouchers were redeemed, the rows of the order are those of a sale. */
  lemma SaleLeavesItsRows(items: seq<V.PendingLineItem>, maxVouchers: int, rows: seq<Row>)
    requires forall i :: 0 <= i < |items| ==> Consistent(items[i])
    requires multiset(rows)
             == multiset(ItemRows(items) + DiscountRows(V.DiscountLines(V.Sorted(items), maxVouchers, [])))
    ensures AllWellFormed(rows) && FromSale(rows, V.Offers(V.Sorted(items)), maxVouchers)
  {
    hide OfferOf, V.OfferOf, Spend, Gain, Consistent, V.DiscountLines, V.Sorted, WellFormed, V.Total, DiscountTotal;
    var lines := V.DiscountLines(V.Sorted(items), maxVouchers, []);
    var itemRows, discountRows := ItemRows(items), DiscountRows(lines);
    SaleRows(items, lines);
    RowsPermute(itemRows + discountRows, rows);
    SumsConcat(itemRows, discountRows);
    NoDiscountInItems(itemRows);
    DiscountRowsTotal(lines);
    V.VisitIsDescending(items);
    V.LinesMatchDeductions(V.Sorted(items), maxVouchers, [], "");
    NothingTotal();
    var visited := V.Offers(V.Sorted(items));
    assert multiset(visited + Nones(|lines|)) == multiset(Offers(rows));
  }

  /** What the items of a sale cost before any voucher. */
  function FullPrice(items: seq<V.PendingLineItem>): real
  {
    if items == [] then 0.0 else items[0].quantity as real * items[0].product.price + FullPrice(items[1..])
  }

  lemma {:induction false} ItemRowsTotal(items: seq<V.PendingLineItem>)
    ensures TotalPrice(ItemRows(items)) == FullPrice(items)
  {
    if items != [] {
      ItemRowsTotal(items[1..]);
      assert ItemRows(items)[1..] == ItemRows(items[1..]);
    }
  }

  lemma {:induction false} DiscountRowsMoney(lines: seq<V.Discount>)
    ensures TotalPrice(DiscountRows(lines)) == DiscountTotal(DiscountRows(lines))
    ensures QuantityOf(DiscountRows(lines), DISCOUNT) == |lines| as real
  {
    if lines != [] {
      DiscountRowsMoney(lines[1..]);
      assert DiscountRows(lines)[1..] == DiscountRows(lines[1..]);
    }
  }

  /** The rows of a sale come to the full price less what its vouchers were worth. */
  lemma SaleLeavesItsMoney(items: seq<V.PendingLineItem>, maxVouchers: int, rows: seq<Row>)
    requires forall i :: 0 <= i < |items| ==> Consistent(items[i])
    requires multiset(rows)
             == multiset(ItemRows(items) + DiscountRows(V.DiscountLines(V.Sorted(items), maxVouchers, [])))
    ensures TotalPrice(rows) == FullPrice(items) - GreedyGain(V.Offers(V.Sorted(items)), maxVouchers)
  {
    hide OfferOf, V.OfferOf, Spend, Gain, Consistent, V.DiscountLines, V.Sorted, WellFormed, V.Total, DiscountTotal, TotalPrice,
      FullPrice;
    var lines := V.DiscountLines(V.Sorted(items), maxVouchers, []);
    var itemRows, discountRows := ItemRows(items), DiscountRows(lines);
    SaleRows(items, lines);
    RowsPermute(itemRows + discountRows, rows);
    SumsConcat(itemRows, discountRows);
    ItemRowsTotal(items);
    DiscountRowsMoney(lines);
    DiscountRowsTotal(lines);
    V.LinesMatchDeductions(V.Sorted(items), maxVouchers, [], "");
    NothingTotal();
  }

  lemma NothingTotal()
    ensures V.Total([]) == 0.0
  {
  }

  lemma SaleRows(items: seq<V.PendingLineItem>, lines: seq<V.Discount>)
    requires forall i :: 0 <= i < |items| ==> Consistent(items[i])
    ensures AllWellFormed(ItemRows(items) + DiscountRows(lines))
    ensures forall i :: 0 <= i < |items| ==> ItemRows(items)[i].productName != DISCOUNT
    ensures Offers(ItemRows(items) + DiscountRows(lines)) == V.Offers(items) + Nones(|lines|)
  {
    var rows := ItemRows(items) + DiscountRows(lines);
    forall i | 0 <= i < |rows|
      ensures WellFormed(rows[i]) && OfferOf(rows[i]) == if i < |items| then V.OfferOf(items[i]) else Offer(None, 0)
    {
      if i < |items| {
        assert Consistent(items[i]);
        SameOffer(items[i]);
      } else {
        assert rows[i] == DiscountRow(lines[i - |items|]);
      }
    }
    assert Offers(rows) == V.Offers(items) + Nones(|lines|);
  }

  // ---- the whole table ---------------------------------------------------------------

  predicate HasDiscount(rows: seq<Row>) { exists i :: 0 <= i < |rows| && rows[i].productName == DISCOUNT }

  function Flatten(orders: seq<seq<Row>>): seq<Row>
  {
    if orders == [] then [] else Flatten(orders[..|orders| - 1]) + orders[|orders| - 1]
  }

  function Group(rows: seq<Row>): seq<ProductRow>
  {
    if rows == [] then [] else Collect(Group(rows[..|rows| - 1]), rows[|rows| - 1])
  }

  predicate Sane(orders: seq<seq<Row>>) { forall i :: 0 <= i < |orders| ==> AllWellFormed(orders[i]) }

  /** The table after the discounts of the given orders were attributed; orders without one are left alone. */
  function AdjustOrders(table: seq<ProductRow>, orders: seq<seq<Row>>): seq<ProductRow>
    requires Sane(orders)
  {
    if orders == [] then table
    else
      var before, rows := AdjustOrders(table, orders[..|orders| - 1]), orders[|orders| - 1];
      if HasDiscount(rows) then AdjustAll(before, rows, Shares(rows)) else before
  }

  /** The rows of an order as the loop visits them. */
  ghost predicate ArrangementOf(rows: seq<Row>, arranged: seq<Row>)
  {
    && multiset(arranged) == multiset(rows)
    && (HasDiscount(rows) ==> AllWellFormed(arranged) && Arranged(arranged))
  }

  ghost predicate Arrangement(orders: seq<seq<Row>>, arranged: seq<seq<Row>>)
  {
    |arranged| == |orders| && forall i :: 0 <= i < |orders| ==> ArrangementOf(orders[i], arranged[i])
  }

  /** Every order with a discount came from redeeming some number of vouchers. */
  ghost predicate AllFromSales(orders: seq<seq<Row>>)
    requires Sane(orders)
  {
    forall i :: 0 <= i < |orders| && HasDiscount(orders[i]) ==>
      exists visited, budget :: FromSale(orders[i], visited, budget)
  }

  function Sum(values: seq<real>): real
  {
    if values == [] then 0.0 else Sum(values[..|values| - 1]) + values[|values| - 1]
  }

  /** What the loop warns about, order by order. */
  function Warnings(orders: seq<seq<Row>>): seq<real>
    requires Sane(orders)
  {
    if orders == [] then []
    else
      var before, rows := Warnings(orders[..|orders| - 1]), orders[|orders| - 1];
      if HasDiscount(rows) && Unexplained(rows) != 0.0 then before + [Unexplained(rows)] else before
  }

  // sorting

  predicate NotAfter(row: Row, other: Row)
    requires WellFormed(row) && WellFormed(other)
  {
    other.priceInVouchers.None?
    || (row.priceInVouchers.Some? && OfferOf(row).rate.value >= OfferOf(other).rate.value)
  }

  function InsertRow(row: Row, rows: seq<Row>): seq<Row>
    requires WellFormed(row) && AllWellFormed(rows)
  {
    if rows == [] || NotAfter(row, rows[0]) then [row] + rows else [rows[0]] + InsertRow(row, rows[1..])
  }

  lemma {:induction false} InsertRowKeeps(row: Row, rows: seq<Row>)
    requires WellFormed(row) && AllWellFormed(rows)
    requires forall i, j :: 0 <= i < j < |rows| ==> NotAfter(rows[i], rows[j])
    ensures var all := InsertRow(row, rows);
            && multiset(all) == multiset(rows) + multiset{row} && AllWellFormed(all)
            && forall i, j :: 0 <= i < j < |all| ==> NotAfter(all[i], all[j])
  {
    hide WellFormed, OfferOf, NotAfter;
    if rows == [] || NotAfter(row, rows[0]) {
      FrontRow(row, rows);
    } else {
      var first, rest := rows[0], rows[1..];
      var inserted := InsertRow(row, rest);
      assert rows == [first] + rest;
      assert forall k :: 0 <= k < |rest| ==> NotAfter(first, rest[k]);
      assert forall i, j :: 0 <= i < j < |rest| ==> NotAfter(rest[i], rest[j]);
      InsertRowKeeps(row, rest);
      Comparable(row, first);
      forall j | 0 <= j < |inserted| ensures NotAfter(first, inserted[j]) {
        assert inserted[j] in multiset(inserted);
        assert inserted[j] == row || inserted[j] in rest;
      }
      FirstRow(first, inserted);
    }
  }

  lemma FirstRow(first: Row, rows: seq<Row>)
    requires WellFormed(first) && AllWellFormed(rows)
    requires forall i, j :: 0 <= i < j < |rows| ==> NotAfter(rows[i], rows[j])
    requires forall j :: 0 <= j < |rows| ==> NotAfter(first, rows[j])
    ensures AllWellFormed([first] + rows)
    ensures forall i, j :: 0 <= i < j < |[first] + rows| ==> NotAfter(([first] + rows)[i], ([first] + rows)[j])
  {
    hide WellFormed, NotAfter;
  }

  lemma Comparable(row: Row, other: Row)
    requires WellFormed(row) && WellFormed(other)
    ensures NotAfter(row, other) || NotAfter(other, row)
  {
  }

  lemma FrontRow(row: Row, rows: seq<Row>)
    requires WellFormed(row) && AllWellFormed(rows) && (rows == [] || NotAfter(row, rows[0]))
    requires forall i, j :: 0 <= i < j < |rows| ==> NotAfter(rows[i], rows[j])
    ensures AllWellFormed([row] + rows)
    ensures forall i, j :: 0 <= i < j < |[row] + rows| ==> NotAfter(([row] + rows)[i], ([row] + rows)[j])
  {
    hide WellFormed, OfferOf;
    var all := [row] + rows;
    forall i, j | 0 <= i < j < |all| ensures NotAfter(all[i], all[j]) {
      if i == 0 && j > 1 {
        assert NotAfter(rows[0], rows[j - 1]);
        Transitive(row, rows[0], rows[j - 1]);
      }
    }
  }

  lemma Transitive(a: Row, b: Row, c: Row)
    requires WellFormed(a) && WellFormed(b) && WellFormed(c) && NotAfter(a, b) && NotAfter(b, c)
    ensures NotAfter(a, c)
  {
  }

  lemma InOrderIsArranged(rows: seq<Row>)
    requires AllWellFormed(rows) && forall i, j :: 0 <= i < j < |rows| ==> NotAfter(rows[i], rows[j])
    ensures Arranged(rows)
  {
    forall i, j | 0 <= i < j < |rows|
      ensures rows[j].priceInVouchers.Some? ==>
                rows[i].priceInVouchers.Some? && Offers(rows)[i].rate.value >= Offers(rows)[j].rate.value
    {
      assert NotAfter(rows[i], rows[j]);
    }
  }

  /** The sort leaves rows of equal price per voucher in some order; nothing below depends on which. */
  method SortRows(rows: seq<Row>) returns (sorted: seq<Row>)
    requires AllWellFormed(rows)
    ensures multiset(sorted) == multiset(rows) && AllWellFormed(sorted) && Arranged(sorted)
  {
    hide WellFormed, NotAfter, Arranged;
    sorted := [];
    for i := 0 to |rows|
      invariant AllWellFormed(sorted) && multiset(sorted) == multiset(rows[..i])
      invariant forall a, b :: 0 <= a < b < |sorted| ==> NotAfter(sorted[a], sorted[b])
    {
      InsertRowKeeps(rows[i], sorted);
      sorted := InsertRow(rows[i], sorted);
      assert rows[..i + 1] == rows[..i] + [rows[i]];
    }
    assert rows[..|rows|] == rows;
    InOrderIsArranged(sorted);
  }

  method GroupByProduct(orders: seq<seq<Row>>) returns (table: seq<ProductRow>)
    ensures table == Group(Flatten(orders))
  {
    hide Collect;
    table := [];
    for i := 0 to |orders|
      invariant table == Group(Flatten(orders[..i]))
    {
      ghost var before := Flatten(orders[..i]);
      assert before + orders[i][..0] == before;
      for j := 0 to |orders[i]|
        invariant table == Group(before + orders[i][..j])
      {
        table := Collect(table, orders[i][j]);
        assert (before + orders[i][..j + 1])[..|before| + j] == before + orders[i][..j];
      }
      assert orders[i][..|orders[i]|] == orders[i];
      assert orders[..i + 1][..i] == orders[..i];
    }
    assert orders[..|orders|] == orders;
  }

  /** make_product_table, on the lines of the orders that were not cancelled. */
  method MakeProductTable(orders: seq<seq<Row>>)
      returns (table: seq<ProductRow>, warnings: seq<real>, ghost arranged: seq<seq<Row>>)
    requires Sane(orders)
    ensures Sane(arranged) && Arrangement(orders, arranged)
    ensures table == WithoutDiscountRow(AdjustOrders(Group(Flatten(orders)), arranged))
    ensures warnings == Warnings(arranged)
    ensures Revenue(table) == TotalPrice(Flatten(orders)) + Sum(warnings)
    ensures OneRowPerName(table)
    ensures forall name :: name in Names(table) <==>
              name != DISCOUNT && exists k :: 0 <= k < |Flatten(orders)| && Flatten(orders)[k].productName == name
    ensures forall r :: r in table ==>
              && r.quantity + r.noDiscounted == QuantityOf(Flatten(orders), r.name)
              && r.totalPrice + r.totalDiscounted == PriceOf(Flatten(orders), r.name)
              && r.noDiscounted == AllPaidPieces(arranged, r.name)
              && r.totalDiscounted == AllPaidAmount(arranged, r.name)
    ensures AllFromSales(orders) ==> warnings == []
  {
    hide Group, Flatten, AllWellFormed, Arranged, AdjustAll, HasDiscount, Unexplained, Shares, WithoutDiscountRow;
    hide Revenue, TotalPrice, FromSale, OneRowPerName, Names, QuantityOf, PriceOf, AllPaidPieces, AllPaidAmount;
    table := GroupByProduct(orders);
    arranged, warnings := [], [];
    for i := 0 to |orders|
      invariant |arranged| == i && Sane(arranged)
      invariant forall k :: 0 <= k < i ==> ArrangementOf(orders[k], arranged[k])
      invariant table == AdjustOrders(Group(Flatten(orders)), arranged)
      invariant warnings == Warnings(arranged)
    {
      ghost var earlier := arranged;
      assert AllWellFormed(orders[i]);
      if HasDiscount(orders[i]) {
        var rows := SortRows(orders[i]);
        DiscountStays(orders[i], rows);
        arranged := arranged + [rows];
        var rest;
        table, rest := AttributeDiscount(table, rows);
        if rest != 0.0 {
          warnings := warnings + [rest];
        }
      } else {
        arranged := arranged + [orders[i]];
      }
      assert arranged[..i] == earlier;
    }
    table := WithoutDiscountRow(table);
    RevenueIsKept(orders, arranged);
    EveryProductIsShown(orders, arranged);
    if AllFromSales(orders) {
      NoWarnings(orders, arranged);
    }
  }

  lemma DiscountStays(rows: seq<Row>, others: seq<Row>)
    requires multiset(rows) == multiset(others)
    ensures HasDiscount(rows) ==> HasDiscount(others)
  {
    if HasDiscount(rows) {
      var i :| 0 <= i < |rows| && rows[i].productName == DISCOUNT;
      assert rows[i] in multiset(others);
      var j :| 0 <= j < |others| && others[j] == rows[i];
    }
  }

  // ---- what the table promises -------------------------------------------------------

  lemma {:induction false} GroupSums(rows: seq<Row>)
    ensures OneRowPerName(Group(rows)) && Discounted(Group(rows)) == 0.0
    ensures Revenue(Group(rows)) == TotalPrice(rows) - DiscountTotal(rows)
    ensures forall i :: 0 <= i < |rows| ==> rows[i].productName in Names(Group(rows))
  {
    hide Collect, OneRowPerName, Names;
    if rows == [] {
      NoNames();
    } else {
      var front, last := rows[..|rows| - 1], rows[|rows| - 1];
      GroupSums(front);
      CollectSums(Group(front), last);
      assert rows == front + [last];
      SumsConcat(front, [last]);
      assert TotalPrice([last]) == last.totalPrice;
      assert DiscountTotal([last]) == if last.productName == DISCOUNT then last.totalPrice else 0.0;
    }
  }

  lemma NoNames()
    ensures OneRowPerName([])
  {
  }

  /** Sum of the discounts of all orders, and the products the rows name. */
  lemma {:induction false} FlattenSums(orders: seq<seq<Row>>)
    ensures forall i, j :: 0 <= i < |orders| && 0 <= j < |orders[i]| ==> orders[i][j] in Flatten(orders)
  {
    if orders != [] {
      var front, last := orders[..|orders| - 1], orders[|orders| - 1];
      FlattenSums(front);
      forall i, j | 0 <= i < |orders| && 0 <= j < |orders[i]| ensures orders[i][j] in Flatten(orders) {
        if i < |front| {
          assert front[i] == orders[i];
        } else {
          assert last[j] in last;
        }
      }
    }
  }

  lemma {:induction false} NoDiscountNoTotal(rows: seq<Row>)
    requires !HasDiscount(rows)
    ensures DiscountTotal(rows) == 0.0
  {
    if rows != [] {
      assert !HasDiscount(rows[1..]) by {
        assert forall i :: 0 <= i < |rows[1..]| ==> rows[1..][i] == rows[i + 1];
      }
      assert rows[0].productName != DISCOUNT;
      NoDiscountNoTotal(rows[1..]);
    }
  }

  lemma {:induction false} AdjustOrdersSums(table: seq<ProductRow>, orders: seq<seq<Row>>, arranged: seq<seq<Row>>)
    requires Sane(orders) && Sane(arranged) && Arrangement(orders, arranged) && OneRowPerName(table)
    requires forall i, j :: 0 <= i < |orders| && 0 <= j < |orders[i]| ==> orders[i][j].productName in Names(table)
    ensures var after := AdjustOrders(table, arranged);
            && OneRowPerName(after) && Names(after) == Names(table)
            && Revenue(after) == Revenue(table) + DiscountTotal(Flatten(orders)) + Sum(Warnings(arranged))
            && Discounted(after) == Discounted(table) - DiscountTotal(Flatten(orders)) - Sum(Warnings(arranged))
    decreases |orders|
  {
    hide Names, OneRowPerName, AllWellFormed, Arranged, AdjustAll, HasDiscount, Shares, Unexplained, Revenue, Discounted;
    if orders != [] {
      var n := |orders| - 1;
      assert ArrangementOf(orders[n], arranged[n]) && AllWellFormed(orders[n]) && AllWellFormed(arranged[n]);
      assert forall i :: 0 <= i < n ==> orders[..n][i] == orders[i] && arranged[..n][i] == arranged[i];
      AdjustOrdersSums(table, orders[..n], arranged[..n]);
      SumsConcat(Flatten(orders[..n]), orders[n]);
      RowsPermute(orders[n], arranged[n]);
      DiscountStays(orders[n], arranged[n]);
      DiscountStays(arranged[n], orders[n]);
      OneOrderSums(AdjustOrders(table, arranged[..n]), orders[n], arranged[n]);
      var before := Warnings(arranged[..n]);
      SumStep(before, Unexplained(arranged[n]));
    }
  }

  lemma SumStep(values: seq<real>, more: real)
    ensures Sum(values + [more]) == Sum(values) + more
  {
    assert (values + [more])[..|values|] == values;
  }

  lemma OneOrderSums(table: seq<ProductRow>, rows: seq<Row>, arranged: seq<Row>)
    requires AllWellFormed(rows) && AllWellFormed(arranged) && OneRowPerName(table) && ArrangementOf(rows, arranged)
    requires forall j :: 0 <= j < |rows| ==> rows[j].productName in Names(table)
    ensures if HasDiscount(rows)
            then
              var after := AdjustAll(table, arranged, Shares(arranged));
              && OneRowPerName(after) && Names(after) == Names(table)
              && Revenue(after) == Revenue(table) + DiscountTotal(rows) + Unexplained(arranged)
              && Discounted(after) == Discounted(table) - DiscountTotal(rows) - Unexplained(arranged)
            else DiscountTotal(rows) == 0.0
  {
    hide Names, OneRowPerName, AllWellFormed, Arranged, AdjustAll, Attribute, Gain, Revenue, Discounted;
    if HasDiscount(rows) {
      RowsPermute(rows, arranged);
      forall j | 0 <= j < |arranged| ensures arranged[j].productName in Names(table) {
        assert arranged[j] in multiset(rows);
      }
      AdjustAllSums(table, arranged, Shares(arranged));
    } else {
      NoDiscountNoTotal(rows);
    }
  }

  lemma {:induction false} DropKeepsRevenue(table: seq<ProductRow>)
    ensures Revenue(WithoutDiscountRow(table)) == Revenue(table)
    ensures forall r :: r in WithoutDiscountRow(table) ==> r.name != DISCOUNT
  {
    if table != [] {
      DropKeepsRevenue(table[1..]);
      var rest := WithoutDiscountRow(table[1..]);
      if table[0].name != DISCOUNT {
        assert WithoutDiscountRow(table)[1..] == rest;
      } else {
        assert WithoutDiscountRow(table) == rest;
      }
    }
  }

  /** Dropping the discount rows changes the total revenue by exactly what the report warns about. */
  lemma RevenueIsKept(orders: seq<seq<Row>>, arranged: seq<seq<Row>>)
    requires Sane(orders) && Sane(arranged) && Arrangement(orders, arranged)
    ensures var table := WithoutDiscountRow(AdjustOrders(Group(Flatten(orders)), arranged));
            && Revenue(table) == TotalPrice(Flatten(orders)) + Sum(Warnings(arranged))
            && forall r :: r in table ==> r.name != DISCOUNT
  {
    hide Names, OneRowPerName;
    var rows := Flatten(orders);
    GroupSums(rows);
    FlattenSums(orders);
    forall i, j | 0 <= i < |orders| && 0 <= j < |orders[i]| ensures orders[i][j].productName in Names(Group(rows)) {
      assert orders[i][j] in rows;
    }
    AdjustOrdersSums(Group(rows), orders, arranged);
    DropKeepsRevenue(AdjustOrders(Group(rows), arranged));
  }

  /** If the orders came from voucher sales there is nothing to warn about, so no revenue is lost or made up. */
  lemma SalesAreExplained(orders: seq<seq<Row>>, arranged: seq<seq<Row>>)
    requires Sane(orders) && Sane(arranged) && Arrangement(orders, arranged)
    requires AllFromSales(orders)
    ensures Warnings(arranged) == []
    ensures Revenue(WithoutDiscountRow(AdjustOrders(Group(Flatten(orders)), arranged))) == TotalPrice(Flatten(orders))
  {
    NoWarnings(orders, arranged);
    RevenueIsKept(orders, arranged);
  }

  lemma {:induction false} NoWarnings(orders: seq<seq<Row>>, arranged: seq<seq<Row>>)
    requires Sane(orders) && Sane(arranged) && Arrangement(orders, arranged)
    requires AllFromSales(orders)
    ensures Warnings(arranged) == []
    decreases |orders|
  {
    hide AllWellFormed, Arranged, HasDiscount, FromSale;
    if orders != [] {
      var n := |orders| - 1;
      assert forall i :: 0 <= i < n ==> orders[..n][i] == orders[i] && arranged[..n][i] == arranged[i];
      assert AllFromSales(orders[..n]);
      NoWarnings(orders[..n], arranged[..n]);
      assert ArrangementOf(orders[n], arranged[n]) && AllWellFormed(orders[n]) && AllWellFormed(arranged[n]);
      DiscountStays(arranged[n], orders[n]);
      if HasDiscount(arranged[n]) {
        var visited, budget :| FromSale(orders[n], visited, budget);
        SaleStays(orders[n], arranged[n], visited, budget);
        SaleIsExplained(arranged[n], visited, budget);
      }
    }
  }

  lemma SaleStays(rows: seq<Row>, others: seq<Row>, visited: seq<Offer>, budget: int)
    requires AllWellFormed(rows) && multiset(rows) == multiset(others) && FromSale(rows, visited, budget)
    ensures AllWellFormed(others) && FromSale(others, visited, budget)
  {
    RowsPermute(rows, others);
  }

  // ---- product by product ------------------------------------------------------------

  function QuantityOf(rows: seq<Row>, name: string): real
  {
    if rows == [] then 0.0
    else (if rows[0].productName == name then rows[0].quantity as real else 0.0) + QuantityOf(rows[1..], name)
  }

  function PriceOf(rows: seq<Row>, name: string): real
  {
    if rows == [] then 0.0
    else (if rows[0].productName == name then rows[0].totalPrice else 0.0) + PriceOf(rows[1..], name)
  }

  /** The pieces of a product that vouchers paid for in one order, given the vouchers spent on each row. */
  function PaidPieces(rows: seq<Row>, shares: seq<int>, name: string): real
    requires AllWellFormed(rows) && |shares| == |rows|
    decreases |rows|
  {
    if rows == [] then 0.0
    else
      (if rows[0].productName == name && rows[0].priceInVouchers.Some?
       then shares[0] as real / rows[0].priceInVouchers.value as real else 0.0)
      + PaidPieces(rows[1..], shares[1..], name)
  }

  /** What these vouchers were worth. */
  function PaidAmount(rows: seq<Row>, shares: seq<int>, name: string): real
    requires AllWellFormed(rows) && |shares| == |rows|
    decreases |rows|
  {
    if rows == [] then 0.0
    else
      (if rows[0].productName == name && rows[0].priceInVouchers.Some?
       then Times(rows[0].productPrice / rows[0].priceInVouchers.value as real, shares[0]) else 0.0)
      + PaidAmount(rows[1..], shares[1..], name)
  }

  /** The same over all orders with a discount line. */
  function AllPaidPieces(orders: seq<seq<Row>>, name: string): real
    requires Sane(orders)
  {
    if orders == [] then 0.0
    else
      var rows := orders[|orders| - 1];
      AllPaidPieces(orders[..|orders| - 1], name) + (if HasDiscount(rows) then PaidPieces(rows, Shares(rows), name) else 0.0)
  }

  function AllPaidAmount(orders: seq<seq<Row>>, name: string): real
    requires Sane(orders)
  {
    if orders == [] then 0.0
    else
      var rows := orders[|orders| - 1];
      AllPaidAmount(orders[..|orders| - 1], name) + (if HasDiscount(rows) then PaidAmount(rows, Shares(rows), name) else 0.0)
  }

  /** What the report shows of one product: the pieces and the money of its lines, less those the vouchers
      paid for, and these on their own. */
  predicate ShowsItsProduct(r: ProductRow, rows: seq<Row>, arranged: seq<seq<Row>>)
    requires Sane(arranged)
  {
    && r.quantity == QuantityOf(rows, r.name) - AllPaidPieces(arranged, r.name)
    && r.totalPrice == PriceOf(rows, r.name) - AllPaidAmount(arranged, r.name)
    && r.noDiscounted == AllPaidPieces(arranged, r.name)
    && r.totalDiscounted == AllPaidAmount(arranged, r.name)
  }

  /** The row of a product, all zero if there is none. */
  function Cell(table: seq<ProductRow>, name: string): ProductRow
  {
    if table == [] then ProductRow(name, 0.0, 0.0, 0.0, 0.0)
    else if table[0].name == name then table[0]
    else Cell(table[1..], name)
  }

  lemma {:induction false} CellOfRow(table: seq<ProductRow>, i: nat)
    requires OneRowPerName(table) && i < |table|
    ensures Cell(table, table[i].name) == table[i]
  {
    if i > 0 {
      CellOfRow(table[1..], i - 1);
    }
  }

  lemma {:induction false} CollectCell(table: seq<ProductRow>, row: Row, name: string)
    ensures var before, after := Cell(table, name), Cell(Collect(table, row), name);
            after == if name != row.productName then before
                     else ProductRow(name, before.quantity + row.quantity as real, before.totalPrice + row.totalPrice,
                                     before.noDiscounted, before.totalDiscounted)
  {
    if table == [] {
      assert Collect(table, row)[1..] == [];
    } else if table[0].name != row.productName {
      CollectCell(table[1..], row, name);
      assert Collect(table, row)[1..] == Collect(table[1..], row);
    } else {
      assert Collect(table, row)[1..] == table[1..];
    }
  }

  lemma {:induction false} GroupCell(rows: seq<Row>, name: string)
    ensures Cell(Group(rows), name) == ProductRow(name, QuantityOf(rows, name), PriceOf(rows, name), 0.0, 0.0)
  {
    hide Collect, Cell;
    if rows == [] {
      EmptyCell(name);
    } else {
      var front, last := rows[..|rows| - 1], rows[|rows| - 1];
      GroupCell(front, name);
      CollectCell(Group(front), last, name);
      ProductSums(front, last, name);
      assert rows == front + [last];
    }
  }

  lemma EmptyCell(name: string)
    ensures Cell([], name) == ProductRow(name, 0.0, 0.0, 0.0, 0.0)
  {
  }

  lemma {:induction false} ProductSums(rows: seq<Row>, row: Row, name: string)
    ensures QuantityOf(rows + [row], name)
            == QuantityOf(rows, name) + (if row.productName == name then row.quantity as real else 0.0)
    ensures PriceOf(rows + [row], name) == PriceOf(rows, name) + (if row.productName == name then row.totalPrice else 0.0)
  {
    if rows == [] {
      assert (rows + [row])[1..] == [];
    } else {
      ProductSums(rows[1..], row, name);
      assert (rows + [row])[1..] == rows[1..] + [row];
    }
  }

  /** The row of a product after pieces and money were moved out of its sales. */
  function Moved(r: ProductRow, pieces: real, amount: real): ProductRow
  {
    ProductRow(r.name, r.quantity - pieces, r.totalPrice - amount, r.noDiscounted + pieces, r.totalDiscounted + amount)
  }

  lemma {:induction false} AdjustCell(table: seq<ProductRow>, product: string, pieces: real, amount: real, name: string)
    requires product in Names(table)
    ensures var before, after := Cell(table, name), Cell(Adjust(table, product, pieces, amount), name);
            after == if name == product then Moved(before, pieces, amount) else before
  {
    NamesSplit(table);
    var after := Adjust(table, product, pieces, amount);
    assert after[1..] == Adjust(table[1..], product, pieces, amount);
    if table[0].name != product {
      AdjustCell(table[1..], product, pieces, amount, name);
    } else if name != product {
      AdjustElsewhere(table[1..], product, pieces, amount, name);
    }
  }

  lemma {:induction false} AdjustElsewhere(table: seq<ProductRow>, product: string, pieces: real, amount: real, name: string)
    requires name != product
    ensures Cell(Adjust(table, product, pieces, amount), name) == Cell(table, name)
  {
    if table != [] {
      AdjustElsewhere(table[1..], product, pieces, amount, name);
      assert Adjust(table, product, pieces, amount)[1..] == Adjust(table[1..], product, pieces, amount);
    }
  }

  lemma {:induction false} AdjustAllCell(table: seq<ProductRow>, rows: seq<Row>, shares: seq<int>, name: string)
    requires AllWellFormed(rows) && |shares| == |rows|
    requires forall i :: 0 <= i < |rows| ==> rows[i].productName in Names(table)
    ensures var after := AdjustAll(table, rows, shares);
            && Cell(after, name) == Moved(Cell(table, name), PaidPieces(rows, shares, name), PaidAmount(rows, shares, name))
            && Names(after) == Names(table)
    decreases |rows|
  {
    hide Adjust, Cell, Names;
    if rows != [] {
      var row, pieces, amount := rows[0], Pieces(rows[0], shares[0]), Worth(OfferOf(rows[0]), shares[0]);
      var next := Adjust(table, row.productName, pieces, amount);
      AdjustKeepsNames(table, row.productName, pieces, amount);
      SameNames(table, next);
      AdjustCell(table, row.productName, pieces, amount, name);
      AdjustAllCell(next, rows[1..], shares[1..], name);
    }
  }

  lemma {:induction false} AdjustOrdersCell(table: seq<ProductRow>, orders: seq<seq<Row>>, name: string)
    requires Sane(orders)
    requires forall i, j :: 0 <= i < |orders| && 0 <= j < |orders[i]| ==> orders[i][j].productName in Names(table)
    ensures var after := AdjustOrders(table, orders);
            && Cell(after, name) == Moved(Cell(table, name), AllPaidPieces(orders, name), AllPaidAmount(orders, name))
            && Names(after) == Names(table)
    decreases |orders|
  {
    hide Cell, Names, AllWellFormed, AdjustAll, HasDiscount, Shares, PaidPieces, PaidAmount;
    if orders != [] {
      var n := |orders| - 1;
      var rows := orders[n];
      assert forall i :: 0 <= i < n ==> orders[..n][i] == orders[i];
      AdjustOrdersCell(table, orders[..n], name);
      if HasDiscount(rows) {
        AdjustAllCell(AdjustOrders(table, orders[..n]), rows, Shares(rows), name);
      }
    }
  }

  lemma {:induction false} AdjustOrdersKeepNames(table: seq<ProductRow>, orders: seq<seq<Row>>)
    requires Sane(orders)
    ensures var after := AdjustOrders(table, orders);
            |after| == |table| && forall i :: 0 <= i < |table| ==> after[i].name == table[i].name
    decreases |orders|
  {
    hide AllWellFormed, AdjustAll, HasDiscount, Shares;
    if orders != [] {
      var n := |orders| - 1;
      AdjustOrdersKeepNames(table, orders[..n]);
      if HasDiscount(orders[n]) {
        AdjustAllKeepsNames(AdjustOrders(table, orders[..n]), orders[n], Shares(orders[n]));
      }
    }
  }

  lemma {:induction false} AdjustAllKeepsNames(table: seq<ProductRow>, rows: seq<Row>, shares: seq<int>)
    requires AllWellFormed(rows) && |shares| == |rows|
    ensures var after := AdjustAll(table, rows, shares);
            |after| == |table| && forall i :: 0 <= i < |table| ==> after[i].name == table[i].name
    decreases |rows|
  {
    hide Adjust;
    if rows != [] {
      var pieces, amount := Pieces(rows[0], shares[0]), Worth(OfferOf(rows[0]), shares[0]);
      AdjustKeepsNames(table, rows[0].productName, pieces, amount);
      AdjustAllKeepsNames(Adjust(table, rows[0].productName, pieces, amount), rows[1..], shares[1..]);
    }
  }

  lemma {:induction false} DropKeepsTheOthers(table: seq<ProductRow>)
    requires OneRowPerName(table)
    ensures var kept := WithoutDiscountRow(table);
            && OneRowPerName(kept) && Names(kept) == Names(table) - {DISCOUNT}
            && forall r :: r in kept <==> r in table && r.name != DISCOUNT
  {
    hide Names, OneRowPerName;
    if table == [] {
      NoNames();
      OneName(ProductRow(DISCOUNT, 0.0, 0.0, 0.0, 0.0));
    } else {
      var rest := WithoutDiscountRow(table[1..]);
      UniqueSplit(table);
      DropKeepsTheOthers(table[1..]);
      NamesSplit(table);
      assert table == [table[0]] + table[1..];
      if table[0].name != DISCOUNT {
        assert WithoutDiscountRow(table) == [table[0]] + rest;
        UniqueCons(table[0], rest);
        NamesSplit(WithoutDiscountRow(table));
        assert WithoutDiscountRow(table)[1..] == rest;
      } else {
        assert WithoutDiscountRow(table) == rest;
      }
    }
  }

  lemma {:induction false} GroupNames(rows: seq<Row>)
    ensures forall name :: name in Names(Group(rows)) <==> exists k :: 0 <= k < |rows| && rows[k].productName == name
  {
    hide Names, Collect;
    if rows == [] {
      OneName(ProductRow(DISCOUNT, 0.0, 0.0, 0.0, 0.0));
    } else {
      var front, last := rows[..|rows| - 1], rows[|rows| - 1];
      GroupNames(front);
      GroupSums(front);
      CollectSums(Group(front), last);
      forall name | name in Names(Group(rows)) ensures exists k :: 0 <= k < |rows| && rows[k].productName == name {
        if name == last.productName {
          assert rows[|rows| - 1].productName == name;
        } else {
          var k :| 0 <= k < |front| && front[k].productName == name;
          assert rows[k].productName == name;
        }
      }
      forall k | 0 <= k < |rows| ensures rows[k].productName in Names(Group(rows)) {
        if k < |front| {
          assert front[k] == rows[k];
        }
      }
    }
  }

  /** Product by product, the table holds what was sold: no piece and no money of a product is lost, made up
      or counted for another one, and what vouchers paid for is no longer among what was sold. */
  lemma EveryProductIsShown(orders: seq<seq<Row>>, arranged: seq<seq<Row>>)
    requires Sane(orders) && Sane(arranged) && Arrangement(orders, arranged)
    ensures var rows, table := Flatten(orders), WithoutDiscountRow(AdjustOrders(Group(Flatten(orders)), arranged));
            && OneRowPerName(table)
            && (forall name :: name in Names(table) <==>
                  name != DISCOUNT && exists k :: 0 <= k < |rows| && rows[k].productName == name)
            && forall r :: r in table ==> ShowsItsProduct(r, rows, arranged)
  {
    hide Names, OneRowPerName, Cell, Group, AdjustOrders, AllPaidPieces, AllPaidAmount, QuantityOf, PriceOf;
    var rows := Flatten(orders);
    var grouped := Group(rows);
    var adjusted := AdjustOrders(grouped, arranged);
    GroupSums(rows);
    GroupNames(rows);
    AdjustOrdersKeepNames(grouped, arranged);
    SameNames(grouped, adjusted);
    SameNamesUnique(grouped, adjusted);
    DropKeepsTheOthers(adjusted);
    ArrangedNames(orders, arranged);
    forall r | r in WithoutDiscountRow(adjusted) ensures ShowsItsProduct(r, rows, arranged) {
      var i :| 0 <= i < |adjusted| && adjusted[i] == r;
      CellOfRow(adjusted, i);
      AdjustOrdersCell(grouped, arranged, r.name);
      GroupCell(rows, r.name);
    }
  }

  lemma ArrangedNames(orders: seq<seq<Row>>, arranged: seq<seq<Row>>)
    requires Arrangement(orders, arranged)
    ensures forall i, j :: 0 <= i < |arranged| && 0 <= j < |arranged[i]| ==>
              arranged[i][j].productName in Names(Group(Flatten(orders)))
  {
    hide Names, Group, Flatten, HasDiscount, Arranged, AllWellFormed;
    FlattenSums(orders);
    GroupSums(Flatten(orders));
    forall i, j | 0 <= i < |arranged| && 0 <= j < |arranged[i]|
      ensures arranged[i][j].productName in Names(Group(Flatten(orders)))
    {
      assert ArrangementOf(orders[i], arranged[i]);
      assert arranged[i][j] in multiset(orders[i]);
      var k :| 0 <= k < |orders[i]| && orders[i][k] == arranged[i][j];
      assert orders[i][k] in Flatten(orders);
    }
  }
}
