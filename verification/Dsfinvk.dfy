/** The DSFinV-K export of one till and one closing: single records, business case totals, closing totals and
    totals per payment method, all of them aggregations of the same line items. */
module Dsfinvk {

  import opened Wrappers
  import opened SignatureTable

  datatype OrderType = Sale | CancelSale | TopUp | PayOut | Ticket | MoneyTransfer | MoneyTransferImbalance
                     | CashierShiftStart | CashierShiftEnd
  datatype ProductType = TicketProduct | TopUpProduct | OtherProduct
  datatype PaymentMethod = Cash | SumUp | Tag | SumUpOnline
  datatype TaxType = RegularVat | ReducedVat | NoTax | Transparent

  /** The row of tax_rate that was in force when the line was booked. */
  datatype TaxRate = TaxRate(name: string, rate: real, taxType: TaxType)

  /** `taxType` is the tax type of the product now, `rate` the line's own. */
  datatype Line = Line(productType: ProductType, returnable: bool, taxType: TaxType, rate: TaxRate, gross: real,
                       tax: real)

  datatype Order = Order(id: nat, orderType: OrderType, paymentMethod: PaymentMethod, status: Status, lines: seq<Line>)

  // ---- classification ----------------------------------------------------------------

  datatype GvTyp = MehrzweckgutscheinKauf | Geldtransit | DifferenzSollIst | Pfand | PfandRueckzahlung
                 | MehrzweckgutscheinEinloesung | Umsatz

  /** gv_typ_for_line_item; None is the error for an unmapped order type. */
  function GvTypOf(orderType: OrderType, line: Line): Option<GvTyp>
  {
    match orderType
    case TopUp => Some(MehrzweckgutscheinKauf)
    case PayOut => Some(MehrzweckgutscheinKauf)
    case MoneyTransfer => Some(Geldtransit)
    case MoneyTransferImbalance => Some(DifferenzSollIst)
    case Sale =>
      if line.returnable && line.gross > 0.0 then Some(Pfand)
      else if line.returnable && line.gross < 0.0 then Some(PfandRueckzahlung)
      else Some(MehrzweckgutscheinEinloesung)
    case Ticket => if line.productType.TopUpProduct? then Some(MehrzweckgutscheinKauf) else Some(Umsatz)
    case _ => None
  }

  predicate Mapped(orderType: OrderType)
  {
    !orderType.CancelSale? && !orderType.CashierShiftStart? && !orderType.CashierShiftEnd?
  }

  function TaxKey(t: TaxType): int
  {
    match t
    case RegularVat => 1
    case ReducedVat => 2
    case NoTax => 5
    case Transparent => 1337
  }

  predicate IsCash(p: PaymentMethod) { p.Cash? }

  // ---- business case totals ----------------------------------------------------------

  datatype Bucket = Bucket(gross: real, net: real, tax: real)

  /** The place of a business case and a tax key in the nested dictionary. */
  datatype Slot = Slot(gvTyp: GvTyp, taxKey: int)

  const GV_TYPES := [MehrzweckgutscheinKauf, Geldtransit, DifferenzSollIst, Pfand, PfandRueckzahlung,
                     MehrzweckgutscheinEinloesung, Umsatz]

  datatype Entry = Entry(slot: Slot, bucket: Bucket)

  const EMPTY := Bucket(0.0, 0.0, 0.0)

  function EmptyRow(g: GvTyp): seq<Entry>
  {
    [Entry(Slot(g, 1), EMPTY), Entry(Slot(g, 2), EMPTY), Entry(Slot(g, 5), EMPTY), Entry(Slot(g, 1337), EMPTY)]
  }

  function EmptyRows(types: seq<GvTyp>): seq<Entry>
  {
    if types == [] then [] else EmptyRow(types[0]) + EmptyRows(types[1..])
  }

  /** The dictionary in the order it is written out: one entry per business case and tax key. */
  function EmptyTotals(): seq<Entry> { EmptyRows(GV_TYPES) }

  function AddLine(b: Bucket, line: Line): Bucket
  {
    Bucket(b.gross + line.gross, b.net + (line.gross - line.tax), b.tax + line.tax)
  }

  function Book(totals: seq<Entry>, slot: Slot, line: Line): (after: seq<Entry>)
    ensures |after| == |totals|
    ensures forall i :: 0 <= i < |totals| ==> after[i].slot == totals[i].slot
  {
    if totals == [] then []
    else if totals[0].slot == slot then [Entry(slot, AddLine(totals[0].bucket, line))] + totals[1..]
    else [totals[0]] + Book(totals[1..], slot, line)
  }

  function SlotOf(orderType: OrderType, line: Line): Option<Slot>
  {
    match GvTypOf(orderType, line)
    case Some(g) => Some(Slot(g, TaxKey(line.taxType)))
    case None => None
  }

  /** The lines of one order, until one cannot be classified. */
  function BookLines(totals: seq<Entry>, orderType: OrderType, lines: seq<Line>): Option<seq<Entry>>
  {
    if lines == [] then Some(totals)
    else
      match BookLines(totals, orderType, lines[..|lines| - 1])
      case None => None
      case Some(before) =>
        match SlotOf(orderType, lines[|lines| - 1])
        case None => None
        case Some(slot) => Some(Book(before, slot, lines[|lines| - 1]))
  }

  predicate Unsigned(o: Order) { o.status == New || o.status == Pending }

  function BookOrders(totals: seq<Entry>, orders: seq<Order>): Option<seq<Entry>>
  {
    if orders == [] then Some(totals)
    else
      match BookOrders(totals, orders[..|orders| - 1])
      case None => None
      case Some(before) =>
        var o := orders[|orders| - 1];
        if Unsigned(o) then Some(before) else BookLines(before, o.orderType, o.lines)
  }

  // ---- reference sums ----------------------------------------------------------------

  function Gross(lines: seq<Line>): real
  {
    if lines == [] then 0.0 else Gross(lines[..|lines| - 1]) + lines[|lines| - 1].gross
  }

  function GrossPart(): Line -> real { (line: Line) => line.gross }
  function TaxPart(): Line -> real { (line: Line) => line.tax }
  function NetPart(): Line -> real { (line: Line) => line.gross - line.tax }

  /** The numbers DSFinV-K gives to the tax types. */
  predicate TaxedAt(t: TaxType, key: int)
  {
    (key == 1 && t.RegularVat?) || (key == 2 && t.ReducedVat?) || (key == 5 && t.NoTax?) || (key == 1337 && t.Transparent?)
  }

  /** The lines of a business case: stored value is sold by top-ups, pay-outs and the top-ups on ticket orders,
      and used up by sales; money transfers and till differences are cases of their own, deposits are those of
      sales, and turnover is what else is on a ticket order. */
  predicate IsOfCase(g: GvTyp, orderType: OrderType, line: Line)
  {
    match g
    case MehrzweckgutscheinKauf => orderType.TopUp? || orderType.PayOut? || (orderType.Ticket? && line.productType.TopUpProduct?)
    case Geldtransit => orderType.MoneyTransfer?
    case DifferenzSollIst => orderType.MoneyTransferImbalance?
    case Pfand => orderType.Sale? && line.returnable && line.gross > 0.0
    case PfandRueckzahlung => orderType.Sale? && line.returnable && line.gross < 0.0
    case MehrzweckgutscheinEinloesung => orderType.Sale? && (!line.returnable || line.gross == 0.0)
    case Umsatz => orderType.Ticket? && (line.productType.TicketProduct? || line.productType.OtherProduct?)
  }

  predicate Belongs(slot: Slot, orderType: OrderType, line: Line)
  {
    IsOfCase(slot.gvTyp, orderType, line) && TaxedAt(line.taxType, slot.taxKey)
  }

  /** The classification finds the business case and the tax key a line belongs to, and there is only one. */
  lemma SlotIsOwn(orderType: OrderType, line: Line, slot: Slot)
    ensures SlotOf(orderType, line) == Some(slot) <==> Belongs(slot, orderType, line)
  {
    KeyIsOwn(line.taxType, slot.taxKey);
  }

  lemma KeyIsOwn(t: TaxType, key: int)
    ensures TaxKey(t) == key <==> TaxedAt(t, key)
  {
  }

  /** Sum of the lines of one order that belong to one business case and tax key. */
  function SlotSum(slot: Slot, orderType: OrderType, lines: seq<Line>, part: Line -> real): real
  {
    if lines == [] then 0.0
    else
      var line := lines[|lines| - 1];
      SlotSum(slot, orderType, lines[..|lines| - 1], part) + (if Belongs(slot, orderType, line) then part(line) else 0.0)
  }

  /** Orders are exported once they are signed or the signature has failed. */
  predicate Closed(o: Order) { o.status == Done || o.status == Failure }

  function SlotTotal(slot: Slot, orders: seq<Order>, part: Line -> real): real
  {
    if orders == [] then 0.0
    else
      var o := orders[|orders| - 1];
      SlotTotal(slot, orders[..|orders| - 1], part) + (if Closed(o) then SlotSum(slot, o.orderType, o.lines, part) else 0.0)
  }

  /** What the exported lines of one business case and tax key come to. */
  function CaseOf(slot: Slot, orders: seq<Order>): Bucket
  {
    Bucket(SlotTotal(slot, orders, GrossPart()), SlotTotal(slot, orders, NetPart()), SlotTotal(slot, orders, TaxPart()))
  }

  function Tax(lines: seq<Line>): real
  {
    if lines == [] then 0.0 else Tax(lines[..|lines| - 1]) + lines[|lines| - 1].tax
  }

  /** Tax of the exported orders. */
  function TaxTotal(orders: seq<Order>): real
  {
    if orders == [] then 0.0
    else
      var o := orders[|orders| - 1];
      TaxTotal(orders[..|orders| - 1]) + (if Closed(o) then Tax(o.lines) else 0.0)
  }

  /** Gross sum of all orders, of the exported ones, of the unsigned ones, of one payment method. */
  function Total(orders: seq<Order>, counts: Order -> bool): real
  {
    if orders == [] then 0.0
    else
      var o := orders[|orders| - 1];
      Total(orders[..|orders| - 1], counts) + (if counts(o) then Gross(o.lines) else 0.0)
  }

  function Everything(): Order -> bool { (o: Order) => true }
  function Exported(): Order -> bool { (o: Order) => Closed(o) }
  function LeftOut(): Order -> bool { (o: Order) => o.status == New || o.status == Pending }
  function PaidBy(p: PaymentMethod): Order -> bool { (o: Order) => o.paymentMethod == p }
  function PaidInCash(): Order -> bool { (o: Order) => IsCash(o.paymentMethod) }

  function GrossOf(totals: seq<Entry>): real
  {
    if totals == [] then 0.0 else totals[0].bucket.gross + GrossOf(totals[1..])
  }

  predicate HasSlot(totals: seq<Entry>, slot: Slot) { exists i :: 0 <= i < |totals| && totals[i].slot == slot }

  function BucketAt(totals: seq<Entry>, slot: Slot): Bucket
  {
    if totals == [] then EMPTY else if totals[0].slot == slot then totals[0].bucket else BucketAt(totals[1..], slot)
  }

  predicate NetPlusTax(totals: seq<Entry>)
  {
    forall i :: 0 <= i < |totals| ==> totals[i].bucket.net + totals[i].bucket.tax == totals[i].bucket.gross
  }

  // ---- what booking a line does ------------------------------------------------------

  lemma {:induction false} BookAdds(totals: seq<Entry>, slot: Slot, line: Line, other: Slot)
    requires HasSlot(totals, slot)
    ensures var after := Book(totals, slot, line);
            && GrossOf(after) == GrossOf(totals) + line.gross
            && (NetPlusTax(totals) ==> NetPlusTax(after))
            && BucketAt(after, other) == (if other == slot then AddLine(BucketAt(totals, slot), line) else BucketAt(totals, other))
  {
    if totals[0].slot == slot {
      assert Book(totals, slot, line)[1..] == totals[1..];
      assert forall i :: 0 < i < |totals| ==> Book(totals, slot, line)[i] == totals[i];
    } else {
      var i :| 0 <= i < |totals| && totals[i].slot == slot;
      assert totals[1..][i - 1].slot == slot;
      BookAdds(totals[1..], slot, line, other);
      var rest := Book(totals[1..], slot, line);
      assert Book(totals, slot, line)[1..] == rest;
      assert forall k :: 0 < k < |totals| ==> Book(totals, slot, line)[k] == rest[k - 1] && totals[k] == totals[1..][k - 1];
    }
  }

  /** The dictionary has a place for whatever can be classified. */
  lemma SlotExists(orderType: OrderType, line: Line)
    ensures SlotOf(orderType, line).Some? <==> Mapped(orderType)
    ensures SlotOf(orderType, line).Some? ==> HasSlot(EmptyTotals(), SlotOf(orderType, line).value)
  {
    if Mapped(orderType) {
      var slot := SlotOf(orderType, line).value;
      SlotInRows(GV_TYPES, slot.gvTyp, TaxIndex(line.taxType));
    }
  }

  function TaxIndex(t: TaxType): (i: nat)
    ensures i < 4
  {
    match t
    case RegularVat => 0
    case ReducedVat => 1
    case NoTax => 2
    case Transparent => 3
  }

  lemma {:induction false} SlotInRows(types: seq<GvTyp>, g: GvTyp, k: nat)
    requires g in types && k < 4
    ensures HasSlot(EmptyRows(types), EmptyRow(g)[k].slot)
  {
    var rows := EmptyRows(types);
    if types[0] == g {
      assert rows[k] == EmptyRow(g)[k];
    } else {
      SlotInRows(types[1..], g, k);
      var rest := EmptyRows(types[1..]);
      var i :| 0 <= i < |rest| && rest[i].slot == EmptyRow(g)[k].slot;
      assert rows[4 + i] == rest[i];
    }
  }

  predicate AllEmpty(totals: seq<Entry>) { forall i :: 0 <= i < |totals| ==> totals[i].bucket == EMPTY }

  lemma {:induction false} RowsAreEmpty(types: seq<GvTyp>)
    ensures AllEmpty(EmptyRows(types))
  {
    if types != [] {
      RowsAreEmpty(types[1..]);
    }
  }

  lemma {:induction false} EmptyIsZero(totals: seq<Entry>, slot: Slot)
    requires AllEmpty(totals)
    ensures GrossOf(totals) == 0.0 && NetPlusTax(totals) && BucketAt(totals, slot) == EMPTY
  {
    if totals != [] {
      EmptyIsZero(totals[1..], slot);
    }
  }

  lemma SameSlots(a: seq<Entry>, b: seq<Entry>, slot: Slot)
    requires |a| == |b| && forall i :: 0 <= i < |a| ==> a[i].slot == b[i].slot
    requires HasSlot(a, slot)
    ensures HasSlot(b, slot)
  {
    var i :| 0 <= i < |a| && a[i].slot == slot;
    assert b[i].slot == slot;
  }

  ghost predicate Complete(totals: seq<Entry>)
  {
    |totals| == |EmptyTotals()| && forall i :: 0 <= i < |totals| ==> totals[i].slot == EmptyTotals()[i].slot
  }

  lemma {:induction false} BookLinesAdds(totals: seq<Entry>, orderType: OrderType, lines: seq<Line>, slot: Slot)
    requires Complete(totals)
    ensures BookLines(totals, orderType, lines).Some? <==> lines == [] || Mapped(orderType)
    ensures BookLines(totals, orderType, lines).Some? ==>
              var after := BookLines(totals, orderType, lines).value;
              && Complete(after) && GrossOf(after) == GrossOf(totals) + Gross(lines)
              && (NetPlusTax(totals) ==> NetPlusTax(after))
              && BucketAt(after, slot).gross == BucketAt(totals, slot).gross + SlotSum(slot, orderType, lines, GrossPart())
              && BucketAt(after, slot).net == BucketAt(totals, slot).net + SlotSum(slot, orderType, lines, NetPart())
              && BucketAt(after, slot).tax == BucketAt(totals, slot).tax + SlotSum(slot, orderType, lines, TaxPart())
  {
    hide EmptyTotals, NetPlusTax, BucketAt, GrossOf, SlotOf, Book, HasSlot, Belongs;
    if lines != [] {
      var front, line := lines[..|lines| - 1], lines[|lines| - 1];
      BookLinesAdds(totals, orderType, front, slot);
      SlotExists(orderType, line);
      SlotIsOwn(orderType, line, slot);
      if Mapped(orderType) {
        var before := BookLines(totals, orderType, front).value;
        SameSlots(EmptyTotals(), before, SlotOf(orderType, line).value);
        BookAdds(before, SlotOf(orderType, line).value, line, slot);
      }
    }
  }

  /** No exported order with lines is of a type that has no business case. */
  predicate AllMapped(orders: seq<Order>)
  {
    forall i :: 0 <= i < |orders| && Closed(orders[i]) && orders[i].lines != [] ==> Mapped(orders[i].orderType)
  }

  lemma {:induction false} BookOrdersAdds(orders: seq<Order>, slot: Slot)
    ensures BookOrders(EmptyTotals(), orders).Some? <==> AllMapped(orders)
    ensures BookOrders(EmptyTotals(), orders).Some? ==>
              var after := BookOrders(EmptyTotals(), orders).value;
              && Complete(after) && GrossOf(after) == Total(orders, Exported()) && NetPlusTax(after)
              && BucketAt(after, slot) == CaseOf(slot, orders)
  {
    hide EmptyTotals, NetPlusTax, BucketAt, GrossOf, BookLines, Gross, SlotSum;
    if orders == [] {
      NoTotals();
      EmptyIsZero(EmptyTotals(), slot);
    } else {
      var front, o := orders[..|orders| - 1], orders[|orders| - 1];
      BookOrdersAdds(front, slot);
      assert AllMapped(orders) <==> AllMapped(front) && (Closed(o) && o.lines != [] ==> Mapped(o.orderType)) by {
        assert forall i :: 0 <= i < |front| ==> front[i] == orders[i];
      }
      if AllMapped(front) {
        var before := BookOrders(EmptyTotals(), front).value;
        BookLinesAdds(before, o.orderType, o.lines, slot);
      }
    }
  }

  lemma NoTotals()
    ensures AllEmpty(EmptyTotals())
  {
    RowsAreEmpty(GV_TYPES);
  }

  lemma {:induction false} TotalSplits(orders: seq<Order>)
    ensures Total(orders, Everything()) == Total(orders, Exported()) + Total(orders, LeftOut())
    ensures Total(orders, Everything())
            == Total(orders, PaidBy(Cash)) + Total(orders, PaidBy(SumUp)) + Total(orders, PaidBy(Tag))
               + Total(orders, PaidBy(SumUpOnline))
    ensures Total(orders, PaidInCash()) == Total(orders, PaidBy(Cash))
  {
    hide Gross;
    if orders != [] {
      TotalSplits(orders[..|orders| - 1]);
    }
  }

  // ---- the records -------------------------------------------------------------------

  /** transactions_vat.csv, lines_vat.csv, datapayment.csv, businesscases.csv, payment.csv */
  datatype BonkopfUst = BonkopfUst(bonId: nat, taxKey: int, gross: real, net: real, tax: real)
  datatype BonposUst = BonposUst(bonId: nat, taxKey: int, gross: real, net: real, tax: real)
  datatype BonkopfZahlart = BonkopfZahlart(bonId: nat, art: PaymentMethod, amount: real)
  datatype ZGvTyp = ZGvTyp(gvTyp: GvTyp, taxKey: int, gross: real, net: real, tax: real)
  datatype ZZahlart = ZZahlart(art: PaymentMethod, amount: real)

  function PositionOf(o: Order, line: Line): BonposUst
  {
    BonposUst(o.id, TaxKey(line.taxType), line.gross, line.gross - line.tax, line.tax)
  }

  /** A sum over the lines of one rate, as the view order_tax_rates groups them. */
  function RateSum(lines: seq<Line>, rate: TaxRate, part: Line -> real): real
  {
    if lines == [] then 0.0
    else
      var line := lines[|lines| - 1];
      RateSum(lines[..|lines| - 1], rate, part) + (if line.rate == rate then part(line) else 0.0)
  }

  /** The groups, in the order of their first line. */
  function RatesOf(lines: seq<Line>): (rates: seq<TaxRate>)
    ensures forall i, j :: 0 <= i < j < |rates| ==> rates[i] != rates[j]
    ensures forall i :: 0 <= i < |lines| ==> lines[i].rate in rates
  {
    if lines == [] then []
    else
      var before, rate := RatesOf(lines[..|lines| - 1]), lines[|lines| - 1].rate;
      if rate in before then before else before + [rate]
  }

  function VatRow(o: Order, rate: TaxRate): BonkopfUst
  {
    BonkopfUst(o.id, TaxKey(rate.taxType), RateSum(o.lines, rate, GrossPart()), RateSum(o.lines, rate, NetPart()),
               RateSum(o.lines, rate, TaxPart()))
  }

  function VatRows(o: Order, rates: seq<TaxRate>): seq<BonkopfUst>
  {
    if rates == [] then [] else VatRows(o, rates[..|rates| - 1]) + [VatRow(o, rates[|rates| - 1])]
  }

  function AllVatRows(orders: seq<Order>): seq<BonkopfUst>
  {
    if orders == [] then []
    else
      var o := orders[|orders| - 1];
      AllVatRows(orders[..|orders| - 1]) + (if Unsigned(o) then [] else VatRows(o, RatesOf(o.lines)))
  }

  function Positions(o: Order, lines: seq<Line>): seq<BonposUst>
  {
    seq(|lines|, i requires 0 <= i < |lines| => PositionOf(o, lines[i]))
  }

  function AllPositions(orders: seq<Order>): seq<BonposUst>
  {
    if orders == [] then []
    else
      var o := orders[|orders| - 1];
      AllPositions(orders[..|orders| - 1]) + (if Unsigned(o) then [] else Positions(o, o.lines))
  }

  function AllPayments(orders: seq<Order>): seq<BonkopfZahlart>
  {
    if orders == [] then []
    else
      var o := orders[|orders| - 1];
      AllPayments(orders[..|orders| - 1]) + (if Unsigned(o) then [] else [BonkopfZahlart(o.id, o.paymentMethod, Gross(o.lines))])
  }

  function BusinessCases(totals: seq<Entry>): seq<ZGvTyp>
  {
    if totals == [] then []
    else
      var e := totals[|totals| - 1];
      BusinessCases(totals[..|totals| - 1])
      + (if e.bucket.gross == 0.0 then []
         else [ZGvTyp(e.slot.gvTyp, e.slot.taxKey, e.bucket.gross, e.bucket.net, e.bucket.tax)])
  }

  class Export {
    var gvSumme: seq<Entry>
    var vatRows: seq<BonkopfUst>
    var positions: seq<BonposUst>
    var payments: seq<BonkopfZahlart>
    var zahlungen: real
    var barzahlungen: real
    var businessCases: seq<ZGvTyp>
    var zahlarten: seq<ZZahlart>
    var waehrung: real

    constructor ()
      ensures vatRows == [] && positions == [] && payments == [] && businessCases == [] && zahlarten == []
    {
      gvSumme, vatRows, positions, payments, businessCases, zahlarten := EmptyTotals(), [], [], [], [], [];
      zahlungen, barzahlungen, waehrung := 0.0, 0.0, 0.0;
    }

    /** Single records and business case totals; false is the error of a line without a business case,
        which aborts the export. */
    method Einzelaufzeichnungsmodul(orders: seq<Order>) returns (ok: bool)
      requires vatRows == [] && positions == [] && payments == []
      modifies this`gvSumme, this`vatRows, this`positions, this`payments
      ensures ok <==> BookOrders(EmptyTotals(), orders).Some?
      ensures ok <==> AllMapped(orders)
      ensures ok ==>
                && gvSumme == BookOrders(EmptyTotals(), orders).value
                && (forall slot :: BucketAt(gvSumme, slot) == CaseOf(slot, orders))
                && vatRows == AllVatRows(orders)
                && positions == AllPositions(orders) && payments == AllPayments(orders)
    {
      hide Book, VatRows, RatesOf, SlotOf, EmptyTotals, TaxKey, BookLines, Gross, Positions, BucketAt, CaseOf, AllMapped;
      gvSumme := EmptyTotals();
      for i := 0 to |orders|
        invariant BookOrders(EmptyTotals(), orders[..i]) == Some(gvSumme)
        invariant vatRows == AllVatRows(orders[..i])
        invariant positions == AllPositions(orders[..i]) && payments == AllPayments(orders[..i])
      {
        assert orders[..i + 1][..i] == orders[..i];
        var o := orders[i];
        if Unsigned(o) {
          assert AllVatRows(orders[..i + 1]) == AllVatRows(orders[..i]);
          continue;
        }
        var exported := ExportOrder(o);
        if !exported {
          OrdersFail(EmptyTotals(), orders, i + 1);
          BookOrdersAdds(orders, Slot(Umsatz, 1));
          return false;
        }
      }
      assert orders[..|orders|] == orders;
      ok := true;
      BookOrdersAdds(orders, Slot(Umsatz, 1));
      forall slot ensures BucketAt(gvSumme, slot) == CaseOf(slot, orders) {
        BookOrdersAdds(orders, slot);
      }
    }

    /** The records of one signed order. */
    method ExportOrder(o: Order) returns (ok: bool)
      modifies this`gvSumme, this`vatRows, this`positions, this`payments
      ensures ok <==> BookLines(old(gvSumme), o.orderType, o.lines).Some?
      ensures ok ==>
                && gvSumme == BookLines(old(gvSumme), o.orderType, o.lines).value
                && vatRows == old(vatRows) + VatRows(o, RatesOf(o.lines))
                && positions == old(positions) + Positions(o, o.lines)
                && payments == old(payments) + [BonkopfZahlart(o.id, o.paymentMethod, Gross(o.lines))]
    {
      hide BookLines, VatRows, RatesOf, Positions, Gross;
      ExportVat(o);
      var total := SumLines(o.lines);
      payments := payments + [BonkopfZahlart(o.id, o.paymentMethod, total)];
      ok := ExportLines(o);
    }

    /** The tax breakdown of one order. */
    method ExportVat(o: Order)
      modifies this`vatRows
      ensures vatRows == old(vatRows) + VatRows(o, RatesOf(o.lines))
    {
      hide VatRow, RatesOf;
      var rates := RatesOf(o.lines);
      for k := 0 to |rates|
        invariant vatRows == old(vatRows) + VatRows(o, rates[..k])
      {
        assert rates[..k + 1][..k] == rates[..k];
        vatRows := vatRows + [VatRow(o, rates[k])];
      }
      assert rates[..|rates|] == rates;
    }

    /** The lines of one order and their share in the business case totals. */
    method ExportLines(o: Order) returns (ok: bool)
      modifies this`gvSumme, this`positions
      ensures ok <==> BookLines(old(gvSumme), o.orderType, o.lines).Some?
      ensures ok ==>
                && gvSumme == BookLines(old(gvSumme), o.orderType, o.lines).value
                && positions == old(positions) + Positions(o, o.lines)
    {
      hide Book, SlotOf, TaxKey;
      for j := 0 to |o.lines|
        invariant BookLines(old(gvSumme), o.orderType, o.lines[..j]) == Some(gvSumme)
        invariant positions == old(positions) + Positions(o, o.lines[..j])
      {
        assert o.lines[..j + 1][..j] == o.lines[..j];
        var line := o.lines[j];
        var slot := SlotOf(o.orderType, line);
        if slot.None? {
          LinesFail(old(gvSumme), o.orderType, o.lines, j + 1);
          return false;
        }
        gvSumme := Book(gvSumme, slot.value, line);
        positions := positions + [PositionOf(o, line)];
      }
      assert o.lines[..|o.lines|] == o.lines;
      ok := true;
    }

    /** The two closing sums, over all line items of the till and closing. */
    method Stammdatenmodul(orders: seq<Order>)
      modifies this`zahlungen, this`barzahlungen
      ensures zahlungen == Total(orders, Everything()) && barzahlungen == Total(orders, PaidInCash())
    {
      zahlungen, barzahlungen := 0.0, 0.0;
      for i := 0 to |orders|
        invariant zahlungen == Total(orders[..i], Everything()) && barzahlungen == Total(orders[..i], PaidInCash())
      {
        assert orders[..i + 1][..i] == orders[..i];
        var o := orders[i];
        for j := 0 to |o.lines|
          invariant zahlungen == Total(orders[..i], Everything()) + Gross(o.lines[..j])
          invariant barzahlungen
                    == Total(orders[..i], PaidInCash()) + (if IsCash(o.paymentMethod) then Gross(o.lines[..j]) else 0.0)
        {
          assert o.lines[..j + 1][..j] == o.lines[..j];
          zahlungen := zahlungen + o.lines[j].gross;
          if IsCash(o.paymentMethod) {
            barzahlungen := barzahlungen + o.lines[j].gross;
          }
        }
        assert o.lines[..|o.lines|] == o.lines;
      }
      assert orders[..|orders|] == orders;
    }

    /** Business cases as collected, without those whose gross sum is zero; one total per payment method;
        the cash total. */
    method Kassenabschlussmodul(orders: seq<Order>)
      requires businessCases == []
      modifies this`businessCases, this`zahlarten, this`waehrung
      ensures businessCases == BusinessCases(gvSumme)
      ensures waehrung == Total(orders, PaidInCash())
      ensures Distinct(zahlarten)
      ensures forall i :: 0 <= i < |zahlarten| ==> zahlarten[i].amount == Total(orders, PaidBy(zahlarten[i].art))
      ensures forall o :: o in orders && o.lines != [] ==> Lists(zahlarten, o.paymentMethod)
    {
      businessCases := WriteCases(gvSumme);
      zahlarten, waehrung := SumPerMethod(orders);
    }
  }

  method WriteCases(totals: seq<Entry>) returns (rows: seq<ZGvTyp>)
    ensures rows == BusinessCases(totals)
  {
    rows := [];
    for i := 0 to |totals|
      invariant rows == BusinessCases(totals[..i])
    {
      assert totals[..i + 1][..i] == totals[..i];
      var e := totals[i];
      if e.bucket.gross != 0.0 {
        rows := rows + [ZGvTyp(e.slot.gvTyp, e.slot.taxKey, e.bucket.gross, e.bucket.net, e.bucket.tax)];
      }
    }
    assert totals[..|totals|] == totals;
  }

  /** The dictionary of sums by payment method; its keys are the methods of the orders that have lines. */
  method SumPerMethod(orders: seq<Order>) returns (rows: seq<ZZahlart>, cash: real)
    ensures cash == Total(orders, PaidInCash())
    ensures Distinct(rows)
    ensures forall i :: 0 <= i < |rows| ==> rows[i].amount == Total(orders, PaidBy(rows[i].art))
    ensures forall o :: o in orders && o.lines != [] ==> Lists(rows, o.paymentMethod)
  {
    hide Gross, Total;
    TotalOfNothing();
    var summe: map<PaymentMethod, real> := map[];
    var methods: seq<PaymentMethod> := [];
    cash := 0.0;
    for i := 0 to |orders|
      invariant forall m :: m in summe <==> m in methods
      invariant forall a, b :: 0 <= a < b < |methods| ==> methods[a] != methods[b]
      invariant forall m :: m in methods ==> summe[m] == Total(orders[..i], PaidBy(m))
      invariant forall m :: m !in methods ==> Total(orders[..i], PaidBy(m)) == 0.0
      invariant forall k :: 0 <= k < i && orders[k].lines != [] ==> orders[k].paymentMethod in methods
      invariant cash == Total(orders[..i], PaidInCash())
    {
      var o := orders[i];
      var sum := SumLines(o.lines);
      NoLinesNoGross(o.lines);
      TotalStep(orders, i, PaidInCash());
      forall m: PaymentMethod
        ensures Total(orders[..i + 1], PaidBy(m)) == Total(orders[..i], PaidBy(m)) + if m == o.paymentMethod then sum else 0.0
      {
        TotalStep(orders, i, PaidBy(m));
      }
      if o.lines != [] {
        if o.paymentMethod !in summe {
          methods := methods + [o.paymentMethod];
          summe := summe[o.paymentMethod := 0.0];
        }
        summe := summe[o.paymentMethod := summe[o.paymentMethod] + sum];
        if IsCash(o.paymentMethod) {
          cash := cash + sum;
        }
      }
    }
    assert orders[..|orders|] == orders;
    rows := seq(|methods|, k requires 0 <= k < |methods| && methods[k] in summe => ZZahlart(methods[k], summe[methods[k]]));
    forall o | o in orders && o.lines != [] ensures Lists(rows, o.paymentMethod) {
      var k :| 0 <= k < |methods| && methods[k] == o.paymentMethod;
      assert rows[k].art == o.paymentMethod;
    }
  }

  lemma TotalOfNothing()
    ensures forall counts :: Total([], counts) == 0.0
  {
  }

  lemma TotalStep(orders: seq<Order>, i: nat, counts: Order -> bool)
    requires i < |orders|
    ensures Total(orders[..i + 1], counts) == Total(orders[..i], counts) + if counts(orders[i]) then Gross(orders[i].lines) else 0.0
  {
    assert orders[..i + 1][..i] == orders[..i];
  }

  lemma NoLinesNoGross(lines: seq<Line>)
    ensures lines == [] ==> Gross(lines) == 0.0
  {
  }

  method SumLines(lines: seq<Line>) returns (sum: real)
    ensures sum == Gross(lines)
  {
    sum := 0.0;
    for j := 0 to |lines|
      invariant sum == Gross(lines[..j])
    {
      assert lines[..j + 1][..j] == lines[..j];
      sum := sum + lines[j].gross;
    }
    assert lines[..|lines|] == lines;
  }

  predicate Distinct(rows: seq<ZZahlart>)
  {
    forall a, b :: 0 <= a < b < |rows| ==> rows[a].art != rows[b].art
  }

  lemma {:induction false} LinesFail(totals: seq<Entry>, orderType: OrderType, lines: seq<Line>, n: nat)
    requires n <= |lines| && BookLines(totals, orderType, lines[..n]).None?
    ensures BookLines(totals, orderType, lines).None?
    decreases |lines| - n
  {
    if n < |lines| {
      assert lines[..n + 1][..n] == lines[..n];
      LinesFail(totals, orderType, lines, n + 1);
    } else {
      assert lines[..n] == lines;
    }
  }

  lemma {:induction false} OrdersFail(totals: seq<Entry>, orders: seq<Order>, n: nat)
    requires n <= |orders| && BookOrders(totals, orders[..n]).None?
    ensures BookOrders(totals, orders).None?
    decreases |orders| - n
  {
    if n < |orders| {
      assert orders[..n + 1][..n] == orders[..n];
      OrdersFail(totals, orders, n + 1);
    } else {
      assert orders[..n] == orders;
    }
  }

  // ---- the aggregations agree ---------------------------------------------------

  function PositionTotal(rows: seq<BonposUst>): real
  {
    if rows == [] then 0.0 else PositionTotal(rows[..|rows| - 1]) + rows[|rows| - 1].gross
  }

  function PositionTax(rows: seq<BonposUst>): real
  {
    if rows == [] then 0.0 else PositionTax(rows[..|rows| - 1]) + rows[|rows| - 1].tax
  }

  function PaymentTotal(rows: seq<BonkopfZahlart>): real
  {
    if rows == [] then 0.0 else PaymentTotal(rows[..|rows| - 1]) + rows[|rows| - 1].amount
  }

  function CaseTotal(rows: seq<ZGvTyp>): real
  {
    if rows == [] then 0.0 else CaseTotal(rows[..|rows| - 1]) + rows[|rows| - 1].gross
  }

  function MethodTotal(rows: seq<ZZahlart>): real
  {
    if rows == [] then 0.0 else MethodTotal(rows[..|rows| - 1]) + rows[|rows| - 1].amount
  }

  lemma {:induction false} PositionConcat(rows: seq<BonposUst>, o: Order, lines: seq<Line>)
    ensures PositionTotal(rows + Positions(o, lines)) == PositionTotal(rows) + Gross(lines)
    ensures PositionTax(rows + Positions(o, lines)) == PositionTax(rows) + Tax(lines)
  {
    var more := Positions(o, lines);
    if lines == [] {
      assert rows + more == rows;
    } else {
      var front := lines[..|lines| - 1];
      PositionConcat(rows, o, front);
      assert (rows + more)[..|rows + more| - 1] == rows + Positions(o, front);
    }
  }

  lemma {:induction false} RecordsTotal(orders: seq<Order>)
    ensures PositionTotal(AllPositions(orders)) == Total(orders, Exported())
    ensures PositionTax(AllPositions(orders)) == TaxTotal(orders)
    ensures PaymentTotal(AllPayments(orders)) == Total(orders, Exported())
  {
    hide Gross, Tax;
    if orders != [] {
      var front, o := orders[..|orders| - 1], orders[|orders| - 1];
      RecordsTotal(front);
      if Unsigned(o) {
        assert AllPositions(front) + [] == AllPositions(front) && AllPayments(front) + [] == AllPayments(front);
      } else {
        PositionConcat(AllPositions(front), o, o.lines);
        var all := AllPayments(orders);
        assert all[..|all| - 1] == AllPayments(front);
      }
    }
  }

  lemma {:induction false} GrossOfFront(totals: seq<Entry>)
    requires totals != []
    ensures GrossOf(totals) == GrossOf(totals[..|totals| - 1]) + totals[|totals| - 1].bucket.gross
  {
    if |totals| > 1 {
      GrossOfFront(totals[1..]);
      assert totals[1..][..|totals| - 2] == totals[..|totals| - 1][1..];
    }
  }

  /** Leaving out the empty business cases leaves out no gross money, and each written one splits into net and tax. */
  lemma {:induction false} CasesTotal(totals: seq<Entry>)
    requires NetPlusTax(totals)
    ensures CaseTotal(BusinessCases(totals)) == GrossOf(totals)
    ensures forall row :: row in BusinessCases(totals) ==> row.net + row.tax == row.gross && row.gross != 0.0
  {
    if totals != [] {
      var front, e := totals[..|totals| - 1], totals[|totals| - 1];
      CasesTotal(front);
      GrossOfFront(totals);
      var all := BusinessCases(totals);
      if e.bucket.gross != 0.0 {
        assert all[..|all| - 1] == BusinessCases(front);
      } else {
        assert all == BusinessCases(front);
      }
    }
  }

  predicate Lists(rows: seq<ZZahlart>, m: PaymentMethod) { exists i :: 0 <= i < |rows| && rows[i].art == m }

  lemma {:induction false} MethodsTotal(rows: seq<ZZahlart>, orders: seq<Order>)
    requires Distinct(rows)
    requires forall i :: 0 <= i < |rows| ==> rows[i].amount == Total(orders, PaidBy(rows[i].art))
    ensures MethodTotal(rows)
            == (if Lists(rows, Cash) then Total(orders, PaidBy(Cash)) else 0.0)
               + (if Lists(rows, SumUp) then Total(orders, PaidBy(SumUp)) else 0.0)
               + (if Lists(rows, Tag) then Total(orders, PaidBy(Tag)) else 0.0)
               + (if Lists(rows, SumUpOnline) then Total(orders, PaidBy(SumUpOnline)) else 0.0)
  {
    hide Total;
    if rows != [] {
      var front, row := rows[..|rows| - 1], rows[|rows| - 1];
      MethodsTotal(front, orders);
      ListsFront(rows, Cash);
      ListsFront(rows, SumUp);
      ListsFront(rows, Tag);
      ListsFront(rows, SumUpOnline);
      assert !Lists(front, row.art);
    }
  }

  lemma ListsFront(rows: seq<ZZahlart>, m: PaymentMethod)
    requires rows != []
    ensures Lists(rows, m) <==> Lists(rows[..|rows| - 1], m) || rows[|rows| - 1].art == m
  {
    if i :| 0 <= i < |rows| && rows[i].art == m && i < |rows| - 1 {
      assert rows[..|rows| - 1][i].art == m;
    }
    var front := rows[..|rows| - 1];
    if Lists(front, m) {
      var j :| 0 <= j < |front| && front[j].art == m;
      assert rows[j].art == m;
    }
  }

  lemma {:induction false} UnusedMethod(orders: seq<Order>, m: PaymentMethod)
    requires forall o :: o in orders && o.lines != [] ==> o.paymentMethod != m
    ensures Total(orders, PaidBy(m)) == 0.0
  {
    if orders != [] {
      UnusedMethod(orders[..|orders| - 1], m);
    }
  }

  /** payment.csv sums to the closing total: every used payment method has exactly one row. */
  lemma MethodsCoverAll(rows: seq<ZZahlart>, orders: seq<Order>)
    requires Distinct(rows)
    requires forall i :: 0 <= i < |rows| ==> rows[i].amount == Total(orders, PaidBy(rows[i].art))
    requires forall o :: o in orders && o.lines != [] ==> Lists(rows, o.paymentMethod)
    ensures MethodTotal(rows) == Total(orders, Everything())
  {
    hide Total, MethodTotal;
    MethodsTotal(rows, orders);
    TotalSplits(orders);
    forall m: PaymentMethod | !Lists(rows, m) ensures Total(orders, PaidBy(m)) == 0.0 {
      UnusedMethod(orders, m);
    }
  }

  /** All aggregations of a till and closing. Lines, tax breakdowns, payments and business cases agree among
      each other; the closing total, the payment methods and the cash sums agree among each other; and the
      two groups agree if and only if the orders not yet signed sum to zero. */
  lemma TotalsAgree(orders: seq<Order>, zahlarten: seq<ZZahlart>)
    requires AllMapped(orders)
    requires Distinct(zahlarten)
    requires forall i :: 0 <= i < |zahlarten| ==> zahlarten[i].amount == Total(orders, PaidBy(zahlarten[i].art))
    requires forall o :: o in orders && o.lines != [] ==> Lists(zahlarten, o.paymentMethod)
    ensures BookOrders(EmptyTotals(), orders).Some?
    ensures var cases := BusinessCases(BookOrders(EmptyTotals(), orders).value);
            && CaseTotal(cases) == PositionTotal(AllPositions(orders)) == PaymentTotal(AllPayments(orders))
            && CaseTotal(cases) == VatTotal(AllVatRows(orders), AnyKey())
            && (forall row :: row in cases ==> row.net + row.tax == row.gross)
            && MethodTotal(zahlarten) == Total(orders, Everything())
            && Total(orders, Everything()) - CaseTotal(cases) == Total(orders, LeftOut())
            && (CaseTotal(cases) == MethodTotal(zahlarten) <==> Total(orders, LeftOut()) == 0.0)
            && Total(orders, PaidInCash()) == Total(orders, PaidBy(Cash))
  {
    hide EmptyTotals, Total, BusinessCases, AllPositions, AllPayments, NetPlusTax, GrossOf, BookOrders, AllVatRows, VatTotal;
    BookOrdersAdds(orders, Slot(Umsatz, 1));
    BreakdownsAgree(orders, 1);
    CasesTotal(BookOrders(EmptyTotals(), orders).value);
    RecordsTotal(orders);
    TotalSplits(orders);
    MethodsCoverAll(zahlarten, orders);
  }

  /** Gross, net and tax total of each business case and tax key are those of exactly the exported lines that
      belong to it. */
  lemma CaseIsItsLines(orders: seq<Order>, slot: Slot)
    requires AllMapped(orders)
    ensures BookOrders(EmptyTotals(), orders).Some?
    ensures BucketAt(BookOrders(EmptyTotals(), orders).value, slot) == CaseOf(slot, orders)
  {
    BookOrdersAdds(orders, slot);
  }

  // ---- the tax breakdown per order ---------------------------------------------------

  function AnyKey(): int -> bool { (key: int) => true }
  function OnlyKey(key: int): int -> bool { (k: int) => k == key }

  /** Gross sum of the rows with the tax keys that count. */
  function VatTotal(rows: seq<BonkopfUst>, counts: int -> bool): real
  {
    if rows == [] then 0.0
    else
      var row := rows[|rows| - 1];
      VatTotal(rows[..|rows| - 1], counts) + (if counts(row.taxKey) then row.gross else 0.0)
  }

  function VatTax(rows: seq<BonkopfUst>, counts: int -> bool): real
  {
    if rows == [] then 0.0
    else
      var row := rows[|rows| - 1];
      VatTax(rows[..|rows| - 1], counts) + (if counts(row.taxKey) then row.tax else 0.0)
  }

  function PositionKeyTotal(rows: seq<BonposUst>, key: int): real
  {
    if rows == [] then 0.0
    else
      var row := rows[|rows| - 1];
      PositionKeyTotal(rows[..|rows| - 1], key) + (if row.taxKey == key then row.gross else 0.0)
  }

  function Picked(lines: seq<Line>, picks: Line -> bool, part: Line -> real): real
  {
    if lines == [] then 0.0
    else
      var line := lines[|lines| - 1];
      Picked(lines[..|lines| - 1], picks, part) + (if picks(line) then part(line) else 0.0)
  }

  function PickedTotal(orders: seq<Order>, picks: Line -> bool, part: Line -> real): real
  {
    if orders == [] then 0.0
    else
      var o := orders[|orders| - 1];
      PickedTotal(orders[..|orders| - 1], picks, part) + (if Closed(o) then Picked(o.lines, picks, part) else 0.0)
  }

  function RateCounts(counts: int -> bool): Line -> bool { (l: Line) => counts(TaxKey(l.rate.taxType)) }
  function ProductHas(key: int): Line -> bool { (l: Line) => TaxedAt(l.taxType, key) }

  /** Booked under a rate of this key, of a product that has another key now; and the other way round. */
  function LeftKey(key: int): Line -> bool
  {
    (l: Line) => TaxedAt(l.rate.taxType, key) && !TaxedAt(l.taxType, key)
  }

  function JoinedKey(key: int): Line -> bool
  {
    (l: Line) => !TaxedAt(l.rate.taxType, key) && TaxedAt(l.taxType, key)
  }

  function RatesTotal(rates: seq<TaxRate>, lines: seq<Line>, counts: int -> bool, part: Line -> real): real
  {
    if rates == [] then 0.0
    else
      var rate := rates[|rates| - 1];
      RatesTotal(rates[..|rates| - 1], lines, counts, part)
      + (if counts(TaxKey(rate.taxType)) then RateSum(lines, rate, part) else 0.0)
  }

  ghost predicate DistinctRates(rates: seq<TaxRate>) { forall i, j :: 0 <= i < j < |rates| ==> rates[i] != rates[j] }

  /** One more line counts in the one group of its rate. */
  lemma {:induction false} OneMoreLine(rates: seq<TaxRate>, lines: seq<Line>, counts: int -> bool, part: Line -> real)
    requires DistinctRates(rates) && lines != []
    ensures var line := lines[|lines| - 1];
            RatesTotal(rates, lines, counts, part)
            == RatesTotal(rates, lines[..|lines| - 1], counts, part)
               + (if line.rate in rates && counts(TaxKey(line.rate.taxType)) then part(line) else 0.0)
  {
    hide TaxKey;
    if rates != [] {
      OneMoreLine(rates[..|rates| - 1], lines, counts, part);
    }
  }

  lemma {:induction false} NoLines(rates: seq<TaxRate>, counts: int -> bool, part: Line -> real)
    ensures RatesTotal(rates, [], counts, part) == 0.0
  {
    if rates != [] {
      NoLines(rates[..|rates| - 1], counts, part);
    }
  }

  lemma {:induction false} GroupsCoverLines(rates: seq<TaxRate>, lines: seq<Line>, counts: int -> bool, part: Line -> real)
    requires DistinctRates(rates) && forall i :: 0 <= i < |lines| ==> lines[i].rate in rates
    ensures RatesTotal(rates, lines, counts, part) == Picked(lines, RateCounts(counts), part)
  {
    hide TaxKey;
    if lines == [] {
      NoLines(rates, counts, part);
    } else {
      GroupsCoverLines(rates, lines[..|lines| - 1], counts, part);
      OneMoreLine(rates, lines, counts, part);
      assert lines[|lines| - 1].rate in rates;
    }
  }

  lemma {:induction false} NetAndTax(lines: seq<Line>, rate: TaxRate)
    ensures RateSum(lines, rate, NetPart()) + RateSum(lines, rate, TaxPart()) == RateSum(lines, rate, GrossPart())
  {
    if lines != [] {
      NetAndTax(lines[..|lines| - 1], rate);
    }
  }

  predicate VatAddsUp(rows: seq<BonkopfUst>)
  {
    forall i :: 0 <= i < |rows| ==> rows[i].net + rows[i].tax == rows[i].gross
  }

  lemma {:induction false} AddVatRows(before: seq<BonkopfUst>, o: Order, rates: seq<TaxRate>, counts: int -> bool)
    ensures VatTotal(before + VatRows(o, rates), counts) == VatTotal(before, counts) + RatesTotal(rates, o.lines, counts, GrossPart())
    ensures VatTax(before + VatRows(o, rates), counts) == VatTax(before, counts) + RatesTotal(rates, o.lines, counts, TaxPart())
    ensures VatAddsUp(before) ==> VatAddsUp(before + VatRows(o, rates))
  {
    hide RateSum, TaxKey;
    var more := VatRows(o, rates);
    if rates == [] {
      assert before + more == before;
    } else {
      var front := rates[..|rates| - 1];
      AddVatRows(before, o, front, counts);
      assert (before + more)[..|before + more| - 1] == before + VatRows(o, front);
      NetAndTax(o.lines, rates[|rates| - 1]);
    }
  }

  /** The groups of an order sum to its lines, gross and tax, in whatever order the database returns them. */
  lemma VatOfOrder(before: seq<BonkopfUst>, o: Order, rates: seq<TaxRate>, counts: int -> bool)
    requires DistinctRates(rates) && forall i :: 0 <= i < |o.lines| ==> o.lines[i].rate in rates
    ensures VatTotal(before + VatRows(o, rates), counts)
            == VatTotal(before, counts) + Picked(o.lines, RateCounts(counts), GrossPart())
    ensures VatTax(before + VatRows(o, rates), counts)
            == VatTax(before, counts) + Picked(o.lines, RateCounts(counts), TaxPart())
  {
    AddVatRows(before, o, rates, counts);
    GroupsCoverLines(rates, o.lines, counts, GrossPart());
    GroupsCoverLines(rates, o.lines, counts, TaxPart());
  }

  lemma {:induction false} VatIsLines(orders: seq<Order>, counts: int -> bool)
    ensures VatTotal(AllVatRows(orders), counts) == PickedTotal(orders, RateCounts(counts), GrossPart())
    ensures VatTax(AllVatRows(orders), counts) == PickedTotal(orders, RateCounts(counts), TaxPart())
    ensures VatAddsUp(AllVatRows(orders))
  {
    hide VatRows, RatesOf, Picked, RateCounts;
    if orders != [] {
      var front, o := orders[..|orders| - 1], orders[|orders| - 1];
      VatIsLines(front, counts);
      if Unsigned(o) {
        assert AllVatRows(front) + [] == AllVatRows(front);
      } else {
        VatOfOrder(AllVatRows(front), o, RatesOf(o.lines), counts);
        AddVatRows(AllVatRows(front), o, RatesOf(o.lines), counts);
      }
    }
  }

  lemma {:induction false} AddPositions(rows: seq<BonposUst>, o: Order, lines: seq<Line>, key: int)
    ensures PositionKeyTotal(rows + Positions(o, lines), key)
            == PositionKeyTotal(rows, key) + Picked(lines, ProductHas(key), GrossPart())
  {
    hide TaxKey, TaxedAt;
    var more := Positions(o, lines);
    if lines == [] {
      assert rows + more == rows;
    } else {
      var front := lines[..|lines| - 1];
      AddPositions(rows, o, front, key);
      assert (rows + more)[..|rows + more| - 1] == rows + Positions(o, front);
      KeyIsOwn(lines[|lines| - 1].taxType, key);
    }
  }

  lemma {:induction false} PositionsAreLines(orders: seq<Order>, key: int)
    ensures PositionKeyTotal(AllPositions(orders), key) == PickedTotal(orders, ProductHas(key), GrossPart())
  {
    hide Positions, Picked, ProductHas;
    if orders != [] {
      var front, o := orders[..|orders| - 1], orders[|orders| - 1];
      PositionsAreLines(front, key);
      if Unsigned(o) {
        assert AllPositions(front) + [] == AllPositions(front);
      } else {
        AddPositions(AllPositions(front), o, o.lines, key);
      }
    }
  }

  lemma {:induction false} LinesByKey(lines: seq<Line>, key: int)
    ensures Picked(lines, RateCounts(OnlyKey(key)), GrossPart()) + Picked(lines, JoinedKey(key), GrossPart())
            == Picked(lines, ProductHas(key), GrossPart()) + Picked(lines, LeftKey(key), GrossPart())
    ensures Picked(lines, RateCounts(AnyKey()), GrossPart()) == Gross(lines)
    ensures Picked(lines, RateCounts(AnyKey()), TaxPart()) == Tax(lines)
  {
    hide TaxKey, TaxedAt;
    if lines != [] {
      LinesByKey(lines[..|lines| - 1], key);
      KeyIsOwn(lines[|lines| - 1].rate.taxType, key);
    }
  }

  lemma {:induction false} OrdersByKey(orders: seq<Order>, key: int)
    ensures PickedTotal(orders, RateCounts(OnlyKey(key)), GrossPart()) + PickedTotal(orders, JoinedKey(key), GrossPart())
            == PickedTotal(orders, ProductHas(key), GrossPart()) + PickedTotal(orders, LeftKey(key), GrossPart())
    ensures PickedTotal(orders, RateCounts(AnyKey()), GrossPart()) == Total(orders, Exported())
    ensures PickedTotal(orders, RateCounts(AnyKey()), TaxPart()) == TaxTotal(orders)
  {
    hide Picked, Gross, Tax, RateCounts, JoinedKey, LeftKey, ProductHas, AnyKey, OnlyKey, GrossPart, TaxPart;
    if orders != [] {
      OrdersByKey(orders[..|orders| - 1], key);
      LinesByKey(orders[|orders| - 1].lines, key);
    }
  }

  /** The breakdown per order takes the tax type from the rate of the line, the one per line from the product
      as it is now: for a tax key the two agree if and only if as much was sold under the key by products that
      have another one now as the other way round. Over all keys they always agree, in money and in tax. */
  lemma BreakdownsAgree(orders: seq<Order>, key: int)
    ensures VatTotal(AllVatRows(orders), AnyKey()) == PositionTotal(AllPositions(orders))
    ensures VatTax(AllVatRows(orders), AnyKey()) == PositionTax(AllPositions(orders))
    ensures VatAddsUp(AllVatRows(orders))
    ensures VatTotal(AllVatRows(orders), OnlyKey(key)) == PositionKeyTotal(AllPositions(orders), key)
            <==> PickedTotal(orders, LeftKey(key), GrossPart()) == PickedTotal(orders, JoinedKey(key), GrossPart())
  {
    hide AllVatRows, AllPositions, PickedTotal, VatTotal, VatTax, PositionTotal, PositionKeyTotal, PositionTax;
    VatIsLines(orders, AnyKey());
    VatIsLines(orders, OnlyKey(key));
    PositionsAreLines(orders, key);
    OrdersByKey(orders, key);
    RecordsTotal(orders);
  }

  // ---- deposits ----------------------------------------------------------------------

  /** Lines of returnable products in exported sales. */
  function DepositGross(orderType: OrderType, lines: seq<Line>, key: int): real
  {
    if lines == [] then 0.0
    else
      var line := lines[|lines| - 1];
      DepositGross(orderType, lines[..|lines| - 1], key)
      + (if orderType.Sale? && line.returnable && TaxedAt(line.taxType, key) then line.gross else 0.0)
  }

  function DepositTotal(orders: seq<Order>, key: int): real
  {
    if orders == [] then 0.0
    else
      var o := orders[|orders| - 1];
      DepositTotal(orders[..|orders| - 1], key) + (if Closed(o) then DepositGross(o.orderType, o.lines, key) else 0.0)
  }

  lemma {:induction false} DepositsOfOrder(orderType: OrderType, lines: seq<Line>, key: int)
    ensures var taken, returned := SlotSum(Slot(Pfand, key), orderType, lines, GrossPart()),
                                   SlotSum(Slot(PfandRueckzahlung, key), orderType, lines, GrossPart());
            taken >= 0.0 >= returned && taken + returned == DepositGross(orderType, lines, key)
  {
    hide TaxedAt;
    if lines != [] {
      DepositsOfOrder(orderType, lines[..|lines| - 1], key);
    }
  }

  lemma {:induction false} DepositsOfOrders(orders: seq<Order>, key: int)
    ensures var taken, returned := SlotTotal(Slot(Pfand, key), orders, GrossPart()),
                                   SlotTotal(Slot(PfandRueckzahlung, key), orders, GrossPart());
            taken >= 0.0 >= returned && taken + returned == DepositTotal(orders, key)
  {
    hide SlotSum, DepositGross;
    if orders != [] {
      var o := orders[|orders| - 1];
      DepositsOfOrders(orders[..|orders| - 1], key);
      DepositsOfOrder(o.orderType, o.lines, key);
    }
  }

  /** Deposits taken are never negative and deposits paid back never positive, and together they are the
      balance of everything returnable: no deposit is netted away inside a business case or lost between them. */
  lemma DepositsAreSeparate(orders: seq<Order>, key: int)
    requires AllMapped(orders)
    ensures BookOrders(EmptyTotals(), orders).Some?
    ensures var totals := BookOrders(EmptyTotals(), orders).value;
            var taken, returned := BucketAt(totals, Slot(Pfand, key)).gross, BucketAt(totals, Slot(PfandRueckzahlung, key)).gross;
            taken >= 0.0 >= returned && taken + returned == DepositTotal(orders, key)
  {
    hide EmptyTotals, BookOrders, BucketAt, SlotTotal, DepositTotal, AllMapped;
    CaseIsItsLines(orders, Slot(Pfand, key));
    CaseIsItsLines(orders, Slot(PfandRueckzahlung, key));
    DepositsOfOrders(orders, key);
  }

  // ---- the business cases as they are written out ------------------------------------

  ghost predicate OwnSlots(totals: seq<Entry>)
  {
    forall i, j :: 0 <= i < j < |totals| ==> totals[i].slot != totals[j].slot
  }

  lemma {:induction false} RowsOfTypes(types: seq<GvTyp>)
    requires forall i, j :: 0 <= i < j < |types| ==> types[i] != types[j]
    ensures OwnSlots(EmptyRows(types))
    ensures forall i :: 0 <= i < |EmptyRows(types)| ==> EmptyRows(types)[i].slot.gvTyp in types
  {
    if types != [] {
      RowsOfTypes(types[1..]);
      var row, rest := EmptyRow(types[0]), EmptyRows(types[1..]);
      var all: seq<Entry> := row + rest;
      forall i, j | 0 <= i < j < |all| ensures all[i].slot != all[j].slot {
        if i < |row| <= j {
          assert rest[j - |row|].slot.gvTyp in types[1..];
        }
      }
    }
  }

  lemma {:induction false} BucketOfEntry(totals: seq<Entry>, i: nat)
    requires OwnSlots(totals) && i < |totals|
    ensures BucketAt(totals, totals[i].slot) == totals[i].bucket
  {
    if i > 0 {
      BucketOfEntry(totals[1..], i - 1);
    }
  }

  lemma {:induction false} NoBucket(totals: seq<Entry>, slot: Slot)
    requires !HasSlot(totals, slot)
    ensures BucketAt(totals, slot) == EMPTY
  {
    if totals != [] {
      assert forall i :: 0 <= i < |totals[1..]| ==> totals[1..][i] == totals[i + 1];
      NoBucket(totals[1..], slot);
    }
  }

  ghost predicate RowFor(rows: seq<ZGvTyp>, slot: Slot)
  {
    exists k :: 0 <= k < |rows| && Slot(rows[k].gvTyp, rows[k].taxKey) == slot
  }

  lemma {:induction false} WrittenRows(totals: seq<Entry>)
    requires OwnSlots(totals)
    ensures var rows := BusinessCases(totals);
            && (forall k :: 0 <= k < |rows| ==>
                  var bucket := BucketAt(totals, Slot(rows[k].gvTyp, rows[k].taxKey));
                  Bucket(rows[k].gross, rows[k].net, rows[k].tax) == bucket && bucket.gross != 0.0)
            && (forall i :: 0 <= i < |totals| && totals[i].bucket.gross != 0.0 ==> RowFor(rows, totals[i].slot))
            && (forall k :: 0 <= k < |rows| ==> HasSlot(totals, Slot(rows[k].gvTyp, rows[k].taxKey)))
            && (forall k, l :: 0 <= k < l < |rows| ==>
                  Slot(rows[k].gvTyp, rows[k].taxKey) != Slot(rows[l].gvTyp, rows[l].taxKey))
  {
    hide BucketAt;
    if totals != [] {
      var n := |totals| - 1;
      var front, e := totals[..n], totals[n];
      WrittenRows(front);
      var before, rows := BusinessCases(front), BusinessCases(totals);
      assert e.bucket.gross == 0.0 ==> rows == before;
      assert forall k :: 0 <= k < |before| ==> rows[k] == before[k];
      BucketOfEntry(totals, n);
      forall k | 0 <= k < |before|
        ensures var slot := Slot(before[k].gvTyp, before[k].taxKey);
                slot != e.slot && HasSlot(totals, slot) && BucketAt(totals, slot) == BucketAt(front, slot)
      {
        var slot := Slot(before[k].gvTyp, before[k].taxKey);
        var i :| 0 <= i < |front| && front[i].slot == slot;
        BucketOfEntry(front, i);
        BucketOfEntry(totals, i);
        assert totals[i].slot == slot;
      }
      forall i | 0 <= i < |totals| && totals[i].bucket.gross != 0.0 ensures RowFor(rows, totals[i].slot) {
        if i < n {
          assert front[i] == totals[i];
          var k :| 0 <= k < |before| && Slot(before[k].gvTyp, before[k].taxKey) == totals[i].slot;
          assert rows[k] == before[k];
        } else {
          assert Slot(rows[|rows| - 1].gvTyp, rows[|rows| - 1].taxKey) == e.slot;
        }
      }
    }
  }

  /** businesscases.csv: a business case and tax key has one record if the exported lines that belong to it do
      not sum to zero, and none otherwise; the record holds their gross, net and tax sums. */
  lemma CasesAreWritten(orders: seq<Order>, slot: Slot)
    requires AllMapped(orders)
    ensures BookOrders(EmptyTotals(), orders).Some?
    ensures var rows := BusinessCases(BookOrders(EmptyTotals(), orders).value);
            && (RowFor(rows, slot) <==> SlotTotal(slot, orders, GrossPart()) != 0.0)
            && (forall k :: 0 <= k < |rows| && Slot(rows[k].gvTyp, rows[k].taxKey) == slot ==>
                  && rows[k].gross == SlotTotal(slot, orders, GrossPart())
                  && rows[k].net == SlotTotal(slot, orders, NetPart())
                  && rows[k].tax == SlotTotal(slot, orders, TaxPart()))
            && (forall k, l :: 0 <= k < l < |rows| ==>
                  Slot(rows[k].gvTyp, rows[k].taxKey) != Slot(rows[l].gvTyp, rows[l].taxKey))
  {
    hide EmptyTotals, BookOrders, BucketAt, SlotTotal, BusinessCases, AllMapped;
    CaseIsItsLines(orders, slot);
    BookOrdersAdds(orders, slot);
    var totals := BookOrders(EmptyTotals(), orders).value;
    CompleteIsOwn(totals);
    WrittenRows(totals);
    if HasSlot(totals, slot) {
      var i :| 0 <= i < |totals| && totals[i].slot == slot;
      BucketOfEntry(totals, i);
    } else {
      NoBucket(totals, slot);
    }
  }

  lemma CompleteIsOwn(totals: seq<Entry>)
    requires Complete(totals)
    ensures OwnSlots(totals)
  {
    hide EmptyRows;
    RowsOfTypes(GV_TYPES);
  }

  function CaseTax(rows: seq<ZGvTyp>): real
  {
    if rows == [] then 0.0 else CaseTax(rows[..|rows| - 1]) + rows[|rows| - 1].tax
  }

  function TaxOf(totals: seq<Entry>): real
  {
    if totals == [] then 0.0 else TaxOf(totals[..|totals| - 1]) + totals[|totals| - 1].bucket.tax
  }

  /** Tax of the business cases and tax keys whose gross total is zero. */
  function TaxOfEmpty(totals: seq<Entry>): real
  {
    if totals == [] then 0.0
    else
      var b := totals[|totals| - 1].bucket;
      TaxOfEmpty(totals[..|totals| - 1]) + (if b.gross == 0.0 then b.tax else 0.0)
  }

  lemma {:induction false} CaseTaxSplits(totals: seq<Entry>)
    ensures CaseTax(BusinessCases(totals)) + TaxOfEmpty(totals) == TaxOf(totals)
  {
    if totals != [] {
      var front, e := totals[..|totals| - 1], totals[|totals| - 1];
      CaseTaxSplits(front);
      var all := BusinessCases(totals);
      if e.bucket.gross != 0.0 {
        assert all[..|all| - 1] == BusinessCases(front);
      } else {
        assert all == BusinessCases(front);
      }
    }
  }

  lemma {:induction false} BookAddsTax(totals: seq<Entry>, slot: Slot, line: Line)
    requires HasSlot(totals, slot)
    ensures TaxOf(Book(totals, slot, line)) == TaxOf(totals) + line.tax
  {
    hide HasSlot;
    SlotSomewhere(totals, slot);
    TaxOfRest(totals);
    TaxOfRest(Book(totals, slot, line));
    if totals[0].slot == slot {
      assert Book(totals, slot, line)[1..] == totals[1..];
    } else {
      BookAddsTax(totals[1..], slot, line);
      assert Book(totals, slot, line)[1..] == Book(totals[1..], slot, line);
    }
  }

  lemma SlotSomewhere(totals: seq<Entry>, slot: Slot)
    requires HasSlot(totals, slot)
    ensures totals != [] && (totals[0].slot == slot || HasSlot(totals[1..], slot))
  {
    var i :| 0 <= i < |totals| && totals[i].slot == slot;
    if i > 0 {
      assert totals[1..][i - 1].slot == slot;
    }
  }

  lemma {:induction false} TaxOfRest(totals: seq<Entry>)
    ensures totals != [] ==> TaxOf(totals) == totals[0].bucket.tax + TaxOf(totals[1..])
  {
    if |totals| > 1 {
      var front := totals[..|totals| - 1];
      TaxOfRest(front);
      assert totals[1..][..|totals| - 2] == front[1..];
    }
  }

  lemma {:induction false} BookLinesTax(totals: seq<Entry>, orderType: OrderType, lines: seq<Line>)
    requires Complete(totals) && BookLines(totals, orderType, lines).Some?
    ensures TaxOf(BookLines(totals, orderType, lines).value) == TaxOf(totals) + Tax(lines)
  {
    hide EmptyTotals, TaxOf, SlotOf, Book, HasSlot;
    if lines != [] {
      var front, line := lines[..|lines| - 1], lines[|lines| - 1];
      BookLinesAdds(totals, orderType, front, Slot(Umsatz, 1));
      BookLinesTax(totals, orderType, front);
      SlotExists(orderType, line);
      var before := BookLines(totals, orderType, front).value;
      SameSlots(EmptyTotals(), before, SlotOf(orderType, line).value);
      BookAddsTax(before, SlotOf(orderType, line).value, line);
    }
  }

  lemma {:induction false} EmptyHasNoTax(totals: seq<Entry>)
    requires AllEmpty(totals)
    ensures TaxOf(totals) == 0.0
  {
    if totals != [] {
      EmptyHasNoTax(totals[..|totals| - 1]);
    }
  }

  lemma {:induction false} BookOrdersTax(orders: seq<Order>)
    requires BookOrders(EmptyTotals(), orders).Some?
    ensures TaxOf(BookOrders(EmptyTotals(), orders).value) == TaxTotal(orders)
  {
    hide EmptyTotals, TaxOf, BookLines, Tax, CaseOf;
    if orders == [] {
      NoTotals();
      EmptyHasNoTax(EmptyTotals());
    } else {
      var front, o := orders[..|orders| - 1], orders[|orders| - 1];
      BookOrdersTax(front);
      BookOrdersAdds(front, Slot(Umsatz, 1));
      if Closed(o) {
        BookLinesTax(BookOrders(EmptyTotals(), front).value, o.orderType, o.lines);
      }
    }
  }

  /** A business case is left out when its gross total is zero, whatever its tax: the tax in businesscases.csv is
      that of the exported lines if and only if the cases left out have no tax between them. */
  lemma TaxOfCases(orders: seq<Order>)
    requires AllMapped(orders)
    ensures BookOrders(EmptyTotals(), orders).Some?
    ensures var totals := BookOrders(EmptyTotals(), orders).value;
            && CaseTax(BusinessCases(totals)) + TaxOfEmpty(totals) == PositionTax(AllPositions(orders))
            && (CaseTax(BusinessCases(totals)) == PositionTax(AllPositions(orders)) <==> TaxOfEmpty(totals) == 0.0)
  {
    hide BookOrders, BusinessCases, TaxOfEmpty, TaxOf, CaseOf;
    BookOrdersAdds(orders, Slot(Umsatz, 1));
    BookOrdersTax(orders);
    RecordsTotal(orders);
    CaseTaxSplits(BookOrders(EmptyTotals(), orders).value);
  }

  /** One line sold at one rate and the same amount given back at another of the same tax type: the business case
      is left out, and two of tax with it. */
  lemma TaxLeftOut() returns (orders: seq<Order>)
    ensures AllMapped(orders) && OwnIds(orders) && BookOrders(EmptyTotals(), orders).Some?
    ensures forall slot :: !RowFor(BusinessCases(BookOrders(EmptyTotals(), orders).value), slot)
    ensures BusinessCases(BookOrders(EmptyTotals(), orders).value) == []
    ensures PositionTax(AllPositions(orders)) == 2.0
  {
    hide EmptyTotals, BookOrders, BusinessCases, AllPositions, PositionTax;
    var sold := Line(OtherProduct, false, RegularVat, TaxRate("ust", 0.19, RegularVat), 119.0, 19.0);
    var back := Line(OtherProduct, false, RegularVat, TaxRate("ust_16", 0.16, RegularVat), -119.0, -17.0);
    var o := Order(1, Sale, Tag, Done, [sold, back]);
    orders := [o];
    OneOrder(o);
    forall slot ensures SlotTotal(slot, orders, GrossPart()) == 0.0 {
      TwoLines(slot, sold, back);
    }
    TwoLines(Slot(Umsatz, 1), sold, back);
    RecordsTotal(orders);
    CasesAreWritten(orders, Slot(Umsatz, 1));
    var rows := BusinessCases(BookOrders(EmptyTotals(), orders).value);
    forall slot ensures !RowFor(rows, slot) {
      CasesAreWritten(orders, slot);
    }
    assert rows != [] ==> RowFor(rows, Slot(rows[0].gvTyp, rows[0].taxKey));
  }

  lemma OneOrder(o: Order)
    ensures forall slot :: SlotTotal(slot, [o], GrossPart()) == if Closed(o) then SlotSum(slot, o.orderType, o.lines, GrossPart()) else 0.0
    ensures TaxTotal([o]) == if Closed(o) then Tax(o.lines) else 0.0
  {
    assert [o][..0] == [];
    assert TaxTotal([]) == 0.0;
    assert forall slot :: SlotTotal(slot, [], GrossPart()) == 0.0;
  }

  lemma TwoLines(slot: Slot, a: Line, b: Line)
    ensures Tax([a, b]) == a.tax + b.tax
    ensures SlotSum(slot, Sale, [a, b], GrossPart())
            == (if Belongs(slot, Sale, a) then a.gross else 0.0) + (if Belongs(slot, Sale, b) then b.gross else 0.0)
  {
    hide Belongs;
    assert [a, b][..1] == [a] && [a][..0] == [];
    assert Tax([a]) == a.tax;
    assert SlotSum(slot, Sale, [a], GrossPart()) == if Belongs(slot, Sale, a) then a.gross else 0.0;
  }

  // ---- the records of one order ------------------------------------------------------

  ghost predicate OwnIds(orders: seq<Order>) { forall i, j :: 0 <= i < j < |orders| ==> orders[i].id != orders[j].id }

  function PositionsOf(rows: seq<BonposUst>, id: nat): seq<BonposUst>
  {
    if rows == [] then []
    else
      var row := rows[|rows| - 1];
      PositionsOf(rows[..|rows| - 1], id) + (if row.bonId == id then [row] else [])
  }

  function PaymentsOf(rows: seq<BonkopfZahlart>, id: nat): seq<BonkopfZahlart>
  {
    if rows == [] then []
    else
      var row := rows[|rows| - 1];
      PaymentsOf(rows[..|rows| - 1], id) + (if row.bonId == id then [row] else [])
  }

  function VatOf(rows: seq<BonkopfUst>, id: nat): seq<BonkopfUst>
  {
    if rows == [] then []
    else
      var row := rows[|rows| - 1];
      VatOf(rows[..|rows| - 1], id) + (if row.bonId == id then [row] else [])
  }

  lemma {:induction false} PositionsOfMore(rows: seq<BonposUst>, o: Order, lines: seq<Line>, id: nat)
    ensures PositionsOf(rows + Positions(o, lines), id)
            == PositionsOf(rows, id) + (if o.id == id then Positions(o, lines) else [])
  {
    var more := Positions(o, lines);
    if lines == [] {
      assert rows + more == rows;
    } else {
      var front := lines[..|lines| - 1];
      PositionsOfMore(rows, o, front, id);
      assert (rows + more)[..|rows + more| - 1] == rows + Positions(o, front);
      assert more == Positions(o, front) + [PositionOf(o, lines[|lines| - 1])];
    }
  }

  lemma {:induction false} VatOfMore(rows: seq<BonkopfUst>, o: Order, rates: seq<TaxRate>, id: nat)
    ensures VatOf(rows + VatRows(o, rates), id) == VatOf(rows, id) + (if o.id == id then VatRows(o, rates) else [])
  {
    hide RateSum, TaxKey;
    var more := VatRows(o, rates);
    if rates == [] {
      assert rows + more == rows;
    } else {
      var front := rates[..|rates| - 1];
      VatOfMore(rows, o, front, id);
      assert (rows + more)[..|rows + more| - 1] == rows + VatRows(o, front);
    }
  }

  lemma OneMoreOrder(orders: seq<Order>, id: nat)
    requires orders != []
    ensures var front, o := orders[..|orders| - 1], orders[|orders| - 1];
            var own := Closed(o) && o.id == id;
            && PositionsOf(AllPositions(orders), id)
               == PositionsOf(AllPositions(front), id) + (if own then Positions(o, o.lines) else [])
            && VatOf(AllVatRows(orders), id) == VatOf(AllVatRows(front), id) + (if own then VatRows(o, RatesOf(o.lines)) else [])
  {
    hide Positions, VatRows, RatesOf, PositionsOf, VatOf;
    var front, o := orders[..|orders| - 1], orders[|orders| - 1];
    if Closed(o) {
      PositionsOfMore(AllPositions(front), o, o.lines, id);
      VatOfMore(AllVatRows(front), o, RatesOf(o.lines), id);
    } else {
      assert AllPositions(orders) == AllPositions(front) && AllVatRows(orders) == AllVatRows(front);
    }
  }

  lemma OneMorePayment(orders: seq<Order>, id: nat)
    requires orders != []
    ensures var front, o := orders[..|orders| - 1], orders[|orders| - 1];
            PaymentsOf(AllPayments(orders), id)
            == PaymentsOf(AllPayments(front), id)
               + (if Closed(o) && o.id == id then [BonkopfZahlart(id, o.paymentMethod, Gross(o.lines))] else [])
  {
    hide Gross;
    var front, o, payments := orders[..|orders| - 1], orders[|orders| - 1], AllPayments(orders);
    if Closed(o) {
      assert payments[..|payments| - 1] == AllPayments(front);
    } else {
      assert payments == AllPayments(front);
    }
  }

  lemma {:induction false} NoRecords(orders: seq<Order>, id: nat)
    requires forall i :: 0 <= i < |orders| && Closed(orders[i]) ==> orders[i].id != id
    ensures PositionsOf(AllPositions(orders), id) == [] && PaymentsOf(AllPayments(orders), id) == []
    ensures VatOf(AllVatRows(orders), id) == []
  {
    hide Positions, VatRows, RatesOf, Gross;
    if orders != [] {
      OneMoreOrder(orders, id);
      OneMorePayment(orders, id);
      hide PositionsOf, PaymentsOf, VatOf, AllPositions, AllPayments, AllVatRows, Closed;
      NoRecords(orders[..|orders| - 1], id);
    }
  }

  lemma {:induction false} RecordsOfBon(orders: seq<Order>, k: nat)
    requires OwnIds(orders) && k < |orders| && Closed(orders[k])
    ensures var o := orders[k];
            && PositionsOf(AllPositions(orders), o.id) == Positions(o, o.lines)
            && PaymentsOf(AllPayments(orders), o.id) == [BonkopfZahlart(o.id, o.paymentMethod, Gross(o.lines))]
            && VatOf(AllVatRows(orders), o.id) == VatRows(o, RatesOf(o.lines))
  {
    hide Positions, VatRows, RatesOf, Gross;
    var front := orders[..|orders| - 1];
    OneMoreOrder(orders, orders[k].id);
    OneMorePayment(orders, orders[k].id);
    hide PositionsOf, PaymentsOf, VatOf, AllPositions, AllPayments, AllVatRows, Closed;
    if k < |front| {
      assert front[k] == orders[k];
      RecordsOfBon(front, k);
    } else {
      NoRecords(front, orders[k].id);
    }
  }

  /** In the exported files an order's number finds its payment, one position for each of its lines in their
      order, and a tax breakdown of the same gross sum and tax; an order not yet signed has none of these. */
  lemma RecordsOfOrder(orders: seq<Order>, o: Order)
    requires OwnIds(orders) && o in orders
    ensures var positions := PositionsOf(AllPositions(orders), o.id);
            if Closed(o)
            then
              && PaymentsOf(AllPayments(orders), o.id) == [BonkopfZahlart(o.id, o.paymentMethod, Gross(o.lines))]
              && |positions| == |o.lines|
              && (forall j :: 0 <= j < |o.lines| ==>
                    var row, line := positions[j], o.lines[j];
                    && TaxedAt(line.taxType, row.taxKey) && row.gross == line.gross && row.tax == line.tax
                    && row.net == line.gross - line.tax)
              && VatTotal(VatOf(AllVatRows(orders), o.id), AnyKey()) == Gross(o.lines)
              && VatTax(VatOf(AllVatRows(orders), o.id), AnyKey()) == Tax(o.lines)
              && VatAddsUp(VatOf(AllVatRows(orders), o.id))
            else positions == [] && PaymentsOf(AllPayments(orders), o.id) == [] && VatOf(AllVatRows(orders), o.id) == []
  {
    hide VatRows, RatesOf, Gross, Tax, Picked, AllPositions, AllPayments, AllVatRows, VatTotal, VatTax;
    var k :| 0 <= k < |orders| && orders[k] == o;
    if Closed(o) {
      RecordsOfBon(orders, k);
      VatOfOne(o);
    } else {
      NoRecords(orders, o.id);
    }
  }

  lemma VatOfOne(o: Order)
    ensures VatTotal(VatRows(o, RatesOf(o.lines)), AnyKey()) == Gross(o.lines)
    ensures VatTax(VatRows(o, RatesOf(o.lines)), AnyKey()) == Tax(o.lines)
    ensures VatAddsUp(VatRows(o, RatesOf(o.lines)))
  {
    hide VatRows, RatesOf, Gross, Tax, Picked;
    var rows := VatRows(o, RatesOf(o.lines));
    VatOfOrder([], o, RatesOf(o.lines), AnyKey());
    AddVatRows([], o, RatesOf(o.lines), AnyKey());
    LinesByKey(o.lines, 1);
    assert [] + rows == rows;
  }

  // ---- the certificate of the TSE ----------------------------------------------------

  const CHUNK_SIZE := 1000
  const MAX_CHUNKS := 5

  function Min(a: nat, b: nat): nat { if a < b then a else b }

  /** certificate[start:end] for the given chunk; past the end it is empty. */
  function Chunk(certificate: string, index: nat): string
  {
    certificate[Min(index * CHUNK_SIZE, |certificate|)..Min((index + 1) * CHUNK_SIZE, |certificate|)]
  }

  /** The five columns; None is the error for a certificate that does not fit. */
  function Chunks(certificate: string): Option<seq<string>>
  {
    if |certificate| > CHUNK_SIZE * MAX_CHUNKS then None
    else Some([Chunk(certificate, 0), Chunk(certificate, 1), Chunk(certificate, 2), Chunk(certificate, 3),
               Chunk(certificate, 4)])
  }

  function Concat(parts: seq<string>): string { if parts == [] then "" else parts[0] + Concat(parts[1..]) }

  /** The columns put together are the certificate, and no column is longer than its limit. */
  lemma ChunksJoin(certificate: string)
    ensures Chunks(certificate).Some? <==> |certificate| <= 5000
    ensures Chunks(certificate).Some? ==>
              var columns := Chunks(certificate).value;
              && Concat(columns) == certificate && |columns| == 5
              && (forall i :: 0 <= i < 5 ==> |columns[i]| <= 1000)
              && (forall i :: 0 <= i < 4 && columns[i + 1] != "" ==> |columns[i]| == 1000)
  {
    if Chunks(certificate).None? {
      return;
    }
    var c, n := certificate, |certificate|;
    FromChunk(c, 4);
    FromChunk(c, 3);
    FromChunk(c, 2);
    FromChunk(c, 1);
    FromChunk(c, 0);
    var parts := Chunks(c).value;
    assert parts[1..][1..][1..][1..] == [Chunk(c, 4)];
    assert Concat([Chunk(c, 4)]) == Chunk(c, 4) == c[Min(4000, n)..];
    assert Concat(parts[1..][1..][1..]) == c[Min(3000, n)..];
    assert Concat(parts[1..][1..]) == c[Min(2000, n)..];
    assert Concat(parts[1..]) == c[Min(1000, n)..];
  }

  lemma FromChunk(c: string, index: nat)
    ensures Chunk(c, index) + c[Min((index + 1) * CHUNK_SIZE, |c|)..] == c[Min(index * CHUNK_SIZE, |c|)..]
    ensures |Chunk(c, index)| <= CHUNK_SIZE
  {
  }
}
