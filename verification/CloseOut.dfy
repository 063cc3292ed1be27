/** Closing out a cashier: three money orders and a shift end that empty the register into the vault and
    put the difference between expected and counted cash on the imbalance account. */
module CloseOut {

  import opened Wrappers
  import opened Ledger

  datatype Cashier = Cashier(cashRegister: Option<int>, loggedIn: bool, shiftStart: Option<int>)

  datatype Refusal = UnknownCashier | NoCashRegister | LoggedIn | NoShift

  datatype Shift = Shift(cashier: int, startedAt: int, endedAt: int, actual: real, expected: real, closeOutOrder: nat,
                         imbalanceOrder: nat, cashRegister: int)

  /** The accounts and the till a close-out works on. */
  datatype Places = Places(register: nat, vault: nat, imbalance: nat, virtualTill: int)

  predicate PlacesKnown(p: Places, db: Db)
  {
    && p.register < |db.accounts| && p.vault < |db.accounts| && p.imbalance < |db.accounts|
    && p.register != p.vault && p.register != p.imbalance && p.vault != p.imbalance
    && p.virtualTill in db.tills
  }

  function Transfer(p: Places, uuid: int, register: int, now: int, amount: real, bookings: seq<Booking>): NewOrder
  {
    NewOrder(uuid, MoneyTransfer, true, Some(register), p.virtualTill, now, [LineItem(amount, 1)], bookings)
  }

  function StartOrder(p: Places, uuid: int, register: int, now: int, expected: real): NewOrder
  {
    Transfer(p, uuid, register, now, expected, [])
  }

  function VaultOrder(p: Places, uuid: int, register: int, now: int, actual: real): NewOrder
  {
    Transfer(p, uuid, register, now, -actual, [Booking(p.register, p.vault, actual)])
  }

  function ImbalanceOrder(p: Places, uuid: int, register: int, now: int, imbalance: real): NewOrder
  {
    NewOrder(uuid, MoneyTransferImbalance, true, Some(register), p.virtualTill, now, [LineItem(imbalance, 1)],
             [Booking(p.register, p.imbalance, -imbalance)])
  }

  function ShiftEndOrder(p: Places, uuid: int, register: int, now: int): NewOrder
  {
    NewOrder(uuid, CashierShiftEnd, true, Some(register), p.virtualTill, now, [], [])
  }

  // ---- the bookings ------------------------------------------------------------------

  /** A single booking as it is stored. */
  function Entry(orderId: nat, source: nat, target: nat, amount: real): Transaction
  {
    Directed(Transaction(Some(orderId), source, target, amount, 0))
  }

  /** A new order with at most one booking does what it says. */
  lemma SingleBooking(db: Db, n: NewOrder)
    requires n.till in db.tills && Find(db.orders, n.uuid).None? && |n.bookings| <= 1
    requires forall i :: 0 <= i < |n.bookings| ==>
               && n.bookings[i].source != n.bookings[i].target
               && n.bookings[i].source < |db.accounts| && n.bookings[i].target < |db.accounts|
    ensures Booked(db, n).Ok?
    ensures var ts := if n.bookings == [] then []
                      else [Entry(|db.orders|, n.bookings[0].source, n.bookings[0].target, n.bookings[0].amount)];
            && AllKnown(db.accounts, ts)
            && Booked(db, n).value == (Db(if ts == [] then db.accounts else Post(db.accounts, ts[0]), db.transactions + ts,
                                          db.orders + [OrderOf(n, db.tills[n.till])], db.tills),
                                       OrderInfo(|db.orders|, n.uuid, n.bookedAt))
  {
    hide Post, Directed, Opposed;
    BookAllSpec(db.accounts, |db.orders|, n.bookings);
    var (accounts, ts) := BookAll(db.accounts, |db.orders|, n.bookings).value;
    if n.bookings == [] {
      ReplayNothing(db.accounts);
      assert ts == [];
    } else {
      var entry := Entry(|db.orders|, n.bookings[0].source, n.bookings[0].target, n.bookings[0].amount);
      assert ts == [entry];
      ReplayAppend(db.accounts, [], entry);
      assert [] + [entry] == [entry];
      ReplayNothing(db.accounts);
    }
  }

  /** Where the money is after the register paid the counted cash to the vault and the rest to the imbalance
      account: the register is at exactly zero for all amounts, whichever direction they are booked in. */
  lemma RegisterIsEmptied(accounts: Accounts, p: Places, actual: real, first: nat, second: nat)
    requires p.register < |accounts| && p.vault < |accounts| && p.imbalance < |accounts|
    requires p.register != p.vault && p.register != p.imbalance && p.vault != p.imbalance
    ensures var expected := accounts[p.register].balance;
            var paid := Post(accounts, Entry(first, p.register, p.vault, actual));
            var settled := Post(paid, Entry(second, p.register, p.imbalance, -(actual - expected)));
            && settled[p.register].balance == 0.0
            && settled[p.vault].balance == Snap(accounts[p.vault].balance + actual)
            && settled[p.imbalance].balance == Snap(accounts[p.imbalance].balance + (expected - actual))
            && (forall k :: 0 <= k < |accounts| && k != p.register && k != p.vault && k != p.imbalance ==>
                  settled[k] == accounts[k])
            && forall k :: 0 <= k < |accounts| ==> settled[k].vouchers == accounts[k].vouchers
  {
    OneEntry(accounts, first, p.register, p.vault, actual);
    var expected := accounts[p.register].balance;
    var paid := Post(accounts, Entry(first, p.register, p.vault, actual));
    OneEntry(paid, second, p.register, p.imbalance, -(actual - expected));
  }

  /** Both directions of storing an entry have the same effect on the balances. */
  lemma OneEntry(accounts: Accounts, orderId: nat, source: nat, target: nat, amount: real)
    requires source < |accounts| && target < |accounts| && source != target
    ensures var entry := Entry(orderId, source, target, amount);
            && Known(accounts, entry)
            && Post(accounts, entry) == accounts[source := accounts[source].(balance := Snap(accounts[source].balance - amount))]
                                                [target := accounts[target].(balance := Snap(accounts[target].balance + amount))]
  {
  }

  /** Without roundings the vault gains exactly the counted cash and the imbalance account the difference. */
  lemma CentsCloseOut(accounts: Accounts, p: Places, actual: real)
    requires p.register < |accounts| && p.vault < |accounts| && p.imbalance < |accounts|
    requires AllCents(accounts) && Cents(actual)
    ensures Snap(accounts[p.vault].balance + actual) == accounts[p.vault].balance + actual
    ensures var difference := accounts[p.register].balance - actual;
            Snap(accounts[p.imbalance].balance + difference) == accounts[p.imbalance].balance + difference
  {
    var difference := accounts[p.register].balance - actual;
    CentsAdd(accounts[p.vault].balance, actual);
    CentsAreNotSnapped(accounts[p.vault].balance + actual);
    CentsAdd(accounts[p.register].balance, actual);
    CentsAdd(accounts[p.imbalance].balance, difference);
    CentsAreNotSnapped(accounts[p.imbalance].balance + difference);
  }

  // ---- the service -------------------------------------------------------------------

  class Cashiers {
    const db: Database
    const vault: nat
    const imbalance: nat
    const virtualTill: int
    const registerAccounts: map<int, nat>
    var cashiers: map<int, Cashier>
    var shifts: seq<Shift>

    constructor (db: Database, vault: nat, imbalance: nat, virtualTill: int, registerAccounts: map<int, nat>,
                 cashiers: map<int, Cashier>)
      ensures this.db == db && this.vault == vault && this.imbalance == imbalance && this.virtualTill == virtualTill
      ensures this.registerAccounts == registerAccounts && this.cashiers == cashiers && shifts == []
    {
      this.db, this.vault, this.imbalance, this.virtualTill := db, vault, imbalance, virtualTill;
      this.registerAccounts, this.cashiers, shifts := registerAccounts, cashiers, [];
    }

    function PlacesOf(register: int): Places
      requires register in registerAccounts
    {
      Places(registerAccounts[register], vault, imbalance, virtualTill)
    }

    /** The accounts of every register exist and are different from the vault and the imbalance account. */
    ghost predicate Valid()
      reads this, db
    {
      && (forall c :: c in cashiers && cashiers[c].cashRegister.Some? ==> cashiers[c].cashRegister.value in registerAccounts)
      && forall r :: r in registerAccounts ==> PlacesKnown(PlacesOf(r), db.View())
    }

    /** The reason to refuse, in the order of the checks. */
    function Refused(cashier: int): Option<Refusal>
      reads this
    {
      if cashier !in cashiers then Some(UnknownCashier)
      else if cashiers[cashier].cashRegister.None? then Some(NoCashRegister)
      else if cashiers[cashier].loggedIn then Some(LoggedIn)
      else if cashiers[cashier].shiftStart.None? then Some(NoShift)
      else None
    }

    method CloseOutCashier(cashier: int, actual: real, uuids: (int, int, int, int), now: int)
        returns (r: Result<real, Refusal>)
      requires Valid()
      requires uuids.0 != uuids.1 && uuids.0 != uuids.2 && uuids.0 != uuids.3
      requires uuids.1 != uuids.2 && uuids.1 != uuids.3 && uuids.2 != uuids.3
      requires forall o :: o in db.orders ==>
                 o.uuid != uuids.0 && o.uuid != uuids.1 && o.uuid != uuids.2 && o.uuid != uuids.3
      modifies this`cashiers, this`shifts, db
      ensures old(Refused(cashier)).Some? ==>
                && r == Err(old(Refused(cashier)).value)
                && db.View() == old(db.View()) && cashiers == old(cashiers) && shifts == old(shifts)
      ensures old(Refused(cashier)).None? ==>
                var register := old(cashiers[cashier].cashRegister.value);
                var p := PlacesOf(register);
                var before := old(db.View());
                var drawer := registerAccounts[register];
                var expected := before.accounts[drawer].balance;
                && r == Ok(actual - expected)
                // the money
                && |db.accounts| == |before.accounts|
                && db.accounts[drawer].balance == 0.0
                && db.accounts[vault].balance == Snap(before.accounts[vault].balance + actual)
                && db.accounts[imbalance].balance == Snap(before.accounts[imbalance].balance + (expected - actual))
                && (forall k :: 0 <= k < |db.accounts| && k != drawer && k != vault && k != imbalance ==>
                      db.accounts[k] == before.accounts[k])
                // the correcting update found nothing to correct
                && (forall opening :: Consistent(opening, before) ==> Consistent(opening, db.View()))
                // the orders: expected cash out, counted cash to the vault, the difference, the end of the shift
                && db.orders == before.orders + CloseOutOrders(p, register, uuids, now, expected, actual, before.tills)
                && db.tills == before.tills[virtualTill := before.tills[virtualTill] + 1]
                // the cashier
                && cashiers == old(cashiers)[cashier := old(cashiers)[cashier].(cashRegister := None)]
                && shifts == old(shifts)
                             + [Shift(cashier, old(cashiers[cashier].shiftStart.value), now, actual, expected,
                                      |before.orders| + 1, |before.orders| + 2, register)]
    {
      hide Booked, Post, Consistent, Snap, Entry;
      if cashier !in cashiers { return Err(UnknownCashier); }
      if cashiers[cashier].cashRegister.None? { return Err(NoCashRegister); }
      var register := cashiers[cashier].cashRegister.value;
      var p := PlacesOf(register);
      var expected := db.accounts[p.register].balance;
      if cashiers[cashier].loggedIn { return Err(LoggedIn); }
      if cashiers[cashier].shiftStart.None? { return Err(NoShift); }
      ghost var before := db.View();
      var difference := actual - expected;

      FourOrders(before, p, register, uuids, now, expected, actual);
      var start := db.BookOrder(StartOrder(p, uuids.0, register, now, expected));
      var toVault := db.BookOrder(VaultOrder(p, uuids.1, register, now, actual));
      var toImbalance := db.BookOrder(ImbalanceOrder(p, uuids.2, register, now, difference));
      var end := db.BookOrder(ShiftEndOrder(p, uuids.3, register, now));
      shifts := shifts + [Shift(cashier, cashiers[cashier].shiftStart.value, now, actual, expected, toVault.value.id,
                                toImbalance.value.id, register)];
      cashiers := cashiers[cashier := cashiers[cashier].(cashRegister := None)];
      db.tills := db.tills[virtualTill := db.tills[virtualTill] + 1];
      ghost var settled := db.accounts;
      db.accounts := db.accounts[p.register := db.accounts[p.register].(balance := 0.0)];
      assert db.accounts == settled;
      TillsDoNotMatter(before, db.View());
      r := Ok(difference);
    }
  }

  /** The rows the close-out leaves, all in the z_nr it closes. */
  function CloseOutOrders(p: Places, register: int, uuids: (int, int, int, int), now: int, expected: real, actual: real,
                          tills: map<int, int>): seq<Order>
    requires p.virtualTill in tills
  {
    var zNr := tills[p.virtualTill];
    [OrderOf(StartOrder(p, uuids.0, register, now, expected), zNr),
     OrderOf(VaultOrder(p, uuids.1, register, now, actual), zNr),
     OrderOf(ImbalanceOrder(p, uuids.2, register, now, actual - expected), zNr),
     OrderOf(ShiftEndOrder(p, uuids.3, register, now), zNr)]
  }

  /** The line items of the close-out cancel out: what leaves the register is what arrives elsewhere. Two money
      transfers, the difference and the end of the shift, all for the register, at the virtual till in the
      closing it is in, and at the same time. */
  lemma LinesCancel(p: Places, register: int, uuids: (int, int, int, int), now: int, expected: real, actual: real,
                    tills: map<int, int>)
    requires p.virtualTill in tills
    ensures var orders := CloseOutOrders(p, register, uuids, now, expected, actual, tills);
            && LineTotal(orders[0].lineItems) == expected
            && LineTotal(orders[0].lineItems) + LineTotal(orders[1].lineItems) + LineTotal(orders[2].lineItems) == 0.0
            && orders[3].lineItems == []
            && |orders| == 4 && orders[0].orderType == MoneyTransfer && orders[1].orderType == MoneyTransfer
            && orders[2].orderType == MoneyTransferImbalance && orders[3].orderType == CashierShiftEnd
            && orders[0].uuid == uuids.0 && orders[1].uuid == uuids.1 && orders[2].uuid == uuids.2 && orders[3].uuid == uuids.3
            && forall i :: 0 <= i < 4 ==>
                 && orders[i].cash && orders[i].cashRegister == Some(register) && orders[i].till == p.virtualTill
                 && orders[i].zNr == tills[p.virtualTill] && orders[i].bookedAt == now
  {
    OneLine(expected);
    OneLine(-actual);
    OneLine(actual - expected);
  }

  lemma OneLine(price: real)
    ensures LineTotal([LineItem(price, 1)]) == price
  {
    assert [LineItem(price, 1)][1..] == [];
  }

  lemma Unknown(orders: seq<Order>, uuid: int)
    requires forall o :: o in orders ==> o.uuid != uuid
    ensures Find(orders, uuid).None?
  {
    FindSpec(orders, uuid);
  }

  /** The four bookings, before looking at what they do to the balances. */
  lemma FourBooked(db: Db, p: Places, register: int, uuids: (int, int, int, int), now: int, expected: real, actual: real)
    requires PlacesKnown(p, db)
    requires uuids.0 != uuids.1 && uuids.0 != uuids.2 && uuids.0 != uuids.3
    requires uuids.1 != uuids.2 && uuids.1 != uuids.3 && uuids.2 != uuids.3
    requires forall o :: o in db.orders ==>
               o.uuid != uuids.0 && o.uuid != uuids.1 && o.uuid != uuids.2 && o.uuid != uuids.3
    ensures var n := |db.orders|;
            var first := Booked(db, StartOrder(p, uuids.0, register, now, expected));
            && first.Ok? && first.value.1.id == n
            && var second := Booked(first.value.0, VaultOrder(p, uuids.1, register, now, actual));
            && second.Ok? && second.value.1.id == n + 1
            && var third := Booked(second.value.0, ImbalanceOrder(p, uuids.2, register, now, actual - expected));
            && third.Ok? && third.value.1.id == n + 2
            && var fourth := Booked(third.value.0, ShiftEndOrder(p, uuids.3, register, now));
            && fourth.Ok?
            && var after := fourth.value.0;
            var toVault := Entry(n + 1, p.register, p.vault, actual);
            var toImbalance := Entry(n + 2, p.register, p.imbalance, -(actual - expected));
            && after.tills == db.tills
            && after.orders == db.orders + CloseOutOrders(p, register, uuids, now, expected, actual, db.tills)
            && Known(db.accounts, toVault) && Known(Post(db.accounts, toVault), toImbalance)
            && after.accounts == Post(Post(db.accounts, toVault), toImbalance)
  {
    hide Booked, Post, Directed, Find, Entry;
    var a, b := StartOrder(p, uuids.0, register, now, expected), VaultOrder(p, uuids.1, register, now, actual);
    var c, d := ImbalanceOrder(p, uuids.2, register, now, actual - expected), ShiftEndOrder(p, uuids.3, register, now);
    Unknown(db.orders, uuids.0);
    SingleBooking(db, a);
    var first := Booked(db, a).value.0;
    Unknown(first.orders, uuids.1);
    SingleBooking(first, b);
    var second := Booked(first, b).value.0;
    Unknown(second.orders, uuids.2);
    PostConserves(first.accounts, Entry(|first.orders|, p.register, p.vault, actual));
    SingleBooking(second, c);
    var third := Booked(second, c).value.0;
    Unknown(third.orders, uuids.3);
    PostConserves(second.accounts, Entry(|second.orders|, p.register, p.imbalance, -(actual - expected)));
    SingleBooking(third, d);
  }

  lemma FourOrders(db: Db, p: Places, register: int, uuids: (int, int, int, int), now: int, expected: real, actual: real)
    requires PlacesKnown(p, db) && expected == db.accounts[p.register].balance
    requires uuids.0 != uuids.1 && uuids.0 != uuids.2 && uuids.0 != uuids.3
    requires uuids.1 != uuids.2 && uuids.1 != uuids.3 && uuids.2 != uuids.3
    requires forall o :: o in db.orders ==>
               o.uuid != uuids.0 && o.uuid != uuids.1 && o.uuid != uuids.2 && o.uuid != uuids.3
    ensures var n := |db.orders|;
            var first := Booked(db, StartOrder(p, uuids.0, register, now, expected));
            && first.Ok? && first.value.1.id == n
            && var second := Booked(first.value.0, VaultOrder(p, uuids.1, register, now, actual));
            && second.Ok? && second.value.1.id == n + 1
            && var third := Booked(second.value.0, ImbalanceOrder(p, uuids.2, register, now, actual - expected));
            && third.Ok? && third.value.1.id == n + 2
            && var fourth := Booked(third.value.0, ShiftEndOrder(p, uuids.3, register, now));
            && fourth.Ok?
            && var after := fourth.value.0;
            && after.tills == db.tills
            && after.orders == db.orders + CloseOutOrders(p, register, uuids, now, expected, actual, db.tills)
            && (forall opening :: Consistent(opening, db) ==> Consistent(opening, after))
            && |after.accounts| == |db.accounts| && after.accounts[p.register].balance == 0.0
            && after.accounts[p.vault].balance == Snap(db.accounts[p.vault].balance + actual)
            && after.accounts[p.imbalance].balance == Snap(db.accounts[p.imbalance].balance + (expected - actual))
            && forall k :: 0 <= k < |db.accounts| && k != p.register && k != p.vault && k != p.imbalance ==>
                 after.accounts[k] == db.accounts[k]
  {
    hide Booked, Post, Directed, Consistent, Snap, Find, Entry, CloseOutOrders, StartOrder, VaultOrder, ImbalanceOrder,
      ShiftEndOrder;
    FourBooked(db, p, register, uuids, now, expected, actual);
    var n, first := |db.orders|, Booked(db, StartOrder(p, uuids.0, register, now, expected)).value.0;
    OrderKeeps(db, StartOrder(p, uuids.0, register, now, expected));
    var second := Booked(first, VaultOrder(p, uuids.1, register, now, actual)).value.0;
    OrderKeeps(first, VaultOrder(p, uuids.1, register, now, actual));
    var third := Booked(second, ImbalanceOrder(p, uuids.2, register, now, actual - expected)).value.0;
    OrderKeeps(second, ImbalanceOrder(p, uuids.2, register, now, actual - expected));
    OrderKeeps(third, ShiftEndOrder(p, uuids.3, register, now));
    RegisterIsEmptied(db.accounts, p, actual, n + 1, n + 2);
    var toVault := Entry(n + 1, p.register, p.vault, actual);
    PostConserves(db.accounts, toVault);
    PostConserves(Post(db.accounts, toVault), Entry(n + 2, p.register, p.imbalance, -(actual - expected)));
  }

  lemma OrderKeeps(db: Db, n: NewOrder)
    requires Booked(db, n).Ok?
    ensures forall opening :: Consistent(opening, db) ==> Consistent(opening, Booked(db, n).value.0)
  {
    hide Booked, Consistent;
    forall opening | Consistent(opening, db) ensures Consistent(opening, Booked(db, n).value.0) {
      BookOrderKeeps(opening, db, n);
    }
  }

  lemma TillsDoNotMatter(before: Db, after: Db)
    ensures forall opening :: Consistent(opening, after.(tills := before.tills)) ==> Consistent(opening, after)
  {
  }
}
