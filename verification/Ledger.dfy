/** Double-entry bookings between accounts, and orders that are booked once per uuid. */
module Ledger {

  import opened Wrappers

  /** Accounts are numbered from 0. */
  datatype Account = Account(balance: real, vouchers: int)
  type Accounts = seq<Account>

  datatype Transaction = Transaction(order: Option<nat>, source: nat, target: nat, amount: real, vouchers: int)

  datatype Error = SignMismatch | SameAccount | UnknownAccount | TillDoesNotExist

  // ---- one transaction ---------------------------------------------------------------

  const EPSILON := 0.001

  function Abs(x: real): real { if x < 0.0 then -x else x }

  /** Balances closer to zero than the rounding tolerance become zero. */
  function Snap(x: real): real { if Abs(x) < EPSILON then 0.0 else x }

  /** Only non-negative transfers are stored: a negative one goes the other way. */
  function Directed(t: Transaction): Transaction
  {
    if t.amount < 0.0 || t.vouchers < 0 then Transaction(t.order, t.target, t.source, -t.amount, -t.vouchers) else t
  }

  /** Between two different accounts that exist. */
  predicate Known(accounts: Accounts, t: Transaction)
  {
    t.source != t.target && t.source < |accounts| && t.target < |accounts|
  }

  function Post(accounts: Accounts, t: Transaction): Accounts
    requires Known(accounts, t)
  {
    var a := accounts[t.source];
    var paid := accounts[t.source := Account(Snap(a.balance - t.amount), a.vouchers - t.vouchers)];
    var b := paid[t.target];
    paid[t.target := Account(Snap(b.balance + t.amount), b.vouchers + t.vouchers)]
  }

  /** Vouchers one way and money the other. */
  predicate Opposed(vouchers: int, amount: real) { vouchers as real * amount < 0.0 }

  /** The transaction that gets stored, or the error that aborts. */
  function Check(accounts: Accounts, t: Transaction): Result<Transaction, Error>
  {
    if Opposed(t.vouchers, t.amount) then Err(SignMismatch)
    else if t.source == t.target then Err(SameAccount)
    else if !Known(accounts, t) then Err(UnknownAccount)
    else Ok(Directed(t))
  }

  function Total(accounts: Accounts): real
  {
    if accounts == [] then 0.0 else accounts[0].balance + Total(accounts[1..])
  }

  function TotalVouchers(accounts: Accounts): int
  {
    if accounts == [] then 0 else accounts[0].vouchers + TotalVouchers(accounts[1..])
  }

  lemma {:induction false} TotalAfterUpdate(accounts: Accounts, k: nat, a: Account)
    requires k < |accounts|
    ensures Total(accounts[k := a]) == Total(accounts) - accounts[k].balance + a.balance
    ensures TotalVouchers(accounts[k := a]) == TotalVouchers(accounts) - accounts[k].vouchers + a.vouchers
  {
    if k == 0 {
      assert accounts[k := a][1..] == accounts[1..];
    } else {
      TotalAfterUpdate(accounts[1..], k - 1, a);
      assert accounts[k := a][1..] == accounts[1..][k - 1 := a];
    }
  }

  /** What snapping to zero adds to a balance. */
  function Rounding(x: real): real { Snap(x) - x }

  /** What a transaction adds to the sum of all balances; zero unless a balance ends within the tolerance. */
  function Drift(accounts: Accounts, t: Transaction): real
    requires Known(accounts, t)
  {
    Rounding(accounts[t.source].balance - t.amount) + Rounding(accounts[t.target].balance + t.amount)
  }

  /** A balance that the tolerance takes away: close to zero, and not zero. */
  predicate Swept(x: real) { x != 0.0 && Abs(x) < EPSILON }

  /** A transaction changes the sum of the balances by its two roundings, and never that of the vouchers. */
  lemma PostDrifts(accounts: Accounts, t: Transaction)
    requires Known(accounts, t)
    ensures |Post(accounts, t)| == |accounts|
    ensures Total(Post(accounts, t)) == Total(accounts) + Drift(accounts, t)
    ensures TotalVouchers(Post(accounts, t)) == TotalVouchers(accounts)
  {
    hide Snap;
    var a, b := accounts[t.source], accounts[t.target];
    var left := Account(Snap(a.balance - t.amount), a.vouchers - t.vouchers);
    var right := Account(Snap(b.balance + t.amount), b.vouchers + t.vouchers);
    TotalAfterUpdate(accounts, t.source, left);
    TotalAfterUpdate(accounts[t.source := left], t.target, right);
  }

  /** Money is conserved exactly when neither account is left with a swept balance, or both are and the two
      cancel; vouchers always are conserved. */
  lemma PostConserves(accounts: Accounts, t: Transaction)
    requires Known(accounts, t)
    ensures |Post(accounts, t)| == |accounts|
    ensures Total(Post(accounts, t)) == Total(accounts) + Drift(accounts, t)
    ensures var left, right := accounts[t.source].balance - t.amount, accounts[t.target].balance + t.amount;
            Total(Post(accounts, t)) == Total(accounts) <==>
              (!Swept(left) && !Swept(right)) || (Swept(left) && Swept(right) && left == -right)
    ensures TotalVouchers(Post(accounts, t)) == TotalVouchers(accounts)
  {
    PostDrifts(accounts, t);
    RoundingsCancel(accounts[t.source].balance - t.amount, accounts[t.target].balance + t.amount);
    hide Post, Total, TotalVouchers, Rounding, Swept;
  }

  lemma RoundingsCancel(left: real, right: real)
    ensures Rounding(left) + Rounding(right) == 0.0 <==>
              (!Swept(left) && !Swept(right)) || (Swept(left) && Swept(right) && left == -right)
  {
  }

  /** A run that loses money: a tenth of a tenth of a cent is left and swept away. */
  lemma SmallRestIsLost()
    ensures var accounts, t := [Account(1.0, 0), Account(0.0, 0)], Transaction(None, 0, 1, 0.9999, 0);
            Total(Post(accounts, t)) == Total(accounts) - 0.0001
  {
    var accounts, t := [Account(1.0, 0), Account(0.0, 0)], Transaction(None, 0, 1, 0.9999, 0);
    PostConserves(accounts, t);
  }

  // ---- runs of transactions ----------------------------------------------------------

  predicate AllKnown(accounts: Accounts, ts: seq<Transaction>)
  {
    forall i :: 0 <= i < |ts| ==> Known(accounts, ts[i])
  }

  function Replay(accounts: Accounts, ts: seq<Transaction>): (after: Accounts)
    requires AllKnown(accounts, ts)
    ensures |after| == |accounts|
  {
    if ts == [] then accounts
    else
      var before := Replay(accounts, ts[..|ts| - 1]);
      Post(before, ts[|ts| - 1])
  }

  /** A whole number of cents. */
  ghost predicate Cents(x: real) { exists n: int :: x == Hundredths(n) }

  function Hundredths(n: int): real { n as real / 100.0 }

  ghost predicate AllCents(accounts: Accounts) { forall i :: 0 <= i < |accounts| ==> Cents(accounts[i].balance) }

  lemma CentsAdd(x: real, y: real)
    requires Cents(x) && Cents(y)
    ensures Cents(x + y) && Cents(x - y)
  {
    var n: int :| x == Hundredths(n);
    var m: int :| y == Hundredths(m);
    assert x + y == Hundredths(n + m);
    assert x - y == Hundredths(n - m);
  }

  /** Whole cents are never within the tolerance of zero unless they are zero. */
  lemma CentsAreNotSnapped(x: real)
    requires Cents(x)
    ensures Snap(x) == x
  {
    var n: int :| x == Hundredths(n);
    if n >= 1 {
      assert x >= 0.01;
    } else if n <= -1 {
      assert x <= -0.01;
    }
  }

  /** What the transactions bring to one account. */
  function Net(ts: seq<Transaction>, k: nat): real
  {
    if ts == [] then 0.0
    else
      var t := ts[|ts| - 1];
      Net(ts[..|ts| - 1], k) + (if t.target == k then t.amount else 0.0) - (if t.source == k then t.amount else 0.0)
  }

  lemma PostCents(accounts: Accounts, t: Transaction)
    requires Known(accounts, t) && AllCents(accounts) && Cents(t.amount)
    ensures AllCents(Post(accounts, t)) && Drift(accounts, t) == 0.0
    ensures forall k :: 0 <= k < |accounts| ==>
              Post(accounts, t)[k].balance
              == accounts[k].balance + (if t.target == k then t.amount else 0.0) - (if t.source == k then t.amount else 0.0)
  {
    hide Cents, Snap;
    CentsAdd(accounts[t.source].balance, t.amount);
    CentsAreNotSnapped(accounts[t.source].balance - t.amount);
    CentsAdd(accounts[t.target].balance, t.amount);
    CentsAreNotSnapped(accounts[t.target].balance + t.amount);
  }

  /** Over any run in whole cents the sum of the balances is constant, and every balance is its opening
      balance plus what its transactions brought. */
  lemma {:induction false} RunConserves(accounts: Accounts, ts: seq<Transaction>)
    requires AllKnown(accounts, ts) && AllCents(accounts)
    requires forall i :: 0 <= i < |ts| ==> Cents(ts[i].amount)
    ensures AllCents(Replay(accounts, ts)) && Total(Replay(accounts, ts)) == Total(accounts)
    ensures forall k :: 0 <= k < |accounts| ==> Replay(accounts, ts)[k].balance == accounts[k].balance + Net(ts, k)
  {
    hide Cents, Post;
    if ts != [] {
      var front, t := ts[..|ts| - 1], ts[|ts| - 1];
      RunConserves(accounts, front);
      var before := Replay(accounts, front);
      PostCents(before, t);
      PostConserves(before, t);
    }
  }

  /** The vouchers the transactions bring to one account. */
  function NetVouchers(ts: seq<Transaction>, k: nat): int
  {
    if ts == [] then 0
    else
      var t := ts[|ts| - 1];
      NetVouchers(ts[..|ts| - 1], k) + (if t.target == k then t.vouchers else 0) - (if t.source == k then t.vouchers else 0)
  }

  /** Over any run, whatever the amounts, each account's vouchers are those it had and those its transactions brought. */
  lemma {:induction false} RunMovesVouchers(accounts: Accounts, ts: seq<Transaction>)
    requires AllKnown(accounts, ts)
    ensures forall k :: 0 <= k < |accounts| ==>
              Replay(accounts, ts)[k].vouchers == accounts[k].vouchers + NetVouchers(ts, k)
  {
    hide Snap;
    if ts != [] {
      RunMovesVouchers(accounts, ts[..|ts| - 1]);
    }
  }

  /** What is asked for happens, with its sign, whichever way it is stored: money and vouchers leave the source and
      reach the target, and no other account changes. It is refused for the first of these reasons: money and
      vouchers go different ways, the two accounts are one, or one does not exist. */
  lemma SignedTransfer(accounts: Accounts, t: Transaction)
    ensures Check(accounts, t)
            == if (t.vouchers > 0 && t.amount < 0.0) || (t.vouchers < 0 && t.amount > 0.0) then Err(SignMismatch)
               else if t.source == t.target then Err(SameAccount)
               else if t.source >= |accounts| || t.target >= |accounts| then Err(UnknownAccount)
               else Ok(Check(accounts, t).value)
    ensures Check(accounts, t).Ok? ==>
              var stored := Check(accounts, t).value;
              && stored.amount >= 0.0 && stored.vouchers >= 0 && stored.order == t.order && Known(accounts, stored)
              && var after := Post(accounts, stored);
              && after[t.source] == Account(Snap(accounts[t.source].balance - t.amount), accounts[t.source].vouchers - t.vouchers)
              && after[t.target] == Account(Snap(accounts[t.target].balance + t.amount), accounts[t.target].vouchers + t.vouchers)
              && forall k :: 0 <= k < |accounts| && k != t.source && k != t.target ==> after[k] == accounts[k]
  {
    hide Snap;
    SignsOppose(t.vouchers, t.amount);
    hide Opposed;
  }

  lemma SignsOppose(vouchers: int, amount: real)
    ensures Opposed(vouchers, amount) <==> (vouchers > 0 && amount < 0.0) || (vouchers < 0 && amount > 0.0)
  {
    var v := vouchers as real;
    if amount == 0.0 || vouchers == 0 {
      assert v * amount == 0.0;
    } else if (vouchers > 0) == (amount > 0.0) {
      assert v * amount > 0.0;
    } else {
      assert v * amount < 0.0;
    }
  }

  /** Whatever the amounts, a run of n transactions moves the sum of the balances by less than n fifths of a cent. */
  lemma {:induction false} RunDriftIsSmall(accounts: Accounts, ts: seq<Transaction>)
    requires AllKnown(accounts, ts)
    ensures Abs(Total(Replay(accounts, ts)) - Total(accounts)) <= 0.002 * |ts| as real
    ensures TotalVouchers(Replay(accounts, ts)) == TotalVouchers(accounts)
  {
    hide Post;
    if ts != [] {
      var front, t := ts[..|ts| - 1], ts[|ts| - 1];
      RunDriftIsSmall(accounts, front);
      PostConserves(Replay(accounts, front), t);
      assert |ts| as real == |front| as real + 1.0;
    }
  }

  lemma ReplayAppend(accounts: Accounts, ts: seq<Transaction>, t: Transaction)
    requires AllKnown(accounts, ts) && Known(accounts, t)
    ensures AllKnown(accounts, ts + [t])
    ensures Replay(accounts, ts + [t]) == Post(Replay(accounts, ts), t)
  {
    assert (ts + [t])[..|ts|] == ts;
  }

  // ---- orders ------------------------------------------------------------------------

  datatype LineItem = LineItem(productPrice: real, quantity: int)

  function LineTotal(items: seq<LineItem>): real
  {
    if items == [] then 0.0 else items[0].productPrice * items[0].quantity as real + LineTotal(items[1..])
  }

  datatype OrderType = Sale | MoneyTransfer | MoneyTransferImbalance | CashierShiftStart | CashierShiftEnd | OtherType

  datatype Order = Order(uuid: int, orderType: OrderType, cash: bool, cashRegister: Option<int>, till: int, zNr: int,
                         bookedAt: int, lineItems: seq<LineItem>)

  datatype OrderInfo = OrderInfo(id: nat, uuid: int, bookedAt: int)

  datatype Booking = Booking(source: nat, target: nat, amount: real)

  /** A request to book; uuid and time are those given or those drawn. */
  datatype NewOrder = NewOrder(uuid: int, orderType: OrderType, cash: bool, cashRegister: Option<int>, till: int,
                               bookedAt: int, lineItems: seq<LineItem>, bookings: seq<Booking>)

  /** An order's id is its place in `orders`; `tills` holds the z_nr of each till. */
  datatype Db = Db(accounts: Accounts, transactions: seq<Transaction>, orders: seq<Order>, tills: map<int, int>)

  function Find(orders: seq<Order>, uuid: int): Option<nat>
  {
    if orders == [] then None
    else
      match Find(orders[..|orders| - 1], uuid)
      case Some(i) => Some(i)
      case None => if orders[|orders| - 1].uuid == uuid then Some(|orders| - 1) else None
  }

  lemma {:induction false} FindSpec(orders: seq<Order>, uuid: int)
    ensures match Find(orders, uuid)
            case Some(i) =>
              i < |orders| && orders[i].uuid == uuid && forall k :: 0 <= k < i ==> orders[k].uuid != uuid
            case None => forall k :: 0 <= k < |orders| ==> orders[k].uuid != uuid
  {
    if orders != [] {
      FindSpec(orders[..|orders| - 1], uuid);
    }
  }

  function TransactionOf(orderId: nat, b: Booking): Transaction
  {
    Transaction(Some(orderId), b.source, b.target, b.amount, 0)
  }

  /** book_prepared_bookings: one transaction per booking; the first error aborts. */
  function BookAll(accounts: Accounts, orderId: nat, bookings: seq<Booking>): Result<(Accounts, seq<Transaction>), Error>
  {
    if bookings == [] then Ok((accounts, []))
    else
      match BookAll(accounts, orderId, bookings[..|bookings| - 1])
      case Err(e) => Err(e)
      case Ok((before, ts)) =>
        match Check(before, TransactionOf(orderId, bookings[|bookings| - 1]))
        case Err(e) => Err(e)
        case Ok(t) => Ok((Post(before, t), ts + [t]))
  }

  /** Either every booking is between two different accounts that exist and each is stored once, in order and with a non-negative
      amount, or nothing happens. */
  lemma {:induction false} BookAllSpec(accounts: Accounts, orderId: nat, bookings: seq<Booking>)
    ensures BookAll(accounts, orderId, bookings).Ok? <==>
              forall i :: 0 <= i < |bookings| ==>
                bookings[i].source != bookings[i].target
                && bookings[i].source < |accounts| && bookings[i].target < |accounts|
    ensures BookAll(accounts, orderId, bookings).Ok? ==>
              var (after, ts) := BookAll(accounts, orderId, bookings).value;
              && |ts| == |bookings| && AllKnown(accounts, ts) && after == Replay(accounts, ts)
              && forall i :: 0 <= i < |ts| ==>
                   ts[i].order == Some(orderId) && ts[i].amount >= 0.0
                   && ts[i] == Directed(TransactionOf(orderId, bookings[i]))
  {
    hide Post, Replay;
    if bookings == [] {
      ReplayNothing(accounts);
    } else {
      var front, last := bookings[..|bookings| - 1], bookings[|bookings| - 1];
      BookAllSpec(accounts, orderId, front);
      if BookAll(accounts, orderId, front).Ok? {
        var (before, ts) := BookAll(accounts, orderId, front).value;
        NotOpposed(last.amount);
        if Known(accounts, TransactionOf(orderId, last)) {
          ReplayAppend(accounts, ts, Directed(TransactionOf(orderId, last)));
        }
      }
    }
  }

  lemma NotOpposed(amount: real)
    ensures !Opposed(0, amount)
  {
  }

  lemma ReplayNothing(accounts: Accounts)
    ensures Replay(accounts, []) == accounts
  {
  }

  function OrderOf(n: NewOrder, zNr: int): Order
  {
    Order(n.uuid, n.orderType, n.cash, if n.cash then n.cashRegister else None, n.till, zNr, n.bookedAt, n.lineItems)
  }

  /** The till is looked up first, then the uuid; only an unknown uuid writes anything. */
  function Booked(db: Db, n: NewOrder): Result<(Db, OrderInfo), Error>
  {
    if n.till !in db.tills then Err(TillDoesNotExist)
    else
      match Find(db.orders, n.uuid)
      case Some(id) =>
        FindSpec(db.orders, n.uuid);
        Ok((db, OrderInfo(id, n.uuid, db.orders[id].bookedAt)))
      case None =>
        match BookAll(db.accounts, |db.orders|, n.bookings)
        case Err(e) => Err(e)
        case Ok((accounts, ts)) =>
          Ok((Db(accounts, db.transactions + ts, db.orders + [OrderOf(n, db.tills[n.till])], db.tills),
              OrderInfo(|db.orders|, n.uuid, n.bookedAt)))
  }

  /** The database tables, changed by booking orders. */
  class Database {
    var accounts: Accounts
    var transactions: seq<Transaction>
    var orders: seq<Order>
    var tills: map<int, int>

    constructor (accounts: Accounts, tills: map<int, int>)
      ensures View() == Db(accounts, [], [], tills)
    {
      this.accounts, this.tills, transactions, orders := accounts, tills, [], [];
    }

    function View(): Db
      reads this
    {
      Db(accounts, transactions, orders, tills)
    }

    /** book_transaction: source first, then target, each snapped to zero. */
    method BookTransaction(order: Option<nat>, source: nat, target: nat, amount: real, vouchers: int) returns (r: Result<nat, Error>)
      modifies this`accounts, this`transactions
      ensures r.Err? ==> Check(old(accounts), Transaction(order, source, target, amount, vouchers)) == Err(r.error)
      ensures r.Err? ==> View() == old(View())
      ensures r.Ok? ==>
                var checked := Check(old(accounts), Transaction(order, source, target, amount, vouchers));
                && checked.Ok? && Known(old(accounts), checked.value)
                && accounts == Post(old(accounts), checked.value) && transactions == old(transactions) + [checked.value]
                && r.value == |old(transactions)|
    {
      hide Opposed, Abs;
      if Opposed(vouchers, amount) {
        return Err(SignMismatch);
      }
      var source, target, amount, vouchers := source, target, amount, vouchers;
      // the table's constraint, then its foreign keys
      if source == target {
        return Err(SameAccount);
      }
      if source >= |accounts| || target >= |accounts| {
        return Err(UnknownAccount);
      }
      if amount < 0.0 || vouchers < 0 {
        source, target := target, source;
        amount, vouchers := -amount, -vouchers;
      }
      transactions := transactions + [Transaction(order, source, target, amount, vouchers)];
      accounts := accounts[source := Account(accounts[source].balance - amount, accounts[source].vouchers - vouchers)];
      if Abs(accounts[source].balance) < EPSILON {
        accounts := accounts[source := accounts[source].(balance := 0.0)];
      }
      accounts := accounts[target := Account(accounts[target].balance + amount, accounts[target].vouchers + vouchers)];
      if Abs(accounts[target].balance) < EPSILON {
        accounts := accounts[target := accounts[target].(balance := 0.0)];
      }
      r := Ok(|transactions| - 1);
    }

    method BookPreparedBookings(orderId: nat, bookings: seq<Booking>) returns (r: Result<(), Error>)
      modifies this`accounts, this`transactions
      ensures var booked := BookAll(old(accounts), orderId, bookings);
              if booked.Err? then r == Err(booked.error)
              else r.Ok? && accounts == booked.value.0 && transactions == old(transactions) + booked.value.1
    {
      hide Post, Check;
      for i := 0 to |bookings|
        invariant var booked := BookAll(old(accounts), orderId, bookings[..i]);
                  booked.Ok? && accounts == booked.value.0 && transactions == old(transactions) + booked.value.1
      {
        assert bookings[..i + 1][..i] == bookings[..i];
        var b := bookings[i];
        var booked := BookTransaction(Some(orderId), b.source, b.target, b.amount, 0);
        if booked.Err? {
          ErrorsStay(old(accounts), orderId, bookings, i + 1);
          return Err(booked.error);
        }
      }
      assert bookings[..|bookings|] == bookings;
      r := Ok(());
    }

    method FindOrder(uuid: int) returns (id: Option<nat>)
      ensures id == Find(orders, uuid)
    {
      for i := 0 to |orders|
        invariant Find(orders[..i], uuid) == None
      {
        assert orders[..i + 1][..i] == orders[..i];
        if orders[i].uuid == uuid {
          FoundStays(orders, i + 1, uuid);
          return Some(i);
        }
      }
      assert orders[..|orders|] == orders;
      id := None;
    }

    /** An error leaves the tables as they were: the surrounding database transaction is rolled back. */
    method BookOrder(n: NewOrder) returns (r: Result<OrderInfo, Error>)
      modifies this
      ensures var booked := Booked(old(View()), n);
              if booked.Err? then r == Err(booked.error) && View() == old(View())
              else r == Ok(booked.value.1) && View() == booked.value.0
    {
      if n.till !in tills {
        return Err(TillDoesNotExist);
      }
      var known := FindOrder(n.uuid);
      FindSpec(orders, n.uuid);
      if known.Some? {
        return Ok(OrderInfo(known.value, n.uuid, orders[known.value].bookedAt));
      }
      var savedAccounts, savedTransactions, savedOrders := accounts, transactions, orders;
      var orderId := |orders|;
      orders := orders + [OrderOf(n, tills[n.till])];
      var booked := BookPreparedBookings(orderId, n.bookings);
      if booked.Err? {
        accounts, transactions, orders := savedAccounts, savedTransactions, savedOrders;
        return Err(booked.error);
      }
      r := Ok(OrderInfo(orderId, n.uuid, n.bookedAt));
    }
  }

  lemma {:induction false} ErrorsStay(accounts: Accounts, orderId: nat, bookings: seq<Booking>, n: nat)
    requires n <= |bookings| && BookAll(accounts, orderId, bookings[..n]).Err?
    ensures BookAll(accounts, orderId, bookings) == BookAll(accounts, orderId, bookings[..n])
    decreases |bookings| - n
  {
    if n < |bookings| {
      assert bookings[..n + 1][..n] == bookings[..n];
      ErrorsStay(accounts, orderId, bookings, n + 1);
    } else {
      assert bookings[..n] == bookings;
    }
  }

  lemma {:induction false} FoundStays(orders: seq<Order>, n: nat, uuid: int)
    requires n <= |orders| && Find(orders[..n], uuid).Some?
    ensures Find(orders, uuid) == Find(orders[..n], uuid)
    decreases |orders| - n
  {
    if n < |orders| {
      assert orders[..n + 1][..n] == orders[..n];
      FoundStays(orders, n + 1, uuid);
    } else {
      assert orders[..n] == orders;
    }
  }

  // ---- runs of orders ----------------------------------------------------------------

  /** Books a list of orders one after the other; one that fails changes nothing. */
  function Run(db: Db, requests: seq<NewOrder>): Db
  {
    if requests == [] then db
    else
      var before := Run(db, requests[..|requests| - 1]);
      match Booked(before, requests[|requests| - 1])
      case Ok((after, _)) => after
      case Err(_) => before
  }

  /** The tables agree: the balances are the opening balances moved by the stored transactions, no two
      orders share a uuid, and transactions belong to orders that exist. */
  ghost predicate Consistent(opening: Accounts, db: Db)
  {
    && AllKnown(opening, db.transactions) && db.accounts == Replay(opening, db.transactions)
    && (forall i, j :: 0 <= i < j < |db.orders| ==> db.orders[i].uuid != db.orders[j].uuid)
    && (forall i :: 0 <= i < |db.transactions| && db.transactions[i].order.Some? ==>
          db.transactions[i].order.value < |db.orders|)
    && (forall i :: 0 <= i < |db.transactions| ==> db.transactions[i].amount >= 0.0)
  }

  lemma {:induction false} ReplayConcat(accounts: Accounts, ts: seq<Transaction>, more: seq<Transaction>)
    requires AllKnown(accounts, ts) && AllKnown(accounts, more)
    ensures AllKnown(accounts, ts + more)
    ensures Replay(accounts, ts + more) == Replay(Replay(accounts, ts), more)
  {
    if more == [] {
      assert ts + more == ts;
    } else {
      var front, last := more[..|more| - 1], more[|more| - 1];
      ReplayConcat(accounts, ts, front);
      ReplayAppend(accounts, ts + front, last);
      assert ts + more == ts + front + [last];
    }
  }

  lemma BookOrderKeeps(opening: Accounts, db: Db, n: NewOrder)
    requires Consistent(opening, db)
    ensures Booked(db, n).Ok? ==> Consistent(opening, Booked(db, n).value.0)
  {
    hide Replay, Post, BookAll;
    FindSpec(db.orders, n.uuid);
    if Booked(db, n).Ok? && Find(db.orders, n.uuid).None? {
      BookAllSpec(db.accounts, |db.orders|, n.bookings);
      var (accounts, ts) := BookAll(db.accounts, |db.orders|, n.bookings).value;
      ReplayConcat(opening, db.transactions, ts);
    }
  }

  lemma {:induction false} RunKeeps(opening: Accounts, db: Db, requests: seq<NewOrder>)
    requires Consistent(opening, db)
    ensures Consistent(opening, Run(db, requests))
  {
    hide Booked, Consistent;
    if requests != [] {
      RunKeeps(opening, db, requests[..|requests| - 1]);
      BookOrderKeeps(opening, Run(db, requests[..|requests| - 1]), requests[|requests| - 1]);
    }
  }

  /** Orders are never changed or removed. */
  lemma {:induction false} OrdersStay(db: Db, requests: seq<NewOrder>)
    ensures |db.orders| <= |Run(db, requests).orders| && Run(db, requests).orders[..|db.orders|] == db.orders
    ensures Run(db, requests).tills == db.tills
  {
    if requests != [] {
      var front, last := requests[..|requests| - 1], requests[|requests| - 1];
      OrdersStay(db, front);
      FindSpec(Run(db, front).orders, last.uuid);
    }
  }

  /** Booking an order again after any other bookings changes nothing and returns the stored id and time,
      whatever else the repeated request says. */
  lemma ReplayIsIdempotent(db: Db, n: NewOrder, requests: seq<NewOrder>, again: NewOrder)
    requires Booked(db, n).Ok? && again.uuid == n.uuid && again.till in db.tills
    ensures var (booked, info) := Booked(db, n).value;
            var later := Run(booked, requests);
            Booked(later, again) == Ok((later, info))
  {
    hide BookAll;
    var (booked, info) := Booked(db, n).value;
    var later := Run(booked, requests);
    FindSpec(db.orders, n.uuid);
    OrdersStay(booked, requests);
    FindSpec(booked.orders, n.uuid);
    FindAppended(db, n);
    assert later.orders[..|booked.orders|] == booked.orders;
    FoundStays(later.orders, |booked.orders|, n.uuid);
    assert later.orders[info.id] == booked.orders[info.id];
  }

  lemma FindAppended(db: Db, n: NewOrder)
    requires Booked(db, n).Ok?
    ensures var (booked, info) := Booked(db, n).value;
            && Find(booked.orders, n.uuid) == Some(info.id) && info.id < |booked.orders|
            && booked.orders[info.id].bookedAt == info.bookedAt && info.uuid == n.uuid && booked.tills == db.tills
  {
    hide BookAll;
    FindSpec(db.orders, n.uuid);
    var (booked, info) := Booked(db, n).value;
    if Find(db.orders, n.uuid).None? {
      assert booked.orders[..|booked.orders| - 1] == db.orders;
    }
  }

  /** Booking succeeds exactly when the till exists and, unless the uuid is known, every booking is between two
      different accounts that exist. */
  lemma WhenBooked(db: Db, n: NewOrder)
    ensures Booked(db, n).Ok? <==>
              && n.till in db.tills
              && ((exists k :: 0 <= k < |db.orders| && db.orders[k].uuid == n.uuid)
                  || forall i :: 0 <= i < |n.bookings| ==>
                       && n.bookings[i].source != n.bookings[i].target
                       && n.bookings[i].source < |db.accounts| && n.bookings[i].target < |db.accounts|)
    ensures n.till !in db.tills ==> Booked(db, n) == Err(TillDoesNotExist)
  {
    FindSpec(db.orders, n.uuid);
    BookAllSpec(db.accounts, |db.orders|, n.bookings);
    hide BookAll;
  }

  // ---- what is kept of an order ------------------------------------------------------

  function TransactionsOf(ts: seq<Transaction>, id: nat): seq<Transaction>
  {
    if ts == [] then []
    else TransactionsOf(ts[..|ts| - 1], id) + (if ts[|ts| - 1].order == Some(id) then [ts[|ts| - 1]] else [])
  }

  lemma {:induction false} OthersTransactions(ts: seq<Transaction>, more: seq<Transaction>, id: nat)
    requires forall i :: 0 <= i < |more| ==> more[i].order != Some(id)
    ensures TransactionsOf(ts + more, id) == TransactionsOf(ts, id)
  {
    if more == [] {
      assert ts + more == ts;
    } else {
      var front := more[..|more| - 1];
      OthersTransactions(ts, front, id);
      assert (ts + more)[..|ts + more| - 1] == ts + front;
    }
  }

  lemma {:induction false} OwnTransactions(ts: seq<Transaction>, more: seq<Transaction>, id: nat)
    requires forall i :: 0 <= i < |more| ==> more[i].order == Some(id)
    ensures TransactionsOf(ts + more, id) == TransactionsOf(ts, id) + more
  {
    if more == [] {
      assert ts + more == ts;
    } else {
      var front := more[..|more| - 1];
      OwnTransactions(ts, front, id);
      assert (ts + more)[..|ts + more| - 1] == ts + front;
      assert more == front + [more[|more| - 1]];
    }
  }

  lemma {:induction false} TransactionsStay(db: Db, requests: seq<NewOrder>, id: nat)
    requires id < |db.orders|
    ensures TransactionsOf(Run(db, requests).transactions, id) == TransactionsOf(db.transactions, id)
  {
    hide BookAll;
    if requests != [] {
      var front, last := requests[..|requests| - 1], requests[|requests| - 1];
      TransactionsStay(db, front, id);
      OrdersStay(db, front);
      var before := Run(db, front);
      BookAllSpec(before.accounts, |before.orders|, last.bookings);
      if Booked(before, last).Ok? && Find(before.orders, last.uuid).None? {
        OthersTransactions(before.transactions, BookAll(before.accounts, |before.orders|, last.bookings).value.1, id);
      }
    }
  }

  /** An order booked under a new uuid is kept as it was asked for, under the closing its till was in; the cash
      register is kept for cash alone. Its transactions are exactly one for each of its bookings, in order, and
      no later booking ever adds, changes or removes one. */
  lemma BookedIsKept(opening: Accounts, db: Db, n: NewOrder, requests: seq<NewOrder>)
    requires Consistent(opening, db) && Booked(db, n).Ok?
    requires forall i :: 0 <= i < |db.orders| ==> db.orders[i].uuid != n.uuid
    ensures var (booked, info) := Booked(db, n).value;
            var later := Run(booked, requests);
            && info == OrderInfo(|db.orders|, n.uuid, n.bookedAt) && info.id < |later.orders| && n.till in db.tills
            && var o, ts := later.orders[info.id], TransactionsOf(later.transactions, info.id);
            && o.uuid == n.uuid && o.orderType == n.orderType && o.cash == n.cash && o.till == n.till
            && o.zNr == db.tills[n.till] && o.bookedAt == n.bookedAt && o.lineItems == n.lineItems
            && (n.cash ==> o.cashRegister == n.cashRegister) && (!n.cash ==> o.cashRegister == None)
            && |ts| == |n.bookings|
            && forall i :: 0 <= i < |ts| ==>
                 var t, b := ts[i], n.bookings[i];
                 && t.vouchers == 0 && t.order == Some(info.id)
                 && (b.amount >= 0.0 ==> t.source == b.source && t.target == b.target && t.amount == b.amount)
                 && (b.amount < 0.0 ==> t.source == b.target && t.target == b.source && t.amount == -b.amount)
  {
    hide Run, TransactionsOf, Consistent;
    BookedNow(opening, db, n);
    var (booked, info) := Booked(db, n).value;
    hide Booked;
    OrdersStay(booked, requests);
    TransactionsStay(booked, requests, info.id);
    var later := Run(booked, requests);
    assert later.orders[info.id] == later.orders[..|booked.orders|][info.id] == OrderOf(n, db.tills[n.till]);
  }

  /** Right after booking. */
  lemma BookedNow(opening: Accounts, db: Db, n: NewOrder)
    requires Consistent(opening, db) && Booked(db, n).Ok?
    requires forall i :: 0 <= i < |db.orders| ==> db.orders[i].uuid != n.uuid
    ensures n.till in db.tills
    ensures var (booked, info) := Booked(db, n).value;
            && info == OrderInfo(|db.orders|, n.uuid, n.bookedAt)
            && booked.orders == db.orders + [OrderOf(n, db.tills[n.till])]
            && var ts := TransactionsOf(booked.transactions, info.id);
            && |ts| == |n.bookings|
            && forall i :: 0 <= i < |ts| ==> ts[i] == Directed(TransactionOf(info.id, n.bookings[i]))
  {
    hide BookAll, Replay, TransactionsOf, Directed;
    FindSpec(db.orders, n.uuid);
    BookAllSpec(db.accounts, |db.orders|, n.bookings);
    var ts := BookAll(db.accounts, |db.orders|, n.bookings).value.1;
    OwnTransactions(db.transactions, ts, |db.orders|);
    NoneYet(opening, db);
  }

  lemma NoneYet(opening: Accounts, db: Db)
    requires Consistent(opening, db)
    ensures TransactionsOf(db.transactions, |db.orders|) == []
  {
    hide Replay;
    OthersTransactions([], db.transactions, |db.orders|);
    assert [] + db.transactions == db.transactions;
  }
}
