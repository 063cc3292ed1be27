/** The tse_signature rows joined with their orders, and the statements the wrappers and the
    processor run on them. Each statement is one step. */
module SignatureTable {

  import opened Wrappers
  import D = VirtualTse

  type OrderId = int
  type TillId = int
  type TseId = int

  datatype Status = New | Pending | Done | Failure

  /** What the device returned for a signed order. */
  datatype Signature = Signature(number: int, counter: int, start: D.Stamp, end: D.Stamp, signed: D.SignedFields)

  datatype Row = Row(till: TillId, bookedAt: int, processType: string, processData: string,
                     status: Status, tse: Option<TseId>, signature: Option<Signature>)

  type Orders = map<OrderId, Row>
  type Tills = map<TillId, Option<TseId>>

  predicate TillIsSigning(orders: Orders, till: TillId)
  {
    exists o :: o in orders && orders[o].status == Pending && orders[o].till == till
  }

  /** The rows the wrapper of `tse` may take: new, of one of its tills, and of a till with nothing pending. */
  predicate Eligible(orders: Orders, tills: Tills, tse: TseId, o: OrderId)
  {
    && o in orders && orders[o].status == New
    && orders[o].till in tills && tills[orders[o].till] == Some(tse)
    && !TillIsSigning(orders, orders[o].till)
  }

  predicate Next(orders: Orders, tills: Tills, tse: TseId, o: OrderId)
  {
    && Eligible(orders, tills, tse, o)
    && forall p :: p in orders && Eligible(orders, tills, tse, p) ==> o <= p
  }

  function Claim(orders: Orders, o: OrderId, tse: TseId): Orders
    requires o in orders
  {
    orders[o := orders[o].(status := Pending, tse := Some(tse))]
  }

  function Fail(orders: Orders, o: OrderId): Orders
    requires o in orders
  {
    orders[o := orders[o].(status := Failure)]
  }

  function Complete(orders: Orders, o: OrderId, signature: Signature): Orders
    requires o in orders
  {
    orders[o := orders[o].(status := Done, signature := Some(signature))]
  }

  /** The reconnect sweep's victims: takeable rows booked more than ten seconds before `now`. */
  function Stale(orders: Orders, tills: Tills, tse: TseId, now: int): set<OrderId>
  {
    set o | o in orders && Eligible(orders, tills, tse, o) && now - orders[o].bookedAt > 10
  }

  function FailAll(orders: Orders, victims: set<OrderId>, tse: TseId): Orders
  {
    map o | o in orders :: if o in victims then orders[o].(status := Failure, tse := Some(tse)) else orders[o]
  }

  function PendingOrders(orders: Orders): set<OrderId>
  {
    set o | o in orders && orders[o].status == Pending
  }

  function FailPending(orders: Orders): Orders
  {
    map o | o in orders :: if orders[o].status == Pending then orders[o].(status := Failure) else orders[o]
  }

  lemma AnyElement<T>(s: set<T>) returns (x: T)
    requires s != {}
    ensures x in s
  {
    x :| x in s;
  }

  lemma Least(s: set<int>) returns (m: int)
    requires s != {}
    ensures m in s && forall x :: x in s ==> m <= x
  {
    var x := AnyElement(s);
    var rest := s - {x};
    assert forall y :: y in s ==> y == x || y in rest;
    if rest == {} {
      m := x;
    } else {
      m := Least(rest);
      if x < m {
        m := x;
      }
    }
  }

  /** The elements in ascending order: `order by id`. */
  ghost function Ascending(s: set<int>): (r: seq<int>)
    ensures forall x :: x in s <==> x in r
    ensures forall i, j :: 0 <= i < j < |r| ==> r[i] < r[j]
  {
    if s == {} then []
    else
      assert exists m :: m in s && forall x :: x in s ==> m <= x by { var m := Least(s); }
      var m :| m in s && forall x :: x in s ==> m <= x;
      [m] + Ascending(s - {m})
  }

  lemma SweepStarts(orders: Orders, tills: Tills, tse: TseId, now: int, fetched: set<OrderId>)
    requires forall o :: o in orders && Eligible(orders, tills, tse, o) ==> o in fetched
    ensures FailAll(orders, Stale(orders, tills, tse, now) - fetched, tse) == orders
  {
    hide Eligible;
  }

  /** One more of the rows the sweep fetched: it still is as it was, and fails when it is stale. */
  lemma SweepGoesOn(orders: Orders, tills: Tills, tse: TseId, now: int, fetched: set<OrderId>, o: OrderId)
    requires o in fetched && o in orders && Eligible(orders, tills, tse, o)
    ensures var swept := FailAll(orders, Stale(orders, tills, tse, now) - fetched, tse);
            && o in swept && swept[o] == orders[o]
            && FailAll(orders, Stale(orders, tills, tse, now) - (fetched - {o}), tse)
               == if now - orders[o].bookedAt > 10 then swept[o := orders[o].(status := Failure, tse := Some(tse))] else swept
  {
    hide Eligible;
  }

  lemma SweepOutcome(orders: Orders, tills: Tills, tse: TseId, now: int)
    ensures var swept := FailAll(orders, Stale(orders, tills, tse, now), tse);
            && swept.Keys == orders.Keys
            && forall o :: o in orders ==>
                 swept[o]
                 == if orders[o].status == New && orders[o].till in tills && tills[orders[o].till] == Some(tse)
                       && now - orders[o].bookedAt > 10
                       && forall p :: p in orders && orders[p].till == orders[o].till ==> orders[p].status != Pending
                    then orders[o].(status := Failure, tse := Some(tse))
                    else orders[o]
  {
  }

  class SignatureTable {
    var orders: Orders
    var tills: Tills

    constructor (orders: Orders, tills: Tills)
      ensures this.orders == orders && this.tills == tills
    {
      this.orders, this.tills := orders, tills;
    }

    /** Takes the oldest takeable row, or returns None when there is none. */
    method GrabNextRequest(tse: TseId) returns (taken: Option<OrderId>)
      modifies this`orders
      ensures taken.None? ==> orders == old(orders) && forall o :: !Eligible(orders, tills, tse, o)
      ensures taken.Some? ==> Next(old(orders), tills, tse, taken.value)
                              && orders == Claim(old(orders), taken.value, tse)
      // nothing to take: every new row of a till of this TSE waits behind a pending row of the same till
      ensures taken.None? ==>
                forall o :: o in orders && orders[o].status == New && orders[o].till in tills && tills[orders[o].till] == Some(tse) ==>
                  exists p :: p in orders && orders[p].status == Pending && orders[p].till == orders[o].till
      // otherwise the oldest new row of a till of this TSE with nothing pending, now pending at this TSE
      ensures taken.Some? ==>
                var o := taken.value;
                && o in old(orders) && old(orders)[o].status == New
                && old(orders)[o].till in tills && tills[old(orders)[o].till] == Some(tse)
                && (forall p :: p in old(orders) && old(orders)[p].till == old(orders)[o].till ==> old(orders)[p].status != Pending)
                && (forall p :: p in old(orders) && p < o && old(orders)[p].status == New
                                && old(orders)[p].till in tills && tills[old(orders)[p].till] == Some(tse) ==>
                      exists q :: q in old(orders) && old(orders)[q].status == Pending && old(orders)[q].till == old(orders)[p].till)
                && orders == old(orders)[o := old(orders)[o].(status := Pending, tse := Some(tse))]
    {
      ghost var before := orders;
      assert forall o :: o in before && before[o].status == New && before[o].till in tills && tills[before[o].till] == Some(tse) ==>
               Eligible(before, tills, tse, o)
               || exists p :: p in before && before[p].status == Pending && before[p].till == before[o].till;
      var candidates := set o | o in orders && Eligible(orders, tills, tse, o);
      if candidates == {} {
        assert forall o :: Eligible(orders, tills, tse, o) ==> o in candidates;
        return None;
      }
      ghost var least := Least(candidates);
      var o :| o in candidates && forall p :: p in candidates ==> o <= p;
      assert forall p :: p in orders && Eligible(orders, tills, tse, p) ==> p in candidates;
      taken := Some(o);
      orders := Claim(orders, o, tse);
    }

    /** The sweep after a lost connection: one row at a time, in order of id. */
    method FailStaleRequests(tse: TseId, now: int)
      modifies this`orders
      ensures orders == FailAll(old(orders), Stale(old(orders), tills, tse, now), tse)
      // exactly the new rows of tills of this TSE that wait behind nothing and were booked too long ago
      ensures orders.Keys == old(orders).Keys
      ensures forall o :: o in orders ==>
                orders[o]
                == if old(orders)[o].status == New && old(orders)[o].till in tills && tills[old(orders)[o].till] == Some(tse)
                      && now - old(orders)[o].bookedAt > 10
                      && forall p :: p in old(orders) && old(orders)[p].till == old(orders)[o].till ==> old(orders)[p].status != Pending
                   then old(orders)[o].(status := Failure, tse := Some(tse))
                   else old(orders)[o]
    {
      hide Eligible, FailAll, Stale;
      var fetched := set o | o in orders && Eligible(orders, tills, tse, o);
      ghost var before, stale := orders, Stale(orders, tills, tse, now);
      SweepStarts(before, tills, tse, now, fetched);
      while fetched != {}
        invariant fetched <= before.Keys
        invariant forall o :: o in fetched ==> Eligible(before, tills, tse, o)
        invariant orders == FailAll(before, stale - fetched, tse)
        decreases |fetched|
      {
        ghost var least := Least(fetched);
        var o :| o in fetched && forall p :: p in fetched ==> o <= p;
        SweepGoesOn(before, tills, tse, now, fetched, o);
        fetched := fetched - {o};
        if now - orders[o].bookedAt > 10 {
          orders := orders[o := orders[o].(status := Failure, tse := Some(tse))];
        }
      }
      assert stale - fetched == stale;
      SweepOutcome(before, tills, tse, now);
    }

    method FailRequest(o: OrderId)
      requires o in orders
      modifies this`orders
      ensures orders == Fail(old(orders), o)
    {
      orders := orders[o := orders[o].(status := Failure)];
    }

    method RequestDone(o: OrderId, signature: Signature)
      requires o in orders
      modifies this`orders
      ensures orders == Complete(old(orders), o, signature)
    {
      orders := orders[o := orders[o].(status := Done, signature := Some(signature))];
    }
  }
}
