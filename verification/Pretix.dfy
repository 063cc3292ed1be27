/** Synchronising an order of the ticket shop with the ticket vouchers of an event. */
module Pretix {

  import opened Wrappers

  datatype OrderStatus = Pending | Paid | Expired | Canceled

  /** A price that is missing or not a number is None; an empty name or email counts as missing. */
  datatype Position = Position(id: int, item: int, addonTo: Option<int>, price: Option<real>, secret: string,
                               name: Option<string>, email: Option<string>)

  /** `name` and `email` are the fallbacks from the order's invoice address and contact. */
  datatype Order = Order(code: string, status: OrderStatus, name: Option<string>, email: Option<string>,
                         positions: seq<Position>)

  datatype Settings = Settings(ticketIds: set<int>, topUpIds: set<int>, productNames: map<int, string>)

  /** A voucher with the account it belongs to; checked in means that the account has a tag. */
  datatype Voucher = Voucher(reference: string, topUp: real, item: int, productName: Option<string>, cancelled: bool,
                             checkedIn: bool, name: Option<string>, email: Option<string>)

  /** Vouchers are looked up by token, and only an unknown token inserts one. */
  type Vouchers = map<string, Voucher>

  datatype Ticket = Ticket(reference: string, token: string, name: Option<string>, email: Option<string>, topUp: real,
                           item: int, productName: Option<string>)

  // ---- top-ups -----------------------------------------------------------------------

  function Price(p: Position): real { if p.price.None? then 0.0 else p.price.value }

  predicate TopsUp(p: Position, topUpIds: set<int>, ticket: int) { p.item in topUpIds && p.addonTo == Some(ticket) }

  /** _compute_topup_for_ticket */
  function TopUpFor(positions: seq<Position>, ticket: int, topUpIds: set<int>): real
  {
    if positions == [] then 0.0
    else
      var p := positions[|positions| - 1];
      TopUpFor(positions[..|positions| - 1], ticket, topUpIds) + (if TopsUp(p, topUpIds, ticket) then Price(p) else 0.0)
  }

  predicate IsTicket(p: Position, s: Settings) { p.item in s.ticketIds }

  /** The top-ups of all tickets among the given positions of the order. */
  function AllTopUps(tickets: seq<Position>, positions: seq<Position>, s: Settings): real
  {
    if tickets == [] then 0.0
    else
      var t := tickets[|tickets| - 1];
      AllTopUps(tickets[..|tickets| - 1], positions, s)
      + (if IsTicket(t, s) then TopUpFor(positions, t.id, s.topUpIds) else 0.0)
  }

  /** The top-up position hangs on a ticket of the order. */
  predicate Attached(p: Position, tickets: seq<Position>, s: Settings)
  {
    p.item in s.topUpIds && exists i :: 0 <= i < |tickets| && IsTicket(tickets[i], s) && p.addonTo == Some(tickets[i].id)
  }

  function AttachedPrices(positions: seq<Position>, tickets: seq<Position>, s: Settings): real
  {
    if positions == [] then 0.0
    else
      var p := positions[|positions| - 1];
      AttachedPrices(positions[..|positions| - 1], tickets, s)
      + (if Attached(p, tickets, s) && p.price.Some? then p.price.value else 0.0)
  }

  predicate UniqueIds(positions: seq<Position>)
  {
    forall i, j :: 0 <= i < j < |positions| ==> positions[i].id != positions[j].id
  }

  lemma {:induction false} NoTicketsNoPrices(positions: seq<Position>, s: Settings)
    ensures AttachedPrices(positions, [], s) == 0.0
  {
    if positions != [] {
      NoTicketsNoPrices(positions[..|positions| - 1], s);
    }
  }

  lemma {:induction false} OneMoreTicket(positions: seq<Position>, tickets: seq<Position>, t: Position, s: Settings)
    requires UniqueIds(tickets + [t])
    ensures AttachedPrices(positions, tickets + [t], s)
            == AttachedPrices(positions, tickets, s) + (if IsTicket(t, s) then TopUpFor(positions, t.id, s.topUpIds) else 0.0)
  {
    if positions != [] {
      var p := positions[|positions| - 1];
      OneMoreTicket(positions[..|positions| - 1], tickets, t, s);
      AttachedToOne(p, tickets, t, s);
    }
  }

  lemma AttachedToOne(p: Position, tickets: seq<Position>, t: Position, s: Settings)
    requires UniqueIds(tickets + [t])
    ensures Attached(p, tickets + [t], s) <==> Attached(p, tickets, s) || (IsTicket(t, s) && TopsUp(p, s.topUpIds, t.id))
    ensures Attached(p, tickets, s) ==> !TopsUp(p, s.topUpIds, t.id)
  {
    var all := tickets + [t];
    if Attached(p, all, s) {
      var i :| 0 <= i < |all| && IsTicket(all[i], s) && p.addonTo == Some(all[i].id);
      assert i < |tickets| ==> tickets[i] == all[i];
    }
    if Attached(p, tickets, s) {
      var i :| 0 <= i < |tickets| && IsTicket(tickets[i], s) && p.addonTo == Some(tickets[i].id);
      assert all[i] == tickets[i] && all[|tickets|] == t;
    }
    if IsTicket(t, s) && TopsUp(p, s.topUpIds, t.id) {
      assert all[|tickets|] == t;
    }
  }

  lemma {:induction false} TicketsShareTopUps(tickets: seq<Position>, positions: seq<Position>, s: Settings)
    requires UniqueIds(tickets)
    ensures AllTopUps(tickets, positions, s) == AttachedPrices(positions, tickets, s)
  {
    if tickets == [] {
      NoTicketsNoPrices(positions, s);
    } else {
      var front, t := tickets[..|tickets| - 1], tickets[|tickets| - 1];
      TicketsShareTopUps(front, positions, s);
      assert tickets == front + [t];
      OneMoreTicket(positions, front, t, s);
    }
  }

  /** With unique position ids the tickets' top-ups add up to the prices of exactly the top-up positions
      attached to tickets, each counted once. */
  lemma TopUpsCountedOnce(order: Order, s: Settings)
    requires UniqueIds(order.positions)
    ensures AllTopUps(order.positions, order.positions, s) == AttachedPrices(order.positions, order.positions, s)
  {
    TicketsShareTopUps(order.positions, order.positions, s);
  }

  // ---- one ticket --------------------------------------------------------------------

  function Or<T>(a: Option<T>, b: Option<T>): Option<T> { if a.Some? then a else b }

  function TicketOf(order: Order, p: Position, s: Settings): Ticket
  {
    Ticket(order.code, p.secret, Or(p.name, order.name), Or(p.email, order.email),
           TopUpFor(order.positions, p.id, s.topUpIds), p.item,
           if p.item in s.productNames then Some(s.productNames[p.item]) else None)
  }

  /** store_external_ticket on the voucher of the ticket's token, if there is one. */
  function Stored(existing: Option<Voucher>, t: Ticket): Voucher
  {
    match existing
    case None => Voucher(t.reference, t.topUp, t.item, t.productName, false, false, t.name, t.email)
    case Some(v) =>
      var u := v.(item := t.item, productName := t.productName);
      if v.checkedIn then u
      else u.(topUp := t.topUp, name := Or(t.name, v.name), email := Or(t.email, v.email))
  }

  function Lookup(vs: Vouchers, token: string): Option<Voucher> { if token in vs then Some(vs[token]) else None }

  function Store(vs: Vouchers, t: Ticket): Vouchers { vs[t.token := Stored(Lookup(vs, t.token), t)] }

  function StoreAll(vs: Vouchers, tickets: seq<Ticket>): Vouchers
  {
    if tickets == [] then vs else Store(StoreAll(vs, tickets[..|tickets| - 1]), tickets[|tickets| - 1])
  }

  // ---- one order ---------------------------------------------------------------------

  function TicketsOf(order: Order, positions: seq<Position>, s: Settings): seq<Ticket>
  {
    if positions == [] then []
    else
      var p := positions[|positions| - 1];
      TicketsOf(order, positions[..|positions| - 1], s) + (if IsTicket(p, s) then [TicketOf(order, p, s)] else [])
  }

  function Secrets(tickets: seq<Ticket>): set<string> { set i | 0 <= i < |tickets| :: tickets[i].token }

  /** Vouchers of the order whose position is gone, unless the customer has checked in. */
  function CancelRemoved(vs: Vouchers, code: string, secrets: set<string>): Vouchers
  {
    map t | t in vs ::
      if vs[t].reference == code && t !in secrets && !vs[t].checkedIn then vs[t].(cancelled := true) else vs[t]
  }

  function CancelOrder(vs: Vouchers, code: string): Vouchers
  {
    map t | t in vs :: if vs[t].reference == code then vs[t].(cancelled := true) else vs[t]
  }

  function Sync(vs: Vouchers, order: Order, s: Settings): Vouchers
  {
    match order.status
    case Pending => vs
    case Canceled => CancelOrder(vs, order.code)
    case Expired => CancelOrder(vs, order.code)
    case Paid =>
      var tickets := TicketsOf(order, order.positions, s);
      CancelRemoved(StoreAll(vs, tickets), order.code, Secrets(tickets))
  }

  /** The table of vouchers, changed one statement at a time. */
  class TicketProvider {
    var vouchers: Vouchers

    constructor ()
      ensures vouchers == map[]
    {
      vouchers := map[];
    }

    /** True for a new voucher. Name and email are only ever replaced by known ones, and after check-in not
        even the amount is. */
    method StoreExternalTicket(t: Ticket) returns (created: bool)
      modifies this
      ensures vouchers == Store(old(vouchers), t) && created == (t.token !in old(vouchers))
    {
      if t.token !in vouchers {
        vouchers := vouchers[t.token := Voucher(t.reference, t.topUp, t.item, t.productName, false, false, t.name, t.email)];
        return true;
      }
      created := false;
      var v := vouchers[t.token].(item := t.item, productName := t.productName);
      vouchers := vouchers[t.token := v];
      if v.checkedIn {
        return;
      }
      v := v.(topUp := t.topUp);
      if t.name.Some? {
        v := v.(name := t.name);
      }
      if t.email.Some? {
        v := v.(email := t.email);
      }
      vouchers := vouchers[t.token := v];
    }

    method SynchronizePretixOrder(order: Order, s: Settings)
      modifies this
      ensures vouchers == Sync(old(vouchers), order, s)
    {
      hide TicketOf, Stored;
      if order.status == Pending {
        return;
      }
      if order.status == Canceled || order.status == Expired {
        vouchers := CancelOrder(vouchers, order.code);
        return;
      }
      ghost var tickets: seq<Ticket> := [];
      var secrets: set<string> := {};
      for i := 0 to |order.positions|
        invariant tickets == TicketsOf(order, order.positions[..i], s)
        invariant vouchers == StoreAll(old(vouchers), tickets)
        invariant secrets == Secrets(tickets)
      {
        assert order.positions[..i + 1][..i] == order.positions[..i];
        var p := order.positions[i];
        if IsTicket(p, s) {
          var t := TicketOf(order, p, s);
          var created := StoreExternalTicket(t);
          assert (tickets + [t])[..|tickets|] == tickets;
          OneMoreSecret(tickets, t);
          SecretIsToken(order, p, s);
          tickets := tickets + [t];
          secrets := secrets + {p.secret};
        }
      }
      assert order.positions[..|order.positions|] == order.positions;
      vouchers := CancelRemoved(vouchers, order.code, secrets);
    }
  }

  lemma SecretIsToken(order: Order, p: Position, s: Settings)
    ensures TicketOf(order, p, s).token == p.secret
  {
  }

  lemma OneMoreSecret(tickets: seq<Ticket>, t: Ticket)
    ensures Secrets(tickets + [t]) == Secrets(tickets) + {t.token}
  {
    var all := tickets + [t];
    forall x | x in Secrets(tickets) + {t.token} ensures x in Secrets(all) {
      if x in Secrets(tickets) {
        var i :| 0 <= i < |tickets| && tickets[i].token == x;
        assert all[i].token == x;
      } else {
        assert all[|tickets|].token == x;
      }
    }
    forall x | x in Secrets(all) ensures x in Secrets(tickets) + {t.token} {
      var i :| 0 <= i < |all| && all[i].token == x;
      assert i < |tickets| ==> tickets[i].token == x;
    }
  }

  // ---- syncing twice -----------------------------------------------------------------

  /** What a list of tickets does to the voucher of one token. */
  function Effect(v: Option<Voucher>, tickets: seq<Ticket>, token: string): Option<Voucher>
  {
    if tickets == [] then v
    else
      var before, t := Effect(v, tickets[..|tickets| - 1], token), tickets[|tickets| - 1];
      if t.token == token then Some(Stored(before, t)) else before
  }

  lemma {:induction false} StoreAllEffect(vs: Vouchers, tickets: seq<Ticket>, token: string)
    ensures Lookup(StoreAll(vs, tickets), token) == Effect(Lookup(vs, token), tickets, token)
  {
    hide Stored;
    if tickets != [] {
      StoreAllEffect(vs, tickets[..|tickets| - 1], token);
    }
  }

  /** The last ticket of the token, and the last name and email its tickets bring. */
  function LastTicket(tickets: seq<Ticket>, token: string): Option<Ticket>
  {
    if tickets == [] then None
    else
      var t := tickets[|tickets| - 1];
      if t.token == token then Some(t) else LastTicket(tickets[..|tickets| - 1], token)
  }

  function LastName(tickets: seq<Ticket>, token: string): Option<string>
  {
    if tickets == [] then None
    else
      var t := tickets[|tickets| - 1];
      Or(if t.token == token then t.name else None, LastName(tickets[..|tickets| - 1], token))
  }

  function LastEmail(tickets: seq<Ticket>, token: string): Option<string>
  {
    if tickets == [] then None
    else
      var t := tickets[|tickets| - 1];
      Or(if t.token == token then t.email else None, LastEmail(tickets[..|tickets| - 1], token))
  }

  function Final(v: Voucher, last: Ticket, name: Option<string>, email: Option<string>): Voucher
  {
    var u := v.(item := last.item, productName := last.productName);
    if v.checkedIn then u else u.(topUp := last.topUp, name := Or(name, v.name), email := Or(email, v.email))
  }

  /** The effect of a list of tickets on an existing voucher depends on the last one, the last name and the
      last email only. */
  lemma {:induction false} EffectOnExisting(v: Voucher, tickets: seq<Ticket>, token: string)
    ensures Effect(Some(v), tickets, token)
            == match LastTicket(tickets, token)
               case None => Some(v)
               case Some(last) => Some(Final(v, last, LastName(tickets, token), LastEmail(tickets, token)))
    ensures LastTicket(tickets, token).None? ==> LastName(tickets, token).None? && LastEmail(tickets, token).None?
  {
    if tickets != [] {
      EffectOnExisting(v, tickets[..|tickets| - 1], token);
    }
  }

  /** A new voucher is an empty one of the order that the tickets are then stored on. */
  lemma {:induction false} EffectOnNew(tickets: seq<Ticket>, token: string, reference: string)
    requires forall i :: 0 <= i < |tickets| ==> tickets[i].reference == reference
    ensures Effect(None, tickets, token)
            == if LastTicket(tickets, token).None? then None
               else Effect(Some(Voucher(reference, 0.0, 0, None, false, false, None, None)), tickets, token)
  {
    var blank := Voucher(reference, 0.0, 0, None, false, false, None, None);
    if tickets != [] {
      var front := tickets[..|tickets| - 1];
      EffectOnNew(front, token, reference);
      EffectOnExisting(blank, front, token);
    }
  }

  /** Storing the same tickets again changes nothing, even if several share a token. */
  lemma EffectTwice(v: Option<Voucher>, tickets: seq<Ticket>, token: string, reference: string)
    requires forall i :: 0 <= i < |tickets| ==> tickets[i].reference == reference
    ensures Effect(Effect(v, tickets, token), tickets, token) == Effect(v, tickets, token)
  {
    hide Effect;
    EffectOnNew(tickets, token, reference);
    var blank := Voucher(reference, 0.0, 0, None, false, false, None, None);
    var base := if v.Some? then v.value else blank;
    EffectOnExisting(base, tickets, token);
    if Effect(v, tickets, token).Some? {
      EffectOnExisting(Effect(v, tickets, token).value, tickets, token);
    }
  }

  lemma {:induction false} TicketsAreOfOrder(order: Order, positions: seq<Position>, s: Settings)
    ensures forall i :: 0 <= i < |TicketsOf(order, positions, s)| ==> TicketsOf(order, positions, s)[i].reference == order.code
  {
    if positions != [] {
      TicketsAreOfOrder(order, positions[..|positions| - 1], s);
    }
  }

  lemma {:induction false} UntouchedToken(v: Option<Voucher>, tickets: seq<Ticket>, token: string)
    requires token !in Secrets(tickets)
    ensures Effect(v, tickets, token) == v
  {
    if tickets != [] {
      var front, t := tickets[..|tickets| - 1], tickets[|tickets| - 1];
      assert tickets == front + [t];
      OneMoreSecret(front, t);
      UntouchedToken(v, front, token);
    }
  }

  lemma {:induction false} TouchedToken(v: Option<Voucher>, tickets: seq<Ticket>, token: string)
    requires token in Secrets(tickets)
    ensures Effect(v, tickets, token).Some?
  {
    var front, t := tickets[..|tickets| - 1], tickets[|tickets| - 1];
    assert tickets == front + [t];
    OneMoreSecret(front, t);
    if t.token != token {
      TouchedToken(v, front, token);
    }
  }

  /** The voucher of one token after a paid order was synchronised. */
  function PaidEffect(v: Option<Voucher>, tickets: seq<Ticket>, token: string, code: string): Option<Voucher>
  {
    if token in Secrets(tickets) then Effect(v, tickets, token)
    else if v.Some? && v.value.reference == code && !v.value.checkedIn then Some(v.value.(cancelled := true))
    else v
  }

  lemma PaidToken(vs: Vouchers, tickets: seq<Ticket>, token: string, code: string)
    ensures Lookup(CancelRemoved(StoreAll(vs, tickets), code, Secrets(tickets)), token)
            == PaidEffect(Lookup(vs, token), tickets, token, code)
  {
    hide Stored, StoreAll, Effect, Secrets;
    StoreAllEffect(vs, tickets, token);
    if token in Secrets(tickets) {
      TouchedToken(Lookup(vs, token), tickets, token);
    } else {
      UntouchedToken(Lookup(vs, token), tickets, token);
    }
  }

  lemma SameLookups(vs: Vouchers, ws: Vouchers)
    requires forall token :: Lookup(vs, token) == Lookup(ws, token)
    ensures vs == ws
  {
    forall t ensures t in vs <==> t in ws {
      assert Lookup(vs, t) == Lookup(ws, t);
    }
    forall t | t in vs ensures vs[t] == ws[t] {
      assert Lookup(vs, t) == Lookup(ws, t);
    }
  }

  /** Synchronising an unchanged order again changes nothing. */
  lemma SyncTwice(vs: Vouchers, order: Order, s: Settings)
    ensures Sync(Sync(vs, order, s), order, s) == Sync(vs, order, s)
  {
    hide StoreAll, CancelRemoved, TicketsOf, Effect, Secrets;
    if order.status == Paid {
      var tickets := TicketsOf(order, order.positions, s);
      TicketsAreOfOrder(order, order.positions, s);
      var once := Sync(vs, order, s);
      forall token ensures Lookup(Sync(once, order, s), token) == Lookup(once, token) {
        PaidToken(vs, tickets, token, order.code);
        PaidToken(once, tickets, token, order.code);
        EffectTwice(Lookup(vs, token), tickets, token, order.code);
      }
      SameLookups(Sync(once, order, s), once);
    }
  }

  // ---- what is never undone ----------------------------------------------------------

  /** What a synchronisation may do to a voucher. */
  predicate Respects(before: Voucher, after: Voucher)
  {
    && (before.cancelled ==> after.cancelled) && after.checkedIn == before.checkedIn && after.reference == before.reference
    && (before.checkedIn ==> after.topUp == before.topUp && after.name == before.name && after.email == before.email)
  }

  /** No voucher disappears, a cancellation is never undone, and amount, name and email are frozen once the
      customer has checked in. A checked-in voucher is cancelled if and only if its whole order was. */
  lemma SyncRespects(vs: Vouchers, order: Order, s: Settings, token: string)
    requires token in vs
    ensures token in Sync(vs, order, s) && Respects(vs[token], Sync(vs, order, s)[token])
    ensures vs[token].checkedIn && !vs[token].cancelled ==>
              (Sync(vs, order, s)[token].cancelled
               <==> (order.status == Canceled || order.status == Expired) && vs[token].reference == order.code)
  {
    hide StoreAll, TicketsOf, Effect, Secrets, CancelRemoved;
    if order.status == Paid {
      var tickets := TicketsOf(order, order.positions, s);
      PaidToken(vs, tickets, token, order.code);
      EffectOnExisting(vs[token], tickets, token);
      assert Lookup(Sync(vs, order, s), token).Some?;
    }
  }

  function SyncAll(vs: Vouchers, orders: seq<Order>, s: Settings): Vouchers
  {
    if orders == [] then vs else Sync(SyncAll(vs, orders[..|orders| - 1], s), orders[|orders| - 1], s)
  }

  /** The same over any sequence of orders, in whatever states they are reported. */
  lemma {:induction false} RunRespects(vs: Vouchers, orders: seq<Order>, s: Settings, token: string)
    requires token in vs
    ensures token in SyncAll(vs, orders, s) && Respects(vs[token], SyncAll(vs, orders, s)[token])
  {
    hide Sync;
    if orders != [] {
      RunRespects(vs, orders[..|orders| - 1], s, token);
      SyncRespects(SyncAll(vs, orders[..|orders| - 1], s), orders[|orders| - 1], s, token);
    }
  }

  /** Whatever is synchronised later, what a cancelled or expired order had by then stays cancelled. */
  lemma {:induction false} CancelledForGood(vs: Vouchers, orders: seq<Order>, s: Settings, k: nat, token: string)
    requires k < |orders| && (orders[k].status == Canceled || orders[k].status == Expired)
    requires var before := SyncAll(vs, orders[..k], s); token in before && before[token].reference == orders[k].code
    ensures token in SyncAll(vs, orders, s) && SyncAll(vs, orders, s)[token].cancelled
  {
    hide Sync;
    var front, last := orders[..|orders| - 1], orders[|orders| - 1];
    if k < |front| {
      assert front[..k] == orders[..k];
      CancelledForGood(vs, front, s, k, token);
      SyncRespects(SyncAll(vs, front, s), last, s, token);
    } else {
      OtherVouchers(SyncAll(vs, front, s), last, s, token);
    }
  }

  // ---- what a synchronised order leaves ----------------------------------------------

  /** A ticket position with this secret. */
  predicate HasSecret(p: Position, s: Settings, token: string) { p.item in s.ticketIds && p.secret == token }

  lemma OneMoreStored(tickets: seq<Ticket>, t: Ticket, token: string)
    ensures var all := tickets + [t];
            && LastTicket(all, token) == (if t.token == token then Some(t) else LastTicket(tickets, token))
            && LastName(all, token) == Or(if t.token == token then t.name else None, LastName(tickets, token))
            && LastEmail(all, token) == Or(if t.token == token then t.email else None, LastEmail(tickets, token))
            && (token in Secrets(all) <==> token in Secrets(tickets) || t.token == token)
  {
    assert (tickets + [t])[..|tickets|] == tickets;
    OneMoreSecret(tickets, t);
  }

  lemma OneMorePosition(order: Order, positions: seq<Position>, s: Settings)
    requires positions != []
    ensures var front, p := TicketsOf(order, positions[..|positions| - 1], s), positions[|positions| - 1];
            TicketsOf(order, positions, s) == if p.item in s.ticketIds then front + [TicketOf(order, p, s)] else front
  {
  }

  lemma NoTickets(order: Order, s: Settings, token: string)
    ensures var tickets := TicketsOf(order, [], s);
            && LastTicket(tickets, token).None? && LastName(tickets, token).None? && LastEmail(tickets, token).None?
            && token !in Secrets(tickets)
  {
  }

  lemma {:induction false} NoTicket(order: Order, positions: seq<Position>, s: Settings, token: string)
    requires forall j :: 0 <= j < |positions| ==> !HasSecret(positions[j], s, token)
    ensures var tickets := TicketsOf(order, positions, s);
            && LastTicket(tickets, token).None? && LastName(tickets, token).None? && LastEmail(tickets, token).None?
            && token !in Secrets(tickets)
  {
    hide TopUpFor, TicketsOf, LastTicket, LastName, LastEmail, Secrets;
    if positions == [] {
      NoTickets(order, s, token);
    } else {
      var front, p := positions[..|positions| - 1], positions[|positions| - 1];
      NoTicket(order, front, s, token);
      OneMorePosition(order, positions, s);
      assert !HasSecret(p, s, token);
      OneMoreStored(TicketsOf(order, front, s), TicketOf(order, p, s), token);
    }
  }

  lemma {:induction false} LastOfToken(order: Order, positions: seq<Position>, s: Settings, i: nat)
    requires i < |positions| && positions[i].item in s.ticketIds
    requires forall j :: i < j < |positions| ==> !HasSecret(positions[j], s, positions[i].secret)
    ensures var tickets, t := TicketsOf(order, positions, s), TicketOf(order, positions[i], s);
            && LastTicket(tickets, t.token) == Some(t) && t.token in Secrets(tickets)
            && (t.name.Some? ==> LastName(tickets, t.token) == t.name)
            && (t.email.Some? ==> LastEmail(tickets, t.token) == t.email)
            && ((forall j :: 0 <= j < i ==> !HasSecret(positions[j], s, positions[i].secret)) ==>
                  LastName(tickets, t.token) == t.name && LastEmail(tickets, t.token) == t.email)
  {
    hide TopUpFor, TicketsOf, LastTicket, LastName, LastEmail, Secrets;
    var front, p := positions[..|positions| - 1], positions[|positions| - 1];
    OneMorePosition(order, positions, s);
    OneMoreStored(TicketsOf(order, front, s), TicketOf(order, p, s), positions[i].secret);
    if i < |front| {
      assert front[i] == positions[i] && !HasSecret(p, s, positions[i].secret);
      LastOfToken(order, front, s, i);
    } else if forall j :: 0 <= j < i ==> !HasSecret(positions[j], s, positions[i].secret) {
      NoTicket(order, front, s, p.secret);
    }
  }

  /** The voucher of a position of a paid order, the last one with its secret: item and product name are the
      position's, and until check-in the amount is the sum of the top-ups attached to it, and name and email
      are the position's, or the order's if it has none; a cancelled voucher stays cancelled. */
  lemma PaidTicket(vs: Vouchers, order: Order, s: Settings, i: nat)
    requires order.status == Paid && i < |order.positions| && order.positions[i].item in s.ticketIds
    requires forall j :: i < j < |order.positions| ==> !HasSecret(order.positions[j], s, order.positions[i].secret)
    ensures var p := order.positions[i];
            && p.secret in Sync(vs, order, s)
            && var v := Sync(vs, order, s)[p.secret];
            && v.item == p.item
            && v.productName == (if p.item in s.productNames then Some(s.productNames[p.item]) else None)
            && (p.secret !in vs ==> v.reference == order.code && !v.cancelled && !v.checkedIn)
            && (p.secret in vs ==>
                  var was := vs[p.secret];
                  && v.reference == was.reference && v.cancelled == was.cancelled && v.checkedIn == was.checkedIn
                  && (v.checkedIn ==> v.topUp == was.topUp && v.name == was.name && v.email == was.email))
            && (!v.checkedIn ==>
                  && v.topUp == AttachedPrices(order.positions, [p], s)
                  && (p.name.Some? ==> v.name == p.name)
                  && (p.name.None? && order.name.Some? ==> v.name == order.name)
                  && (p.email.Some? ==> v.email == p.email)
                  && (p.email.None? && order.email.Some? ==> v.email == order.email))
  {
    hide StoreAll, TicketsOf, Effect, Secrets, CancelRemoved, TopUpFor, AttachedPrices, LastTicket, LastName, LastEmail;
    var p, tickets := order.positions[i], TicketsOf(order, order.positions, s);
    PaidToken(vs, tickets, p.secret, order.code);
    TicketsAreOfOrder(order, order.positions, s);
    LastOfToken(order, order.positions, s, i);
    EffectOnNew(tickets, p.secret, order.code);
    EffectOnExisting(Voucher(order.code, 0.0, 0, None, false, false, None, None), tickets, p.secret);
    if p.secret in vs {
      EffectOnExisting(vs[p.secret], tickets, p.secret);
    }
    NoTicketsNoPrices(order.positions, s);
    OneMoreTicket(order.positions, [], p, s);
    assert [] + [p] == [p];
    assert Lookup(Sync(vs, order, s), p.secret).Some?;
  }

  /** Where neither the position nor the order names anyone, the name and email the voucher had are kept. */
  lemma NamelessTicket(vs: Vouchers, order: Order, s: Settings, i: nat)
    requires order.status == Paid && i < |order.positions| && order.positions[i].item in s.ticketIds
    requires forall j :: 0 <= j < |order.positions| && j != i ==> !HasSecret(order.positions[j], s, order.positions[i].secret)
    ensures var p := order.positions[i];
            && p.secret in Sync(vs, order, s)
            && var v, had := Sync(vs, order, s)[p.secret], Lookup(vs, p.secret);
            && (p.name.None? && order.name.None? ==> v.name == if had.Some? then had.value.name else None)
            && (p.email.None? && order.email.None? ==> v.email == if had.Some? then had.value.email else None)
  {
    hide StoreAll, TicketsOf, Effect, Secrets, CancelRemoved, TopUpFor, LastTicket, LastName, LastEmail;
    var p, tickets := order.positions[i], TicketsOf(order, order.positions, s);
    PaidToken(vs, tickets, p.secret, order.code);
    TicketsAreOfOrder(order, order.positions, s);
    LastOfToken(order, order.positions, s, i);
    EffectOnNew(tickets, p.secret, order.code);
    EffectOnExisting(Voucher(order.code, 0.0, 0, None, false, false, None, None), tickets, p.secret);
    if p.secret in vs {
      EffectOnExisting(vs[p.secret], tickets, p.secret);
    }
    assert Lookup(Sync(vs, order, s), p.secret).Some?;
  }

  /** Every other voucher: a cancelled or expired order cancels all of its vouchers, checked in or not; a paid one
      cancels those of its vouchers that no position has any more and nobody has checked in with; a pending one
      none. Nothing else about them changes, and no voucher of another order is touched. */
  lemma OtherVouchers(vs: Vouchers, order: Order, s: Settings, token: string)
    requires order.status == Paid ==> forall j :: 0 <= j < |order.positions| ==> !HasSecret(order.positions[j], s, token)
    ensures token in Sync(vs, order, s) <==> token in vs
    ensures token in vs ==>
              var v, after := vs[token], Sync(vs, order, s)[token];
              match order.status
              case Pending => after == v
              case Paid => after == if v.reference == order.code && !v.checkedIn then v.(cancelled := true) else v
              case _ => after == if v.reference == order.code then v.(cancelled := true) else v
  {
    hide StoreAll, TicketsOf, Effect, Secrets, CancelRemoved;
    if order.status == Paid {
      NoTicket(order, order.positions, s, token);
      PaidToken(vs, TicketsOf(order, order.positions, s), token, order.code);
      assert Lookup(Sync(vs, order, s), token) == if token in vs then Some(Sync(vs, order, s)[token]) else None;
    }
  }
}
