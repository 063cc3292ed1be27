/** What every step of the signing protocol keeps, and what follows for whole runs. */
module SigningSafety {

  import opened Wrappers
  import opened Text
  import opened SignatureTable
  import opened Signing
  import D = VirtualTse

  // ---- the table ---------------------------------------------------------------------

  ghost predicate OnePendingPerTill(orders: Orders)
  {
    forall a, b ::
      && a in orders && b in orders && orders[a].till == orders[b].till
      && orders[a].status == Pending && orders[b].status == Pending
      ==> a == b
  }

  /** Orders of a till leave 'new' in the order they were booked. */
  ghost predicate Fifo(orders: Orders)
  {
    forall a, b ::
      && a in orders && b in orders && orders[a].till == orders[b].till
      && orders[a].status != New && orders[b].status == New
      ==> a < b
  }

  ghost predicate BookedInOrder(orders: Orders)
  {
    forall a, b ::
      && a in orders && b in orders && orders[a].till == orders[b].till && a < b
      ==> orders[a].bookedAt <= orders[b].bookedAt
  }

  predicate Closed(status: Status) { status == Done || status == Failure }

  /** The completion list holds exactly the closed orders, once each, per till in ascending order, and
      every completed order precedes the till's pending one. */
  ghost predicate CompletedInOrder(orders: Orders, completed: seq<OrderId>)
  {
    && (forall o :: o in completed <==> o in orders && Closed(orders[o].status))
    && (forall i, j ::
          && 0 <= i < j < |completed| && completed[i] in orders && completed[j] in orders
          && orders[completed[i]].till == orders[completed[j]].till
          ==> completed[i] < completed[j])
    && (forall c, p ::
          && c in orders && p in orders && orders[c].till == orders[p].till
          && Closed(orders[c].status) && orders[p].status == Pending
          ==> c < p)
  }

  ghost predicate TableInv(orders: Orders, tills: Tills, completed: seq<OrderId>)
  {
    && (forall o :: o in orders ==> orders[o].till in tills)
    && (forall o :: o in orders ==> (orders[o].status == New <==> orders[o].tse == None))
    && OnePendingPerTill(orders) && Fifo(orders) && BookedInOrder(orders)
    && CompletedInOrder(orders, completed)
  }

  // ---- one wrapper -------------------------------------------------------------------

  /** The order a wrapper works on is pending and carries its TSE. */
  ghost predicate Held(orders: Orders, w: TseId, o: OrderId)
  {
    o in orders && orders[o].status == Pending && orders[o].tse == Some(w)
  }

  /** The device signed exactly this order: its client, its data, the counter and time returned by the
      finish, and the number returned by the start or a later one. */
  ghost predicate Genuine(row: Row, g: Signature)
  {
    && g.signed == D.SignedFields(ClientOf(row.till), row.processData, row.processType, g.signed.number, g.counter,
                                  g.end.instant)
    && g.number <= g.signed.number
    && g.start.offset == D.START_OFFSET && g.end.offset == D.FINISH_OFFSET
  }

  ghost predicate LogInv(orders: Orders, w: TseId, x: Wrapper)
  {
    && (forall i :: 0 <= i < |x.log| ==>
          var c := x.log[i];
          && c.order in orders && orders[c.order].status == Done && orders[c.order].tse == Some(w)
          && orders[c.order].signature == Some(c.signature) && Genuine(orders[c.order], c.signature)
          && c.signature.number <= x.device.transnr && c.signature.counter <= x.device.signctr)
    && (forall i, j :: 0 <= i < j < |x.log| ==>
          && x.log[i].signature.number < x.log[j].signature.number
          && x.log[i].signature.counter < x.log[j].signature.counter)
    && (forall o :: o in orders && orders[o].status == Done && orders[o].tse == Some(w) ==>
          exists i :: 0 <= i < |x.log| && x.log[i].order == o)
  }

  /** Ids grow along the connection, answers before the requests still on their way. */
  ghost predicate QueueInv(x: Wrapper)
  {
    && (forall i :: 0 <= i < |x.toDevice| ==> x.toDevice[i].id < x.nextId)
    && (forall i :: 0 <= i < |x.toWrapper| ==> x.toWrapper[i].id < x.nextId)
    && (forall i, j :: 0 <= i < j < |x.toDevice| ==> x.toDevice[i].id < x.toDevice[j].id)
    && (forall i, j :: 0 <= i < |x.toWrapper| && 0 <= j < |x.toDevice| ==> x.toWrapper[i].id < x.toDevice[j].id)
  }

  /** Commands about the clients of the device. */
  predicate IsClientCommand(command: D.Command)
  {
    command.RegisterClientId? || command.DeregisterClientId? || command.GetDeviceStatus?
  }

  /** On the live connection such a command is always awaited. */
  ghost predicate AskedInv(x: Wrapper)
  {
    forall i :: 0 <= i < |x.toDevice| && IsClientCommand(x.toDevice[i].command) ==> Awaits(x.phase, x.toDevice[i].id)
  }

  ghost predicate AnswerInv(row: Row, x: Wrapper, reply: D.Reply)
  {
    match x.phase
    case Starting(_, _) =>
      reply.Started? ==>
        && reply.number <= x.device.transnr && reply.logTime.offset == D.START_OFFSET
        && (forall i :: 0 <= i < |x.log| ==> x.log[i].signature.number < reply.number)
    case Finishing(_, n, start, _) =>
      reply.Finished? ==>
        && reply.counter <= x.device.signctr
        && (forall i :: 0 <= i < |x.log| ==> x.log[i].signature.counter < reply.counter)
        && Genuine(row, Signature(n, reply.counter, start, reply.logTime, reply.signed))
    case _ => true
  }

  /** While an answer is awaited: its request is the command of the phase, and nothing but pings was
      sent after it. */
  ghost predicate WaitInv(row: Row, x: Wrapper, password: string)
    requires x.phase.Registering? || x.phase.Starting? || x.phase.Finishing?
  {
    && x.phase.id < x.nextId
    && (forall i :: 0 <= i < |x.toDevice| ==>
          && (x.toDevice[i].id == x.phase.id ==> x.toDevice[i].command == CommandFor(row, x.phase, password))
          && (x.toDevice[i].id > x.phase.id ==> x.toDevice[i].command.PingPong?))
    && (forall i :: 0 <= i < |x.toWrapper| && x.toWrapper[i].id == x.phase.id ==> AnswerInv(row, x, x.toWrapper[i].reply))
    && (x.phase.Registering? <==> ClientOf(row.till) !in x.tills)
    && (x.phase.Finishing? ==>
          && x.phase.number <= x.device.transnr && x.phase.start.offset == D.START_OFFSET
          && (forall i :: 0 <= i < |x.log| ==> x.log[i].signature.number < x.phase.number)
          && (forall i :: 0 <= i < |x.toDevice| && x.toDevice[i].id != x.phase.id ==> x.toDevice[i].command.PingPong?))
  }

  /** While a wrapper finds out about its clients, nothing but pings and its own question is under way; while it
      changes them, what it knows, what is to do and what is wanted fit together. */
  ghost predicate SetupInv(x: Wrapper, password: string)
  {
    match x.phase
    case Asking(id) =>
      && id < x.nextId
      && forall i :: 0 <= i < |x.toDevice| ==>
           x.toDevice[i].command == if x.toDevice[i].id == id then AskStatus(password) else D.PingPong
    case Informed => forall i :: 0 <= i < |x.toDevice| ==> x.toDevice[i].command == D.PingPong
    case Syncing(_, todo, sent) =>
      && SyncInv(x) && (sent.Some? ==> todo != [] && sent.value < x.nextId)
      && (forall i :: 0 <= i < |x.toDevice| ==>
            x.toDevice[i].command
            == if sent == Some(x.toDevice[i].id) && todo != [] then OpCommand(todo[0], password) else D.PingPong)
    case _ => true
  }

  ghost predicate SyncInv(x: Wrapper)
    requires x.phase.Syncing?
  {
    var known, todo := x.tills, x.phase.todo;
    && Added(todo) !! known && Removed(todo) <= known && Added(todo) !! Removed(todo)
    && (known - Removed(todo)) + Added(todo) == x.phase.wanted
    && (forall i, j :: 0 <= i < j < |todo| ==> todo[i] != todo[j])
  }

  ghost predicate WrapperInv(orders: Orders, w: TseId, x: Wrapper, password: string)
  {
    && x.device.Inv()
    && QueueInv(x) && AskedInv(x)
    && LogInv(orders, w, x)
    && (x.phase.Disconnected? ==> x.toDevice == [] && x.toWrapper == [])
    && SetupInv(x, password)
    && (x.phase.Holds() ==>
          && Held(orders, w, x.phase.order)
          && (!x.phase.Grabbed? ==> WaitInv(orders[x.phase.order], x, password)))
  }

  /** Among the orders one TSE signed, transaction numbers and signature counters grow in the order
      of completion. */
  ghost predicate NumbersGrow(orders: Orders, completed: seq<OrderId>)
  {
    forall i, j ::
      && 0 <= i < j < |completed| && SignedBySame(orders, completed[i], completed[j])
      ==> && orders[completed[i]].signature.value.number < orders[completed[j]].signature.value.number
          && orders[completed[i]].signature.value.counter < orders[completed[j]].signature.value.counter
  }

  predicate SignedBySame(orders: Orders, a: OrderId, b: OrderId)
  {
    && a in orders && b in orders && orders[a].status == Done && orders[b].status == Done
    && orders[a].tse == orders[b].tse && orders[a].signature.Some? && orders[b].signature.Some?
  }

  ghost predicate KnownTses(orders: Orders, tses: set<TseId>)
  {
    forall o :: o in orders && orders[o].tse.Some? ==> orders[o].tse.value in tses
  }

  ghost predicate WrappersInv(s: State)
  {
    forall w :: w in s.wrappers ==> WrapperInv(s.orders, w, s.wrappers[w], s.password)
  }

  ghost predicate Inv(s: State)
  {
    && TableInv(s.orders, s.tills, s.completed)
    && NumbersGrow(s.orders, s.completed)
    && KnownTses(s.orders, s.wrappers.Keys)
    && WrappersInv(s)
  }

  // ---- framing: a wrapper only depends on the rows that carry its TSE -----------------

  ghost predicate SameRows(orders: Orders, orders': Orders, w: TseId)
  {
    && (forall o :: o in orders && orders[o].tse == Some(w) ==> o in orders' && orders'[o] == orders[o])
    && (forall o :: o in orders' && orders'[o].tse == Some(w) && orders'[o].status == Done ==>
          o in orders && orders'[o] == orders[o])
  }

  lemma Frame(orders: Orders, orders': Orders, w: TseId, x: Wrapper, password: string)
    requires WrapperInv(orders, w, x, password) && SameRows(orders, orders', w)
    ensures WrapperInv(orders', w, x, password)
  {
  }

  // ---- the table under each statement ------------------------------------------------

  lemma TableBook(orders: Orders, tills: Tills, completed: seq<OrderId>, o: OrderId, row: Row)
    requires TableInv(orders, tills, completed)
    requires row.status == New && row.tse == None && row.till in tills
    requires forall p :: p in orders ==> p < o
    requires forall p :: p in orders && orders[p].till == row.till ==> orders[p].bookedAt <= row.bookedAt
    ensures TableInv(orders[o := row], tills, completed)
  {
  }

  lemma TableClaim(orders: Orders, tills: Tills, completed: seq<OrderId>, o: OrderId, w: TseId)
    requires TableInv(orders, tills, completed) && Next(orders, tills, w, o)
    ensures TableInv(Claim(orders, o, w), tills, completed)
  {
    var orders' := Claim(orders, o, w);
    assert OnePendingPerTill(orders');
    assert Fifo(orders') by {
      // every other new order of this till was takeable too, and o is the least of them
      forall b | b in orders' && orders'[b].till == orders[o].till && orders'[b].status == New ensures o < b {
        assert Eligible(orders, tills, w, b);
      }
    }
  }

  /** Closing a pending order: completed with a signature or failed. */
  lemma TableClose(orders: Orders, tills: Tills, completed: seq<OrderId>, o: OrderId, row: Row)
    requires TableInv(orders, tills, completed) && o in orders && orders[o].status == Pending
    requires row.till == orders[o].till && row.bookedAt == orders[o].bookedAt && Closed(row.status)
    requires row.tse == orders[o].tse
    ensures TableInv(orders[o := row], tills, completed + [o])
  {
    var orders', completed' := orders[o := row], completed + [o];
    assert CompletedInOrder(orders', completed') by {
      forall x ensures x in completed' <==> x in orders' && Closed(orders'[x].status) {
        assert x in completed' <==> x in completed || x == o;
      }
      forall i | 0 <= i < |completed| && completed[i] in orders && orders[completed[i]].till == row.till
        ensures completed[i] < o
      {
        assert completed[i] in completed;
      }
    }
  }

  lemma TableRestart(orders: Orders, tills: Tills, completed: seq<OrderId>)
    requires TableInv(orders, tills, completed)
    ensures TableInv(FailPending(orders), tills, completed + Ascending(PendingOrders(orders)))
  {
    hide Ascending, CompletedInOrder;
    CompletedMany(orders, FailPending(orders), completed, PendingOrders(orders));
  }

  /** An order booked no later than a stale one of the same till is swept with it. */
  lemma StaleIsDownward(orders: Orders, tills: Tills, w: TseId, now: int, a: OrderId, b: OrderId)
    requires BookedInOrder(orders) && a in Stale(orders, tills, w, now) && b in orders && b <= a
    requires orders[b].till == orders[a].till && orders[b].status == New
    ensures b in Stale(orders, tills, w, now)
  {
    assert Eligible(orders, tills, w, b);
  }

  lemma TableSweep(orders: Orders, tills: Tills, completed: seq<OrderId>, w: TseId, now: int)
    requires TableInv(orders, tills, completed)
    ensures var stale := Stale(orders, tills, w, now);
            TableInv(FailAll(orders, stale, w), tills, completed + Ascending(stale))
  {
    var stale := Stale(orders, tills, w, now);
    var orders' := FailAll(orders, stale, w);
    hide Ascending, CompletedInOrder;
    assert Fifo(orders') by {
      forall a, b |
        && a in orders' && b in orders' && orders'[a].till == orders'[b].till
        && orders'[a].status != New && orders'[b].status == New
        ensures a < b
      {
        if a in stale && b <= a {
          StaleIsDownward(orders, tills, w, now, a, b);
        }
      }
    }
    forall a | a in stale ensures !TillIsSigning(orders, orders[a].till) {
    }
    CompletedMany(orders, orders', completed, stale);
  }

  /** A whole set of orders is closed at once. */
  lemma CompletedMany(orders: Orders, orders': Orders, completed: seq<OrderId>, more: set<OrderId>)
    requires CompletedInOrder(orders, completed) && Fifo(orders)
    requires orders'.Keys == orders.Keys && more <= orders.Keys
    requires forall o :: o in orders ==>
               && orders'[o].till == orders[o].till
               && (o !in more ==> orders'[o].status == orders[o].status)
               && (o in more ==> !Closed(orders[o].status) && Closed(orders'[o].status))
    requires forall o, p ::
               && o in more && p in orders && orders[p].till == orders[o].till && orders[p].status == Pending
               ==> p in more
    ensures CompletedInOrder(orders', completed + Ascending(more))
  {
    hide Ascending, Fifo;
    var tail := Ascending(more);
    var completed' := completed + tail;
    ManyInOrder(orders, orders', completed, more, tail);
    forall x ensures x in completed' <==> x in orders' && Closed(orders'[x].status) {
      assert x in completed' <==> x in completed || x in tail;
    }
    forall c, p |
      && c in orders' && p in orders' && orders'[c].till == orders'[p].till
      && Closed(orders'[c].status) && orders'[p].status == Pending
      ensures c < p
    {
      assert p !in more && orders[p].status == Pending && c !in more;
    }
  }

  /** Closed orders precede those that were not closed yet, and the newly closed ones come in ascending order. */
  lemma ManyInOrder(orders: Orders, orders': Orders, completed: seq<OrderId>, more: set<OrderId>, tail: seq<OrderId>)
    requires CompletedInOrder(orders, completed) && Fifo(orders)
    requires orders'.Keys == orders.Keys && more <= orders.Keys
    requires forall o :: o in orders ==> orders'[o].till == orders[o].till
    requires forall o :: o in more ==> !Closed(orders[o].status)
    requires forall x :: x in tail <==> x in more
    requires forall i, j :: 0 <= i < j < |tail| ==> tail[i] < tail[j]
    ensures forall i, j ::
              && 0 <= i < j < |completed + tail| && (completed + tail)[i] in orders' && (completed + tail)[j] in orders'
              && orders'[(completed + tail)[i]].till == orders'[(completed + tail)[j]].till
              ==> (completed + tail)[i] < (completed + tail)[j]
  {
    var all := completed + tail;
    forall i, j | 0 <= i < j < |all| && all[i] in orders' && all[j] in orders' && orders'[all[i]].till == orders'[all[j]].till
      ensures all[i] < all[j]
    {
      if i >= |completed| {
        assert all[i] == tail[i - |completed|] && all[j] == tail[j - |completed|];
      } else if j >= |completed| {
        assert all[i] in completed && all[j] in tail;
        ClosedFirst(orders, completed, all[i], all[j]);
      }
    }
  }

  lemma ClosedFirst(orders: Orders, completed: seq<OrderId>, c: OrderId, o: OrderId)
    requires CompletedInOrder(orders, completed) && Fifo(orders)
    requires c in completed && o in orders && orders[c].till == orders[o].till && !Closed(orders[o].status)
    ensures c < o
  {
    assert Closed(orders[c].status);
    assert orders[o].status == Pending || orders[o].status == New;
  }

  // ---- one wrapper under its own steps -----------------------------------------------

  lemma ClientIsVisible(till: TillId)
    ensures !Hidden(ClientOf(till))
  {
    PrintIntParses(till);
    assert ClientOf(till)[0] != 'D';
    assert D.DUMMY_CLIENT[0] == 'D' && "DN TSEProduction"[0] == 'D';
  }

  lemma ClientsDiffer(a: TillId, b: TillId)
    requires a != b
    ensures ClientOf(a) != ClientOf(b)
  {
    PrintIntParses(a);
    PrintIntParses(b);
  }

  lemma PingWrapper(orders: Orders, w: TseId, x: Wrapper, password: string)
    requires WrapperInv(orders, w, x, password) && !x.phase.Disconnected?
    ensures WrapperInv(orders, w, SendPing(x), password)
  {
    hide LogInv, CommandFor, Genuine, SyncInv;
    var y := SendPing(x);
    SameSync(x, y);
    SameLog(orders, w, x, y);
    if x.phase.Holds() && !x.phase.Grabbed? {
      assert WaitInv(orders[x.phase.order], y, password);
    }
  }

  lemma SameSync(x: Wrapper, y: Wrapper)
    requires x.phase.Syncing? ==> SyncInv(x)
    ensures y.phase == x.phase && y.tills == x.tills && x.phase.Syncing? ==> SyncInv(y)
  {
  }

  /** Sending the next command when everything still on its way is old. */
  lemma SendWrapper(orders: Orders, w: TseId, x: Wrapper, phase: Phase, password: string)
    requires WrapperInv(orders, w, x, password)
    requires phase.Registering? || phase.Starting? || phase.Finishing?
    requires phase.id == x.nextId && Held(orders, w, phase.order)
    requires phase.Registering? <==> ClientOf(orders[phase.order].till) !in x.tills
    requires forall i :: 0 <= i < |x.toDevice| ==> !IsClientCommand(x.toDevice[i].command)
    requires phase.Finishing? ==>
               && phase.number <= x.device.transnr && phase.start.offset == D.START_OFFSET
               && (forall i :: 0 <= i < |x.log| ==> x.log[i].signature.number < phase.number)
               && (forall i :: 0 <= i < |x.toDevice| ==> x.toDevice[i].command.PingPong?)
    ensures WrapperInv(orders, w, Send(x, phase, orders[phase.order], password), password)
  {
    hide LogInv, Genuine, SyncInv, ClientOf, D.OpenNumbers, D.Disjoint;
    var row, y := orders[phase.order], Send(x, phase, orders[phase.order], password);
    SameLog(orders, w, x, y);
    assert QueueInv(y) && AskedInv(y);
    assert WaitInv(row, y, password) by {
      forall i | 0 <= i < |y.toDevice| ensures y.toDevice[i].id < phase.id || i == |x.toDevice| {
      }
    }
  }

  lemma DisconnectWrapper(orders: Orders, w: TseId, x: Wrapper, password: string)
    requires x.device.Inv() && LogInv(orders, w, x)
    ensures WrapperInv(orders, w, Disconnect(x), password)
  {
  }

  /** The device executes the oldest request: the heart of the protocol's safety. */
  lemma DeviceWrapper(orders: Orders, w: TseId, x: Wrapper, password: string, now: int)
    requires WrapperInv(orders, w, x, password) && x.toDevice != []
    ensures WrapperInv(orders, w, Deliver(x, now), password)
  {
    hide Genuine, SyncInv, D.OpenNumbers, D.Disjoint;
    var head, y := x.toDevice[0], Deliver(x, now);
    D.ActKeeps(x.device, head.command, now);
    if x.phase.Holds() && !x.phase.Grabbed? {
      DeviceAnswers(orders[x.phase.order], orders, w, x, password, now);
    }
    hide D.Act, WaitInv;
    SameSync(x, y);
    assert QueueInv(y) && AskedInv(y);
    assert LogInv(orders, w, y);
  }

  /** The answer to the awaited command says what the phase needs. */
  lemma FreshAnswer(row: Row, x: Wrapper, y: Wrapper, password: string, now: int)
    requires x.phase.Registering? || x.phase.Starting? || x.phase.Finishing?
    requires x.device.Inv() && y.phase == x.phase && y.log == x.log
    requires forall i :: 0 <= i < |x.log| ==>
               x.log[i].signature.number <= x.device.transnr && x.log[i].signature.counter <= x.device.signctr
    requires x.phase.Finishing? ==> x.phase.number <= x.device.transnr && x.phase.start.offset == D.START_OFFSET
    requires y.device == D.Act(x.device, CommandFor(row, x.phase, password), now).0
    ensures AnswerInv(row, y, D.Act(x.device, CommandFor(row, x.phase, password), now).1)
  {
    hide D.OpenNumbers, D.Disjoint, D.ClientIdMatches;
    D.ActKeeps(x.device, CommandFor(row, x.phase, password), now);
  }

  lemma DeviceAnswers(row: Row, orders: Orders, w: TseId, x: Wrapper, password: string, now: int)
    requires WrapperInv(orders, w, x, password) && x.toDevice != []
    requires x.phase.Registering? || x.phase.Starting? || x.phase.Finishing?
    requires row == orders[x.phase.order]
    ensures WaitInv(row, Deliver(x, now), password)
  {
    var head, y := x.toDevice[0], Deliver(x, now);
    assert x.phase.Finishing? && head.id == x.phase.id ==> y.device.transnr == x.device.transnr;
    if head.id == x.phase.id {
      FreshAnswer(row, x, y, password, now);
    } else if i :| 0 <= i < |x.toWrapper| && x.toWrapper[i].id == x.phase.id {
      // the awaited answer is already under way, so only pings can still reach the device
      assert head.command.PingPong?;
      assert y.device == x.device;
    }
    forall i | 0 <= i < |y.toWrapper| && y.toWrapper[i].id == y.phase.id
      ensures AnswerInv(row, y, y.toWrapper[i].reply)
    {
      assert i < |x.toWrapper| ==> AnswerInv(row, x, x.toWrapper[i].reply);
    }
  }

  /** Once its answer has arrived, the awaited command is no longer on its way. */
  lemma NothingAsked(x: Wrapper)
    requires QueueInv(x) && AskedInv(x)
    requires x.toWrapper != [] && Awaits(x.phase, x.toWrapper[0].id)
    ensures forall i :: 0 <= i < |x.toDevice| ==> !IsClientCommand(x.toDevice[i].command)
    ensures forall i :: 0 <= i < |x.toDevice| ==> !Awaits(x.phase, x.toDevice[i].id)
  {
  }

  /** The till is registered: now the start can be sent. */
  lemma RegisteredWrapper(orders: Orders, w: TseId, x: Wrapper, password: string)
    requires WrapperInv(orders, w, x, password) && x.toWrapper != []
    requires x.phase.Registering? && Awaits(x.phase, x.toWrapper[0].id)
    ensures var row, y := orders[x.phase.order], x.(toWrapper := x.toWrapper[1..], tills := x.tills + {ClientOf(orders[x.phase.order].till)});
            WrapperInv(orders, w, Send(y, Starting(x.phase.order, y.nextId), row, password), password)
  {
    hide LogInv, Genuine, SyncInv, CommandFor, ClientOf, D.OpenNumbers, D.Disjoint;
    var row, o := orders[x.phase.order], x.phase.order;
    var y := x.(toWrapper := x.toWrapper[1..], tills := x.tills + {ClientOf(row.till)});
    NothingAsked(x);
    var idle := y.(phase := Idle);
    SameLog(orders, w, x, idle);
    SendWrapper(orders, w, idle, Starting(o, y.nextId), password);
    assert Send(idle, Starting(o, y.nextId), row, password) == Send(y, Starting(o, y.nextId), row, password);
  }

  /** The transaction is started: now its finish can be sent. */
  lemma StartedWrapper(orders: Orders, w: TseId, x: Wrapper, password: string)
    requires WrapperInv(orders, w, x, password) && x.toWrapper != []
    requires x.phase.Starting? && Awaits(x.phase, x.toWrapper[0].id) && x.toWrapper[0].reply.Started?
    ensures var row, reply, y := orders[x.phase.order], x.toWrapper[0].reply, x.(toWrapper := x.toWrapper[1..]);
            WrapperInv(orders, w, Send(y, Finishing(x.phase.order, reply.number, reply.logTime, y.nextId), row, password),
                       password)
  {
    hide LogInv, Genuine, SyncInv, CommandFor, ClientOf, D.OpenNumbers, D.Disjoint;
    var row, reply, y := orders[x.phase.order], x.toWrapper[0].reply, x.(toWrapper := x.toWrapper[1..]);
    assert AnswerInv(row, x, reply);
    NothingAsked(x);
    var idle, next := y.(phase := Idle), Finishing(x.phase.order, reply.number, reply.logTime, y.nextId);
    SameLog(orders, w, x, idle);
    SendWrapper(orders, w, idle, next, password);
    assert Send(idle, next, row, password) == Send(y, next, row, password);
  }

  /** An answer arrives that does not complete a signature. */
  lemma ReceiveWrapper(orders: Orders, w: TseId, x: Wrapper, password: string)
    requires WrapperInv(orders, w, x, password) && x.toWrapper != []
    requires Awaits(x.phase, x.toWrapper[0].id) && x.phase.Holds()
    ensures var y := x.(toWrapper := x.toWrapper[1..]);
            var (z, signature) := React(y, orders[x.phase.order], x.toWrapper[0].reply, password);
            signature.None? ==> WrapperInv(orders, w, z, password)
  {
    hide LogInv, QueueInv, WaitInv, CommandFor, ClientOf, D.OpenNumbers, D.Disjoint;
    var reply, y := x.toWrapper[0].reply, x.(toWrapper := x.toWrapper[1..]);
    if x.phase.Registering? && reply.Success? {
      RegisteredWrapper(orders, w, x, password);
    } else if x.phase.Starting? && reply.Started? {
      StartedWrapper(orders, w, x, password);
    } else {
      SameLog(orders, w, x, y);
      DisconnectWrapper(orders, w, y, password);
    }
  }

  /** An answer nobody waits for any more is dropped. */
  lemma SkipWrapper(orders: Orders, w: TseId, x: Wrapper, password: string)
    requires WrapperInv(orders, w, x, password) && x.toWrapper != []
    ensures WrapperInv(orders, w, x.(toWrapper := x.toWrapper[1..]), password)
  {
    var y := x.(toWrapper := x.toWrapper[1..]);
    if x.phase.Holds() && !x.phase.Grabbed? {
      var row := orders[x.phase.order];
      forall i | 0 <= i < |y.toWrapper| && y.toWrapper[i].id == y.phase.id
        ensures AnswerInv(row, y, y.toWrapper[i].reply)
      {
        assert AnswerInv(row, x, x.toWrapper[i + 1].reply);
      }
    }
  }

  /** The finish is answered: number and counter are larger than in every earlier completion. */
  lemma DoneWrapper(orders: Orders, w: TseId, x: Wrapper, password: string)
    requires WrapperInv(orders, w, x, password) && x.toWrapper != []
    requires Awaits(x.phase, x.toWrapper[0].id) && x.phase.Holds()
    ensures var y := x.(toWrapper := x.toWrapper[1..]);
            var (z, signature) := React(y, orders[x.phase.order], x.toWrapper[0].reply, password);
            signature.Some? ==> WrapperInv(Complete(orders, x.phase.order, signature.value), w, z, password)
  {
    hide LogInv;
    var o, row, reply := x.phase.order, orders[x.phase.order], x.toWrapper[0].reply;
    var (z, signature) := React(x.(toWrapper := x.toWrapper[1..]), row, reply, password);
    NothingAsked(x);
    if signature.Some? {
      assert AnswerInv(row, x, reply);
      DoneLog(orders, w, x, z, o, signature.value);
    }
  }

  lemma GenuineStays(row: Row, g: Signature)
    requires Genuine(row, g)
    ensures Genuine(row.(status := Done, signature := Some(g)), g)
  {
  }

  /** One more completion: its number and counter are the largest so far. */
  lemma DoneLog(orders: Orders, w: TseId, x: Wrapper, z: Wrapper, o: OrderId, g: Signature)
    requires LogInv(orders, w, x) && Held(orders, w, o) && Genuine(orders[o], g)
    requires z.log == x.log + [Completion(o, g)] && z.device == x.device
    requires g.number <= x.device.transnr && g.counter <= x.device.signctr
    requires forall i :: 0 <= i < |x.log| ==> x.log[i].signature.number < g.number && x.log[i].signature.counter < g.counter
    ensures LogInv(Complete(orders, o, g), w, z)
  {
    hide Genuine;
    GenuineStays(orders[o], g);
    var orders' := Complete(orders, o, g);
    forall p | p in orders' && orders'[p].status == Done && orders'[p].tse == Some(w)
      ensures exists i :: 0 <= i < |z.log| && z.log[i].order == p
    {
      if p == o {
        assert z.log[|x.log|].order == p;
      } else {
        var i :| 0 <= i < |x.log| && x.log[i].order == p;
        assert z.log[i].order == p;
      }
    }
  }

  lemma SyncTail(todo: seq<SyncOp>)
    requires todo != [] && forall i, j :: 0 <= i < j < |todo| ==> todo[i] != todo[j]
    requires Added(todo) !! Removed(todo)
    ensures todo[0].Add? ==> Added(todo[1..]) == Added(todo) - {ClientOf(todo[0].till)}
                             && Removed(todo[1..]) == Removed(todo)
    ensures todo[0].Remove? ==> Removed(todo[1..]) == Removed(todo) - {todo[0].client}
                                && Added(todo[1..]) == Added(todo)
  {
    var head, tail := todo[0], todo[1..];
    assert todo == [head] + tail;
    assert head !in tail;
    if head.Add? {
      forall op | op in tail && op.Add? ensures ClientOf(op.till) != ClientOf(head.till) {
        ClientsDiffer(op.till, head.till);
      }
    }
  }

  /** Reconciling one client: what is known changes by it, and the list loses it. */
  lemma SyncSets(known: set<string>, added: set<string>, removed: set<string>, client: string)
    requires added !! known && removed <= known && added !! removed
    ensures client in added ==>
              && (added - {client}) !! (known + {client}) && removed <= known + {client}
              && ((known + {client}) - removed) + (added - {client}) == (known - removed) + added
    ensures client in removed ==>
              && added !! (known - {client}) && removed - {client} <= known - {client}
              && ((known - {client}) - (removed - {client})) + added == (known - removed) + added
  {
  }

  /** A change is confirmed. */
  lemma SyncConfirmed(x: Wrapper, y: Wrapper)
    requires x.phase.Syncing? && SyncInv(x) && x.phase.todo != []
    requires y.phase == x.phase.(todo := x.phase.todo[1..], sent := None) && y.tills == After(x.tills, x.phase.todo[0])
    ensures SyncInv(y)
  {
    var todo := x.phase.todo;
    SyncTail(todo);
    assert todo[0] in todo;
    match todo[0]
    case Add(till) =>
      assert ClientOf(till) in Added(todo);
      SyncSets(x.tills, Added(todo), Removed(todo), ClientOf(till));
    case Remove(client) =>
      assert client in Removed(todo);
      SyncSets(x.tills, Added(todo), Removed(todo), client);
  }

  lemma SameLog(orders: Orders, w: TseId, x: Wrapper, y: Wrapper)
    requires LogInv(orders, w, x)
    requires y.log == x.log && y.device.transnr == x.device.transnr && y.device.signctr == x.device.signctr
    ensures LogInv(orders, w, y)
  {
  }

  /** The answer to the question about the clients, or to a change of them. */
  lemma SyncAnswerWrapper(orders: Orders, w: TseId, x: Wrapper, password: string)
    requires WrapperInv(orders, w, x, password) && x.toWrapper != []
    requires Awaits(x.phase, x.toWrapper[0].id) && !x.phase.Holds()
    ensures WrapperInv(orders, w, ReactSync(x.(toWrapper := x.toWrapper[1..]), x.toWrapper[0].reply), password)
  {
    hide LogInv, SyncInv, OpCommand, After, Visible, D.OpenNumbers, D.Disjoint;
    var y := x.(toWrapper := x.toWrapper[1..]);
    var z := ReactSync(y, x.toWrapper[0].reply);
    NothingAsked(x);
    SameLog(orders, w, x, z);
    if z.phase.Syncing? {
      SyncConfirmed(x, z);
    }
  }

  lemma AskWrapper(orders: Orders, w: TseId, x: Wrapper, password: string)
    requires WrapperInv(orders, w, x, password) && x.phase.Disconnected?
    ensures WrapperInv(orders, w, Ask(x, password), password)
  {
    hide LogInv, D.OpenNumbers, D.Disjoint;
    SameLog(orders, w, x, Ask(x, password));
  }

  lemma PlanWrapper(orders: Orders, w: TseId, x: Wrapper, password: string, tills: Tills, todo: seq<SyncOp>)
    requires WrapperInv(orders, w, x, password) && x.phase.Informed? && SyncPlan(tills, w, x.tills, todo)
    ensures WrapperInv(orders, w, x.(phase := Syncing(AssignedClients(tills, w), todo, None)), password)
  {
    hide LogInv, D.OpenNumbers, D.Disjoint, AssignedClients, Added, Removed;
    var y := x.(phase := Syncing(AssignedClients(tills, w), todo, None));
    SameLog(orders, w, x, y);
    assert SyncInv(y);
  }

  lemma SendOpWrapper(orders: Orders, w: TseId, x: Wrapper, password: string)
    requires WrapperInv(orders, w, x, password) && x.phase.Syncing? && x.phase.todo != [] && x.phase.sent.None?
    ensures WrapperInv(orders, w, SendOp(x, password), password)
  {
    hide LogInv, OpCommand, D.OpenNumbers, D.Disjoint;
    SameLog(orders, w, x, SendOp(x, password));
  }

  /** A request of a lost connection reaches the device: it may issue a number or change the clients, but takes
      nothing away that the numbers of the orders rely on. */
  lemma LateWrapper(orders: Orders, w: TseId, x: Wrapper, password: string, k: nat, now: int)
    requires WrapperInv(orders, w, x, password) && k < |x.adrift|
    ensures WrapperInv(orders, w, DeliverLate(x, k, now), password)
  {
    hide D.OpenNumbers, D.Disjoint, SyncInv;
    var command, y := x.adrift[k].command, DeliverLate(x, k, now);
    D.ActKeeps(x.device, command, now);
    hide D.Act;
    SameSync(x, y);
    assert LogInv(orders, w, y);
    if x.phase.Holds() && !x.phase.Grabbed? {
      var row := orders[x.phase.order];
      forall i | 0 <= i < |y.toWrapper| && y.toWrapper[i].id == y.phase.id
        ensures AnswerInv(row, y, y.toWrapper[i].reply)
      {
        assert AnswerInv(row, x, x.toWrapper[i].reply);
      }
    }
  }

  // ---- every step of the system ------------------------------------------------------

  /** Rows may change only from 'new' or while they carry the TSE of the wrapper that acts; then it
      is enough to look at that wrapper. */
  lemma ActingWrapper(s: State, s': State, w: TseId)
    requires WrappersInv(s) && w in s.wrappers && s.orders.Keys <= s'.orders.Keys && s'.password == s.password
    requires w in s'.wrappers && s'.wrappers == s.wrappers[w := s'.wrappers[w]]
    requires forall o :: o in s'.orders && o !in s.orders ==> s'.orders[o].tse == None
    requires forall o :: o in s.orders && s'.orders[o] != s.orders[o] ==>
               (s.orders[o].tse == None || s.orders[o].tse == Some(w)) && s'.orders[o].tse == Some(w)
    requires WrapperInv(s'.orders, w, s'.wrappers[w], s.password)
    ensures WrappersInv(s')
  {
    forall v | v in s'.wrappers ensures WrapperInv(s'.orders, v, s'.wrappers[v], s'.password) {
      if v != w {
        Frame(s.orders, s'.orders, v, s.wrappers[v], s.password);
      }
    }
  }

  lemma SameSignatures(orders: Orders, orders': Orders, completed: seq<OrderId>, more: seq<OrderId>)
    requires NumbersGrow(orders, completed) && orders.Keys <= orders'.Keys
    requires forall o :: o in completed ==> o in orders
    requires forall o :: o in orders && orders'[o].status == Done ==> orders'[o] == orders[o]
    requires forall o :: o in more ==> o in orders' && orders'[o].status != Done
    ensures NumbersGrow(orders', completed + more)
  {
    var all := completed + more;
    forall j | |completed| <= j < |all| ensures all[j] in more {
    }
    forall i, j | 0 <= i < j < |all| && SignedBySame(orders', all[i], all[j])
      ensures j < |completed| && SignedBySame(orders, all[i], all[j])
    {
      assert all[i] in completed && (j < |completed| ==> all[j] in completed);
    }
  }

  lemma GrabWrapper(s: State, w: TseId, o: OrderId)
    requires Inv(s) && w in s.wrappers && s.wrappers[w].phase.Idle? && Next(s.orders, s.tills, w, o)
    ensures WrapperInv(Claim(s.orders, o, w), w, s.wrappers[w].(phase := Grabbed(o)), s.password)
  {
    var x, orders' := s.wrappers[w], Claim(s.orders, o, w);
    assert s.orders[o].tse == None;
    assert WrapperInv(s.orders, w, x, s.password) && SameRows(s.orders, orders', w);
    hide Inv, LogInv, SameRows;
    Frame(s.orders, orders', w, x, s.password);
    SameLog(orders', w, x, x.(phase := Grabbed(o)));
  }

  lemma GrabStep(s: State, w: TseId, o: OrderId)
    requires Inv(s) && w in s.wrappers && s.wrappers[w].phase.Idle? && Next(s.orders, s.tills, w, o)
    ensures Inv(SetWrapper(s, w, s.wrappers[w].(phase := Grabbed(o))).(orders := Claim(s.orders, o, w)))
  {
    var s' := SetWrapper(s, w, s.wrappers[w].(phase := Grabbed(o))).(orders := Claim(s.orders, o, w));
    assert o in s.orders && s.orders[o].status == New && s.orders[o].tse == None;
    assert TableInv(s'.orders, s'.tills, s'.completed) by { TableClaim(s.orders, s.tills, s.completed, o, w); }
    assert NumbersGrow(s'.orders, s'.completed) by {
      SameSignatures(s.orders, s'.orders, s.completed, []);
      assert s.completed + [] == s.completed;
    }
    assert WrappersInv(s') by {
      GrabWrapper(s, w, o);
      ActingWrapper(s, s', w);
    }
  }

  /** A completed signature extends the growing numbers, because every earlier one is in the log. */
  lemma DoneNumbers(s: State, w: TseId, signature: Signature)
    requires Inv(s) && w in s.wrappers && s.wrappers[w].toWrapper != []
    requires s.wrappers[w].phase.Finishing? && Awaits(s.wrappers[w].phase, s.wrappers[w].toWrapper[0].id)
    requires s.wrappers[w].toWrapper[0].reply.Finished? && s.wrappers[w].phase.order in s.orders
    requires signature.number == s.wrappers[w].phase.number
    requires signature.counter == s.wrappers[w].toWrapper[0].reply.counter
    ensures NumbersGrow(Complete(s.orders, s.wrappers[w].phase.order, signature), s.completed + [s.wrappers[w].phase.order])
  {
    var x := s.wrappers[w];
    var o, reply := x.phase.order, x.toWrapper[0].reply;
    assert Held(s.orders, w, o) && LogInv(s.orders, w, x) && AnswerInv(s.orders[o], x, reply)
           && WaitInv(s.orders[o], x, s.password) by {
      assert WrapperInv(s.orders, w, x, s.password);
    }
    NumbersExtend(s.orders, s.completed, o, signature, w, x);
  }

  lemma NumbersExtend(orders: Orders, completed: seq<OrderId>, o: OrderId, signature: Signature, w: TseId, x: Wrapper)
    requires NumbersGrow(orders, completed) && LogInv(orders, w, x) && Held(orders, w, o)
    requires forall c :: c in completed ==> c in orders && orders[c].status != Pending
    requires forall i :: 0 <= i < |x.log| ==>
               x.log[i].signature.number < signature.number && x.log[i].signature.counter < signature.counter
    ensures NumbersGrow(Complete(orders, o, signature), completed + [o])
  {
    var orders', all := Complete(orders, o, signature), completed + [o];
    forall i, j | 0 <= i < j < |all| && SignedBySame(orders', all[i], all[j])
      ensures orders'[all[i]].signature.value.number < orders'[all[j]].signature.value.number
      ensures orders'[all[i]].signature.value.counter < orders'[all[j]].signature.value.counter
    {
      assert all[i] in completed;
      if j < |completed| {
        assert all[j] in completed;
        assert SignedBySame(orders, all[i], all[j]);
      } else {
        var k :| 0 <= k < |x.log| && x.log[k].order == all[i];
      }
    }
  }

  lemma HeldByWrapper(s: State, w: TseId)
    requires Inv(s) && w in s.wrappers && s.wrappers[w].phase.Holds()
    ensures Held(s.orders, w, s.wrappers[w].phase.order)
  {
    assert WrapperInv(s.orders, w, s.wrappers[w], s.password);
  }

  lemma DoneStep(s: State, w: TseId, z: Wrapper, signature: Signature)
    requires Inv(s) && w in s.wrappers && s.wrappers[w].phase.Holds() && s.wrappers[w].phase.order in s.orders
    requires WrapperInv(Complete(s.orders, s.wrappers[w].phase.order, signature), w, z, s.password)
    requires NumbersGrow(Complete(s.orders, s.wrappers[w].phase.order, signature), s.completed + [s.wrappers[w].phase.order])
    ensures var o := s.wrappers[w].phase.order;
            Inv(SetWrapper(s, w, z).(orders := Complete(s.orders, o, signature), completed := s.completed + [o]))
  {
    var o := s.wrappers[w].phase.order;
    var s' := SetWrapper(s, w, z).(orders := Complete(s.orders, o, signature), completed := s.completed + [o]);
    HeldByWrapper(s, w);
    assert TableInv(s'.orders, s'.tills, s'.completed) by {
      TableClose(s.orders, s.tills, s.completed, o, s'.orders[o]);
    }
    assert WrappersInv(s') by { ActingWrapper(s, s', w); }
  }

  lemma TimeoutWrapper(orders: Orders, w: TseId, x: Wrapper, password: string)
    requires WrapperInv(orders, w, x, password) && (x.phase.Starting? || x.phase.Finishing?)
    ensures WrapperInv(Fail(orders, x.phase.order), w, x.(phase := Idle), password)
  {
    assert LogInv(Fail(orders, x.phase.order), w, x.(phase := Idle));
  }

  lemma TimeoutStep(s: State, w: TseId)
    requires Inv(s) && w in s.wrappers && (s.wrappers[w].phase.Starting? || s.wrappers[w].phase.Finishing?)
    requires s.wrappers[w].phase.order in s.orders
    ensures var o := s.wrappers[w].phase.order;
            Inv(SetWrapper(s, w, s.wrappers[w].(phase := Idle)).(orders := Fail(s.orders, o), completed := s.completed + [o]))
  {
    var o, x := s.wrappers[w].phase.order, s.wrappers[w];
    var s' := SetWrapper(s, w, x.(phase := Idle)).(orders := Fail(s.orders, o), completed := s.completed + [o]);
    HeldByWrapper(s, w);
    assert TableInv(s'.orders, s'.tills, s'.completed) by {
      TableClose(s.orders, s.tills, s.completed, o, s'.orders[o]);
    }
    assert NumbersGrow(s'.orders, s'.completed) by { SameSignatures(s.orders, s'.orders, s.completed, [o]); }
    assert WrappersInv(s') by {
      TimeoutWrapper(s.orders, w, x, s.password);
      ActingWrapper(s, s', w);
    }
  }

  lemma SweepWrapper(orders: Orders, victims: set<OrderId>, w: TseId, x: Wrapper, password: string)
    requires WrapperInv(orders, w, x, password)
    requires forall o :: o in victims ==> o in orders && orders[o].tse == None && orders[o].status == New
    ensures WrapperInv(FailAll(orders, victims, w), w, x, password)
  {
    Frame(orders, FailAll(orders, victims, w), w, x, password);
  }

  lemma SweepStep(s: State, w: TseId, now: int)
    requires Inv(s) && w in s.wrappers
    ensures var stale := Stale(s.orders, s.tills, w, now);
            Inv(s.(orders := FailAll(s.orders, stale, w), completed := s.completed + Ascending(stale)))
  {
    var stale := Stale(s.orders, s.tills, w, now);
    var s' := s.(orders := FailAll(s.orders, stale, w), completed := s.completed + Ascending(stale));
    assert TableInv(s'.orders, s'.tills, s'.completed) by { TableSweep(s.orders, s.tills, s.completed, w, now); }
    assert NumbersGrow(s'.orders, s'.completed) by {
      SameSignatures(s.orders, s'.orders, s.completed, Ascending(stale));
    }
    assert WrappersInv(s') by {
      SweepWrapper(s.orders, stale, w, s.wrappers[w], s.password);
      ActingWrapper(s, s', w);
    }
  }

  lemma RestartWrapper(orders: Orders, w: TseId, x: Wrapper, password: string)
    requires WrapperInv(orders, w, x, password)
    ensures WrapperInv(FailPending(orders), w, Disconnect(x), password)
  {
    assert LogInv(FailPending(orders), w, x);
    DisconnectWrapper(FailPending(orders), w, x, password);
  }

  lemma RestartStep(s: State)
    requires Inv(s)
    ensures Inv(Apply(s, Restart))
  {
    var s' := Apply(s, Restart);
    assert TableInv(s'.orders, s'.tills, s'.completed) by { TableRestart(s.orders, s.tills, s.completed); }
    assert NumbersGrow(s'.orders, s'.completed) by {
      SameSignatures(s.orders, s'.orders, s.completed, Ascending(PendingOrders(s.orders)));
    }
    assert WrappersInv(s') by {
      forall w | w in s'.wrappers ensures WrapperInv(s'.orders, w, s'.wrappers[w], s'.password) {
        RestartWrapper(s.orders, w, s.wrappers[w], s.password);
      }
    }
  }

  lemma BookStep(s: State, o: OrderId, row: Row)
    requires Inv(s) && row.status == New && row.tse == None && row.till in s.tills
    requires forall p :: p in s.orders ==> p < o
    requires forall p :: p in s.orders && s.orders[p].till == row.till ==> s.orders[p].bookedAt <= row.bookedAt
    ensures Inv(s.(orders := s.orders[o := row]))
  {
    var s' := s.(orders := s.orders[o := row]);
    assert TableInv(s'.orders, s'.tills, s'.completed) by { TableBook(s.orders, s.tills, s.completed, o, row); }
    assert NumbersGrow(s'.orders, s'.completed) by {
      SameSignatures(s.orders, s'.orders, s.completed, []);
      assert s.completed + [] == s.completed;
    }
    assert WrappersInv(s') by {
      forall w | w in s'.wrappers ensures WrapperInv(s'.orders, w, s'.wrappers[w], s'.password) {
        Frame(s.orders, s'.orders, w, s.wrappers[w], s.password);
      }
    }
  }

  lemma BeginWrapper(orders: Orders, w: TseId, x: Wrapper, password: string)
    requires WrapperInv(orders, w, x, password) && x.phase.Grabbed?
    ensures var o := x.phase.order;
            var phase := if ClientOf(orders[o].till) in x.tills then Starting(o, x.nextId) else Registering(o, x.nextId);
            WrapperInv(orders, w, Send(x, phase, orders[o], password), password)
  {
    var o := x.phase.order;
    SendWrapper(orders, w, x, if ClientOf(orders[o].till) in x.tills then Starting(o, x.nextId)
                              else Registering(o, x.nextId), password);
  }

  /** A step that leaves the table alone needs a look at its own wrapper only. */
  lemma LocalStep(s: State, w: TseId, y: Wrapper)
    requires Inv(s) && w in s.wrappers && WrapperInv(s.orders, w, y, s.password)
    ensures Inv(SetWrapper(s, w, y))
  {
    ActingWrapper(s, SetWrapper(s, w, y), w);
  }

  /** The history of registrations is free to grow. */
  lemma HistoryIsFree(s: State, history: seq<Entry>)
    requires Inv(s)
    ensures Inv(s.(history := history))
  {
  }

  lemma OrderAnswerKeeps(s: State, w: TseId, history: seq<Entry>)
    requires Inv(s) && w in s.wrappers && s.wrappers[w].toWrapper != []
    requires Awaits(s.wrappers[w].phase, s.wrappers[w].toWrapper[0].id) && s.wrappers[w].phase.Holds()
    requires s.wrappers[w].phase.order in s.orders
    ensures var x := s.wrappers[w];
            var o := x.phase.order;
            var (z, signature) := React(x.(toWrapper := x.toWrapper[1..]), s.orders[o], x.toWrapper[0].reply, s.password);
            Inv(if signature.None? then SetWrapper(s.(history := history), w, z)
                else SetWrapper(s.(history := history), w, z).(orders := Complete(s.orders, o, signature.value),
                                                               completed := s.completed + [o]))
  {
    assert WrapperInv(s.orders, w, s.wrappers[w], s.password);
    var x, noted := s.wrappers[w], s.(history := history);
    HistoryIsFree(s, history);
    var (z, signature) := React(x.(toWrapper := x.toWrapper[1..]), s.orders[x.phase.order], x.toWrapper[0].reply, s.password);
    if signature.Some? {
      DoneWrapper(s.orders, w, x, s.password);
      DoneNumbers(s, w, signature.value);
      hide Inv, WrapperInv, ClientOf, CommandFor, NumbersGrow, Complete;
      DoneStep(noted, w, z, signature.value);
    } else {
      hide Inv, WrapperInv, ClientOf, CommandFor;
      ReceiveWrapper(s.orders, w, x, s.password);
      LocalStep(noted, w, z);
    }
  }

  lemma ReceiveStep(s: State, w: TseId)
    requires Inv(s) && Enabled(s, Receive(w))
    ensures Inv(Apply(s, Receive(w)))
  {
    assert WrapperInv(s.orders, w, s.wrappers[w], s.password);
    var x := s.wrappers[w];
    var y := x.(toWrapper := x.toWrapper[1..]);
    var noted := s.(history := s.history + Noted(s, w, x.phase, x.toWrapper[0].reply));
    HistoryIsFree(s, noted.history);
    hide Inv, WrapperInv, Noted, ClientOf, CommandFor, After, Visible, React, ReactSync;
    if !Awaits(x.phase, x.toWrapper[0].id) {
      SkipWrapper(s.orders, w, x, s.password);
      LocalStep(s, w, y);
    } else if !x.phase.Holds() {
      SyncAnswerWrapper(s.orders, w, x, s.password);
      LocalStep(noted, w, ReactSync(y, x.toWrapper[0].reply));
    } else {
      OrderAnswerKeeps(s, w, noted.history);
    }
  }

  lemma ConnectStepKeeps(s: State, w: TseId)
    requires Inv(s) && w in s.wrappers && s.wrappers[w].phase.Disconnected?
    ensures Inv(SetWrapper(s, w, Ask(s.wrappers[w], s.password)))
  {
    AskWrapper(s.orders, w, s.wrappers[w], s.password);
    LocalStep(s, w, Ask(s.wrappers[w], s.password));
  }

  lemma PlanStepKeeps(s: State, w: TseId, todo: seq<SyncOp>)
    requires Inv(s) && Enabled(s, Plan(w, todo))
    ensures Inv(Apply(s, Plan(w, todo)))
  {
    PlanWrapper(s.orders, w, s.wrappers[w], s.password, s.tills, todo);
    LocalStep(s, w, s.wrappers[w].(phase := Syncing(AssignedClients(s.tills, w), todo, None)));
  }

  lemma SyncStepKeeps(s: State, w: TseId)
    requires Inv(s) && Enabled(s, SyncNext(w))
    ensures Inv(Apply(s, SyncNext(w)))
  {
    SendOpWrapper(s.orders, w, s.wrappers[w], s.password);
    LocalStep(s, w, SendOp(s.wrappers[w], s.password));
  }

  lemma ReadyStepKeeps(s: State, w: TseId)
    requires Inv(s) && w in s.wrappers && s.wrappers[w].phase.Syncing? && s.wrappers[w].phase.todo == []
    ensures Inv(SetWrapper(s, w, s.wrappers[w].(phase := Idle)))
  {
    hide LogInv, SyncInv, TableInv, NumbersGrow, KnownTses;
    SameLog(s.orders, w, s.wrappers[w], s.wrappers[w].(phase := Idle));
    LocalStep(s, w, s.wrappers[w].(phase := Idle));
  }

  lemma BeginStepKeeps(s: State, w: TseId)
    requires Inv(s) && Enabled(s, BeginSign(w))
    ensures Inv(Apply(s, BeginSign(w)))
  {
    var x := s.wrappers[w];
    var o := x.phase.order;
    BeginWrapper(s.orders, w, x, s.password);
    LocalStep(s, w, Send(x, if ClientOf(s.orders[o].till) in x.tills then Starting(o, x.nextId)
                            else Registering(o, x.nextId), s.orders[o], s.password));
  }

  lemma PingStepKeeps(s: State, w: TseId)
    requires Inv(s) && w in s.wrappers && !s.wrappers[w].phase.Disconnected?
    ensures Inv(SetWrapper(s, w, SendPing(s.wrappers[w])))
  {
    PingWrapper(s.orders, w, s.wrappers[w], s.password);
    LocalStep(s, w, SendPing(s.wrappers[w]));
  }

  lemma DeviceStepKeeps(s: State, w: TseId, now: int)
    requires Inv(s) && w in s.wrappers && s.wrappers[w].toDevice != []
    ensures Inv(SetWrapper(s, w, Deliver(s.wrappers[w], now)))
  {
    DeviceWrapper(s.orders, w, s.wrappers[w], s.password, now);
    LocalStep(s, w, Deliver(s.wrappers[w], now));
  }

  lemma LateStepKeeps(s: State, w: TseId, k: nat, now: int)
    requires Inv(s) && w in s.wrappers && k < |s.wrappers[w].adrift|
    ensures Inv(SetWrapper(s, w, DeliverLate(s.wrappers[w], k, now)))
  {
    LateWrapper(s.orders, w, s.wrappers[w], s.password, k, now);
    LocalStep(s, w, DeliverLate(s.wrappers[w], k, now));
  }

  lemma LoseStepKeeps(s: State, w: TseId)
    requires Inv(s) && w in s.wrappers
    ensures Inv(SetWrapper(s, w, Disconnect(s.wrappers[w])))
  {
    DisconnectWrapper(s.orders, w, s.wrappers[w], s.password);
    LocalStep(s, w, Disconnect(s.wrappers[w]));
  }

  lemma TableStep(s: State, step: Step)
    requires Inv(s) && Enabled(s, step)
    requires step.Book? || step.Assign? || step.CloseTill? || step.Restart? || step.Grab? || step.Timeout? || step.Sweep?
    ensures Inv(Apply(s, step))
  {
    match step {
      case Book(o, till, bookedAt, pt, pd) => BookStep(s, o, Row(till, bookedAt, pt, pd, New, None, None));
      case Assign(till, tse) => assert WrappersInv(Apply(s, step));
      case CloseTill(till) => assert WrappersInv(Apply(s, step));
      case Restart => RestartStep(s);
      case Grab(w, o) => GrabStep(s, w, o);
      case Timeout(w) => TimeoutStep(s, w);
      case Sweep(w, now) => SweepStep(s, w, now);
    }
  }

  lemma WireStep(s: State, step: Step)
    requires Inv(s) && Enabled(s, step) && (step.Receive? || step.Ping? || step.DeviceStep? || step.Late? || step.Lose?)
    ensures Inv(Apply(s, step))
  {
    match step {
      case Receive(w) => ReceiveStep(s, w);
      case Ping(w) => PingStepKeeps(s, w);
      case DeviceStep(w, now) => DeviceStepKeeps(s, w, now);
      case Late(w, k, now) => LateStepKeeps(s, w, k, now);
      case Lose(w) => LoseStepKeeps(s, w);
    }
  }

  lemma LoopStep(s: State, step: Step)
    requires Inv(s) && Enabled(s, step) && (step.SyncNext? || step.Ready? || step.BeginSign? || step.Connect? || step.Plan?)
    ensures Inv(Apply(s, step))
  {
    match step {
      case SyncNext(w) => SyncStepKeeps(s, w);
      case Ready(w) => ReadyStepKeeps(s, w);
      case BeginSign(w) => BeginStepKeeps(s, w);
      case Connect(w) => ConnectStepKeeps(s, w);
      case Plan(w, todo) => PlanStepKeeps(s, w, todo);
    }
  }

  /** Every step keeps the invariant. */
  lemma StepKeepsInv(s: State, step: Step)
    requires Inv(s) && Enabled(s, step)
    ensures Inv(Apply(s, step))
  {
    if step.Receive? || step.Ping? || step.DeviceStep? || step.Late? || step.Lose? {
      WireStep(s, step);
    } else if step.SyncNext? || step.Ready? || step.BeginSign? || step.Connect? || step.Plan? {
      LoopStep(s, step);
    } else {
      TableStep(s, step);
    }
  }

  // ---- whole runs --------------------------------------------------------------------

  lemma InitInv(s: State)
    requires Init(s)
    ensures Inv(s)
  {
  }

  lemma {:induction false} InvAlways(states: seq<State>, steps: seq<Step>, i: nat)
    requires Behavior(states, steps) && i <= |steps|
    ensures Inv(states[i])
  {
    if i == 0 {
      InitInv(states[0]);
    } else {
      InvAlways(states, steps, i - 1);
      assert Enabled(states[i - 1], steps[i - 1]) && Apply(states[i - 1], steps[i - 1]) == states[i];
      StepKeepsInv(states[i - 1], steps[i - 1]);
    }
  }

  /** At every moment of every run a till has at most one pending signature, and the orders that left
      'new' are the till's oldest. */
  lemma OnePendingAndFifo(states: seq<State>, steps: seq<Step>, i: nat, a: OrderId, b: OrderId)
    requires Behavior(states, steps) && i <= |steps|
    requires a in states[i].orders && b in states[i].orders && states[i].orders[a].till == states[i].orders[b].till
    ensures states[i].orders[a].status == Pending && states[i].orders[b].status == Pending ==> a == b
    ensures states[i].orders[a].status != New && states[i].orders[b].status == New ==> a < b
  {
    InvAlways(states, steps, i);
  }

  /** A till's orders are completed, by signature or failure, in the order they were booked. */
  lemma CompletionInOrder(states: seq<State>, steps: seq<Step>, i: nat, j: nat, k: nat)
    requires Behavior(states, steps) && i <= |steps| && j < k < |states[i].completed|
    ensures var s := states[i];
            && s.completed[j] in s.orders && s.completed[k] in s.orders
            && (s.orders[s.completed[j]].till == s.orders[s.completed[k]].till ==> s.completed[j] < s.completed[k])
  {
    InvAlways(states, steps, i);
    assert states[i].completed[j] in states[i].completed && states[i].completed[k] in states[i].completed;
  }

  ghost predicate Forward(before: Row, after: Row)
  {
    && after.till == before.till && after.bookedAt == before.bookedAt
    && after.processType == before.processType && after.processData == before.processData
    && match before.status
       case New => true
       case Pending => after.status != New && after.tse == before.tse
       case _ => after == before
  }

  /** One step: new -> pending or failure, pending -> done or failure, and a closed row never changes. */
  lemma StatusMoves(s: State, step: Step, o: OrderId)
    requires Inv(s) && Enabled(s, step) && o in s.orders
    ensures var s' := Apply(s, step);
            && o in s'.orders && Forward(s.orders[o], s'.orders[o])
            && (s.orders[o].status == New ==> s'.orders[o].status != Done)
  {
    if step.Receive? || step.Timeout? {
      WorkerMoves(s, step, o);
    } else {
      assert step.Grab? ==> s.orders[step.order].status == New;
      assert step.Sweep? ==> forall p :: p in Stale(s.orders, s.tills, step.w, step.now) ==> s.orders[p].status == New;
    }
  }

  /** A wrapper only closes the order it holds. */
  lemma WorkerMoves(s: State, step: Step, o: OrderId)
    requires Inv(s) && Enabled(s, step) && o in s.orders && (step.Receive? || step.Timeout?)
    ensures var s' := Apply(s, step);
            && o in s'.orders && Forward(s.orders[o], s'.orders[o])
            && (s.orders[o].status == New ==> s'.orders[o].status != Done)
  {
    var x := s.wrappers[step.w];
    if x.phase.Holds() {
      assert Held(s.orders, step.w, x.phase.order) by { HeldByWrapper(s, step.w); }
      if step.Receive? && Awaits(x.phase, x.toWrapper[0].id) {
        var y, row := x.(toWrapper := x.toWrapper[1..]), s.orders[x.phase.order];
        CloseMoves(s.orders, x.phase.order, React(y, row, x.toWrapper[0].reply, s.password).1, o);
      } else {
        CloseMoves(s.orders, x.phase.order, None, o);
      }
    }
  }

  lemma CloseMoves(orders: Orders, held: OrderId, signature: Option<Signature>, o: OrderId)
    requires held in orders && orders[held].status == Pending && o in orders
    ensures Forward(orders[o], Fail(orders, held)[o])
    ensures signature.Some? ==> Forward(orders[o], Complete(orders, held, signature.value)[o])
  {
  }

  /** Over a whole run nothing moves backwards: done and failure are absorbing. */
  lemma {:induction false} ClosedStays(states: seq<State>, steps: seq<Step>, i: nat, j: nat, o: OrderId)
    requires Behavior(states, steps) && i <= j <= |steps| && o in states[i].orders
    ensures o in states[j].orders && Forward(states[i].orders[o], states[j].orders[o])
  {
    if i < j {
      ClosedStays(states, steps, i, j - 1, o);
      InvAlways(states, steps, j - 1);
      assert Enabled(states[j - 1], steps[j - 1]) && Apply(states[j - 1], steps[j - 1]) == states[j];
      StatusMoves(states[j - 1], steps[j - 1], o);
    }
  }

  /** Whenever an order leaves 'new', by being taken or by being swept as too old, this is done for the TSE its
      till is assigned to at that moment, and no other order of the till is pending then. */
  lemma LeavesNewForItsTse(states: seq<State>, steps: seq<Step>, i: nat, o: OrderId)
    requires Behavior(states, steps) && i < |steps|
    requires o in states[i].orders && states[i].orders[o].status == New
    requires o in states[i + 1].orders && states[i + 1].orders[o].status != New
    ensures var row, after := states[i].orders[o], states[i + 1].orders[o];
            && row.till in states[i].tills && after.tse.Some? && after.tse == states[i].tills[row.till]
            && (forall p :: p in states[i].orders && states[i].orders[p].till == row.till ==> states[i].orders[p].status != Pending)
            && (after.status == Pending || after.status == Failure)
            && (after.status == Failure ==> steps[i].Sweep? && steps[i].now - row.bookedAt > 10)
  {
    InvAlways(states, steps, i);
    assert Enabled(states[i], steps[i]) && Apply(states[i], steps[i]) == states[i + 1];
    LeavesNewInStep(states[i], steps[i], o);
  }

  lemma LeavesNewInStep(s: State, step: Step, o: OrderId)
    requires Inv(s) && Enabled(s, step) && o in s.orders && s.orders[o].status == New
    requires o in Apply(s, step).orders && Apply(s, step).orders[o].status != New
    ensures var row, after := s.orders[o], Apply(s, step).orders[o];
            && row.till in s.tills && after.tse.Some? && after.tse == s.tills[row.till]
            && (forall p :: p in s.orders && s.orders[p].till == row.till ==> s.orders[p].status != Pending)
            && (after.status == Pending || after.status == Failure)
            && (after.status == Failure ==> step.Sweep? && step.now - row.bookedAt > 10)
  {
    if !step.Grab? && !step.Sweep? {
      NewStays(s, step, o);
    }
    hide Inv, Ascending;
  }

  lemma NewStays(s: State, step: Step, o: OrderId)
    requires Inv(s) && Enabled(s, step) && o in s.orders && s.orders[o].status == New && !step.Grab? && !step.Sweep?
    ensures o in Apply(s, step).orders && Apply(s, step).orders[o].status == New
  {
    if step.Receive? || step.Timeout? {
      if s.wrappers[step.w].phase.Holds() {
        HeldByWrapper(s, step.w);
      }
      OthersUntouched(s, step);
    } else {
      TableKeepsNew(s, step, o);
    }
    hide Inv, Apply, Enabled;
  }

  lemma TableKeepsNew(s: State, step: Step, o: OrderId)
    requires Enabled(s, step) && o in s.orders && s.orders[o].status == New
    requires !step.Grab? && !step.Sweep? && !step.Receive? && !step.Timeout?
    ensures o in Apply(s, step).orders && Apply(s, step).orders[o].status == New
  {
    hide D.Act, CommandFor, Visible, SyncPlan, AssignedClients, ClientOf, Ascending, Note, Noted, OpCommand, React,
      ReactSync, Send, SendOp, SendPing, Ask, Deliver, DeliverLate, Disconnect, Complete, Fail, Claim, FailAll, Stale;
  }

  /** A wrapper that closes an order changes no other row. */
  lemma OthersUntouched(s: State, step: Step)
    requires Enabled(s, step) && (step.Receive? || step.Timeout?)
    ensures forall p :: p in s.orders && (s.wrappers[step.w].phase.Holds() ==> p != s.wrappers[step.w].phase.order) ==>
              p in Apply(s, step).orders && Apply(s, step).orders[p] == s.orders[p]
  {
    hide CommandFor, Visible, ClientOf, Note, Noted, React, ReactSync, Send;
  }

  /** The sweep misses none of them: what a TSE could take and is too old fails. */
  lemma SweepFailsTheOld(states: seq<State>, steps: seq<Step>, i: nat, o: OrderId)
    requires Behavior(states, steps) && i < |steps| && steps[i].Sweep?
    requires o in states[i].orders && states[i].orders[o].status == New && states[i].orders[o].till in states[i].tills
    requires states[i].tills[states[i].orders[o].till] == Some(steps[i].w)
    requires steps[i].now - states[i].orders[o].bookedAt > 10
    requires forall p :: p in states[i].orders && states[i].orders[p].till == states[i].orders[o].till ==>
               states[i].orders[p].status != Pending
    ensures o in states[i + 1].orders && states[i + 1].orders[o].status == Failure
  {
    assert Enabled(states[i], steps[i]) && Apply(states[i], steps[i]) == states[i + 1];
    hide Ascending;
  }

  /** Two orders signed by the same TSE: their transaction numbers and signature counters differ and
      follow the order of completion. */
  lemma SignaturesGrow(states: seq<State>, steps: seq<Step>, i: nat, j: nat, k: nat)
    requires Behavior(states, steps) && i <= |steps| && j < k < |states[i].completed|
    ensures var s := states[i];
            var a, b := s.completed[j], s.completed[k];
            a in s.orders && b in s.orders && s.orders[a].status == Done && s.orders[b].status == Done
            && s.orders[a].tse == s.orders[b].tse ==>
              && s.orders[a].signature.Some? && s.orders[b].signature.Some?
              && s.orders[a].signature.value.number < s.orders[b].signature.value.number
              && s.orders[a].signature.value.counter < s.orders[b].signature.value.counter
  {
    InvAlways(states, steps, i);
    var s := states[i];
    var a, b := s.completed[j], s.completed[k];
    if a in s.orders && b in s.orders && s.orders[a].status == Done && s.orders[b].status == Done
       && s.orders[a].tse == s.orders[b].tse {
      DoneIsGenuine(s, a);
      DoneIsGenuine(s, b);
      assert SignedBySame(s.orders, a, b);
    }
  }

  /** Hence no two signed orders of one TSE share a transaction number. */
  lemma NumbersDistinct(states: seq<State>, steps: seq<Step>, i: nat, a: OrderId, b: OrderId)
    requires Behavior(states, steps) && i <= |steps|
    requires a in states[i].orders && b in states[i].orders && a != b
    requires states[i].orders[a].status == Done && states[i].orders[b].status == Done
    requires states[i].orders[a].tse == states[i].orders[b].tse
    ensures states[i].orders[a].signature.Some? && states[i].orders[b].signature.Some?
    ensures states[i].orders[a].signature.value.number != states[i].orders[b].signature.value.number
    ensures states[i].orders[a].signature.value.counter != states[i].orders[b].signature.value.counter
  {
    InvAlways(states, steps, i);
    var completed := states[i].completed;
    assert a in completed && b in completed;
    var j :| 0 <= j < |completed| && completed[j] == a;
    var k :| 0 <= k < |completed| && completed[k] == b;
    if j < k { SignaturesGrow(states, steps, i, j, k); } else { SignaturesGrow(states, steps, i, k, j); }
  }

  /** What the row of a signed order says is what the device put under the signature: the order's own
      client and data, and the number its own start returned. */
  lemma DoneIsGenuine(s: State, o: OrderId)
    requires Inv(s) && o in s.orders && s.orders[o].status == Done
    ensures s.orders[o].signature.Some? && Genuine(s.orders[o], s.orders[o].signature.value)
  {
    assert Closed(s.orders[o].status);
    var w := s.orders[o].tse.value;
    assert WrapperInv(s.orders, w, s.wrappers[w], s.password);
  }

  /** When a wrapper becomes ready, the set it keeps is that of the tills that were assigned to it when it
      planned its changes. */
  lemma ReadyKnowsItsTills(s: State, w: TseId)
    requires Inv(s) && Enabled(s, Ready(w))
    ensures s.wrappers[w].tills == s.wrappers[w].phase.wanted
  {
    assert WrapperInv(s.orders, w, s.wrappers[w], s.password);
    assert Added([]) == {} && Removed([]) == {};
    assert SyncInv(s.wrappers[w]);
  }

  /** The wrapper a step is taken by, if it is taken by one. */
  function Actor(step: Step): Option<TseId>
  {
    match step
    case Book(_, _, _, _, _) => None
    case Assign(_, _) => None
    case CloseTill(_) => None
    case Restart => None
    case _ => Some(step.w)
  }

  /** But for a restart, a step changes no wrapper but its own. */
  lemma OthersStay(s: State, step: Step, v: TseId)
    requires Enabled(s, step) && !step.Restart?
    ensures Apply(s, step).wrappers.Keys == s.wrappers.Keys
    ensures v in s.wrappers && Actor(step) != Some(v) ==> Apply(s, step).wrappers[v] == s.wrappers[v]
  {
    if step.Receive? {
      OthersReceive(s, step, v);
    } else {
      OthersAct(s, step, v);
    }
    hide Apply, Enabled;
  }

  lemma OthersReceive(s: State, step: Step, v: TseId)
    requires Enabled(s, step) && step.Receive?
    ensures Apply(s, step).wrappers.Keys == s.wrappers.Keys
    ensures v in s.wrappers && step.w != v ==> Apply(s, step).wrappers[v] == s.wrappers[v]
  {
    hide CommandFor, Visible, Complete, ClientOf, Note, Noted, React, ReactSync, Awaits;
  }

  lemma OthersAct(s: State, step: Step, v: TseId)
    requires Enabled(s, step) && !step.Restart? && !step.Receive?
    ensures Apply(s, step).wrappers.Keys == s.wrappers.Keys
    ensures v in s.wrappers && Actor(step) != Some(v) ==> Apply(s, step).wrappers[v] == s.wrappers[v]
  {
    hide D.Act, CommandFor, Visible, SyncPlan, FailPending, FailAll, Stale, Claim, Complete, Fail, AssignedClients, Next,
      ClientOf, Ascending, OpCommand, Send, SendOp, SendPing, Ask, Deliver, DeliverLate, Disconnect;
  }

  /** No wrapper comes or goes. */
  lemma WrappersStay(s: State, step: Step)
    requires Enabled(s, step)
    ensures Apply(s, step).wrappers.Keys == s.wrappers.Keys
  {
    if !step.Restart? {
      OthersStay(s, step, 0);
    }
  }

  /** Only a plan starts the reconciliation. */
  lemma SyncGoesOn(s: State, step: Step, w: TseId)
    requires Enabled(s, step) && !(step.Plan? && step.w == w)
    requires w in Apply(s, step).wrappers && Apply(s, step).wrappers[w].phase.Syncing?
    ensures w in s.wrappers && s.wrappers[w].phase.Syncing?
    ensures s.wrappers[w].phase.wanted == Apply(s, step).wrappers[w].phase.wanted
  {
    if step.Receive? {
      AnswerGoesOn(s, step, w);
    } else {
      hide D.Act, CommandFor, Visible, SyncPlan, FailPending, FailAll, Stale, Claim, Complete, Fail, AssignedClients, Note,
        Noted, After, React, ReactSync, ClientOf, Ascending, Next;
    }
  }

  lemma AnswerGoesOn(s: State, step: Step, w: TseId)
    requires Enabled(s, step) && step.Receive?
    requires w in Apply(s, step).wrappers && Apply(s, step).wrappers[w].phase.Syncing?
    ensures w in s.wrappers && s.wrappers[w].phase.Syncing?
    ensures s.wrappers[w].phase.wanted == Apply(s, step).wrappers[w].phase.wanted
  {
    hide D.Act, CommandFor, Visible, AssignedClients, Note, Noted, After, ClientOf, Complete;
  }

  lemma RunLength(states: seq<State>, steps: seq<Step>)
    requires Behavior(states, steps)
    ensures |states| == |steps| + 1
  {
  }

  /** ... where "assigned" is the assignment of the latest plan, and the wrapper did nothing but reconcile since. */
  lemma {:induction false} SyncStarted(states: seq<State>, steps: seq<Step>, i: nat, w: TseId) returns (k: nat)
    requires Behavior(states, steps) && i <= |steps| && w in states[i].wrappers && states[i].wrappers[w].phase.Syncing?
    ensures k < i && steps[k].Plan? && steps[k].w == w
    ensures states[i].wrappers[w].phase.wanted == AssignedClients(states[k].tills, w)
    ensures forall m :: k < m <= i ==> w in states[m].wrappers && states[m].wrappers[w].phase.Syncing?
  {
    if i == 0 {
      assert false;
    }
    var s, step := states[i - 1], steps[i - 1];
    assert Enabled(s, step) && Apply(s, step) == states[i];
    if step.Plan? && step.w == w {
      k := i - 1;
    } else {
      hide Enabled, Apply;
      SyncGoesOn(s, step, w);
      k := SyncStarted(states, steps, i - 1, w);
    }
  }
}
