/** Which number a signed order was signed under: what the device took between the order's start and its finish. */
module SigningHistory {

  import opened Wrappers
  import opened SignatureTable
  import opened Signing
  import opened SigningSafety
  import D = VirtualTse

  // ---- starts and finishes among the requests taken ----------------------------------

  /** The live start of a client that returned this number and time. */
  predicate IsStart(t: Taken, client: string, number: int, start: D.Stamp)
  {
    && !t.late && t.command.StartTransaction? && t.command.clientId == Some(client)
    && t.reply.Started? && t.reply.number == number && t.reply.logTime == start
  }

  /** The live finish of that transaction with the order's data. */
  predicate IsFinish(t: Taken, client: string, processType: string, processData: string, g: Signature)
  {
    && !t.late && t.command.FinishTransaction? && t.command.clientId == Some(client)
    && t.command.number == Some(g.number) && t.command.typ == Some(processType) && t.command.data == Some(processData)
    && t.reply == D.Finished(g.counter, g.end, g.signed)
  }

  ghost predicate NoStartIn(taken: seq<Taken>, a: int, b: int)
  {
    forall m :: 0 <= m < |taken| && a < m < b ==> !taken[m].reply.Started?
  }

  ghost predicate OnlyLateStartsIn(taken: seq<Taken>, a: int, b: int)
  {
    forall m :: 0 <= m < |taken| && a < m < b && taken[m].reply.Started? ==> taken[m].late
  }

  /** The transaction was started at `a`, and the device is still at its number unless late starts came since. */
  ghost predicate StartedAt(x: Wrapper, a: nat, client: string, number: int, start: D.Stamp)
  {
    && a < |x.taken| && IsStart(x.taken[a], client, number, start) && number <= x.device.transnr
    && OnlyLateStartsIn(x.taken, a, |x.taken|)
    && (x.device.transnr == number <==> NoStartIn(x.taken, a, |x.taken|))
  }

  ghost predicate Open(x: Wrapper, client: string, number: int, start: D.Stamp)
  {
    exists a: nat :: StartedAt(x, a, client, number, start)
  }

  /** Started at `a` and finished at `b`; its own number was signed exactly if nothing was started in between. */
  ghost predicate SignedAt(taken: seq<Taken>, a: nat, b: nat, client: string, processType: string, processData: string,
                           g: Signature)
  {
    && a < b < |taken| && IsStart(taken[a], client, g.number, g.start)
    && IsFinish(taken[b], client, processType, processData, g)
    && OnlyLateStartsIn(taken, a, b)
    && (g.signed.number == g.number <==> NoStartIn(taken, a, b))
  }

  ghost predicate Signed(taken: seq<Taken>, client: string, processType: string, processData: string, g: Signature)
  {
    exists a: nat, b: nat :: SignedAt(taken, a, b, client, processType, processData, g)
  }

  // ---- the invariant -----------------------------------------------------------------

  ghost predicate PhaseHistory(row: Row, x: Wrapper)
  {
    match x.phase
    case Starting(_, id) =>
      forall i :: 0 <= i < |x.toWrapper| && x.toWrapper[i].id == id && x.toWrapper[i].reply.Started? ==>
        Open(x, ClientOf(row.till), x.toWrapper[i].reply.number, x.toWrapper[i].reply.logTime)
    case Finishing(_, n, start, id) =>
      && Open(x, ClientOf(row.till), n, start)
      && forall i :: 0 <= i < |x.toWrapper| && x.toWrapper[i].id == id && x.toWrapper[i].reply.Finished? ==>
           Signed(x.taken, ClientOf(row.till), row.processType, row.processData,
                  SignatureOf(n, start, x.toWrapper[i].reply))
    case _ => true
  }

  function SignatureOf(number: int, start: D.Stamp, reply: D.Reply): Signature
    requires reply.Finished?
  {
    Signature(number, reply.counter, start, reply.logTime, reply.signed)
  }

  ghost predicate LogHistory(orders: Orders, x: Wrapper)
  {
    forall i :: 0 <= i < |x.log| ==>
      && x.log[i].order in orders
      && var row := orders[x.log[i].order];
         Signed(x.taken, ClientOf(row.till), row.processType, row.processData, x.log[i].signature)
  }

  ghost predicate WrapperHistory(orders: Orders, x: Wrapper)
  {
    && LogHistory(orders, x)
    && (x.phase.Holds() ==> x.phase.order in orders && PhaseHistory(orders[x.phase.order], x))
  }

  ghost predicate History(s: State)
  {
    forall w :: w in s.wrappers ==> WrapperHistory(s.orders, s.wrappers[w])
  }

  // ---- one more request taken --------------------------------------------------------

  lemma StillStarted(x: Wrapper, y: Wrapper, t: Taken, now: int, a: nat, client: string, number: int, start: D.Stamp)
    requires x.device.Inv() && StartedAt(x, a, client, number, start)
    requires y.taken == x.taken + [t] && (y.device, t.reply) == D.Act(x.device, t.command, now)
    requires t.reply.Started? ==> t.late
    ensures StartedAt(y, a, client, number, start)
  {
    D.ActKeeps(x.device, t.command, now);
    hide D.Act, D.OpenNumbers, D.Disjoint, IsStart;
    forall m | 0 <= m < |y.taken| && a < m < |y.taken| && y.taken[m].reply.Started? ensures y.taken[m].late {
    }
    if NoStartIn(x.taken, a, |x.taken|) && !t.reply.Started? {
      assert NoStartIn(y.taken, a, |y.taken|);
    } else {
      assert t.reply.Started? ==> y.taken[|x.taken|].reply.Started?;
      assert NoStartIn(y.taken, a, |y.taken|) ==> NoStartIn(x.taken, a, |x.taken|) by {
        assert forall m :: 0 <= m < |x.taken| ==> y.taken[m] == x.taken[m];
      }
    }
  }

  lemma StillOpen(x: Wrapper, y: Wrapper, t: Taken, now: int, client: string, number: int, start: D.Stamp)
    requires x.device.Inv() && Open(x, client, number, start)
    requires y.taken == x.taken + [t] && (y.device, t.reply) == D.Act(x.device, t.command, now)
    requires t.reply.Started? ==> t.late
    ensures Open(y, client, number, start)
  {
    hide StartedAt;
    var a: nat :| StartedAt(x, a, client, number, start);
    StillStarted(x, y, t, now, a, client, number, start);
  }

  lemma StillSigned(taken: seq<Taken>, t: Taken, client: string, processType: string, processData: string, g: Signature)
    requires Signed(taken, client, processType, processData, g)
    ensures Signed(taken + [t], client, processType, processData, g)
  {
    hide IsStart, IsFinish;
    var a: nat, b: nat :| SignedAt(taken, a, b, client, processType, processData, g);
    var more := taken + [t];
    assert forall m :: 0 <= m < |taken| ==> more[m] == taken[m];
    assert SignedAt(more, a, b, client, processType, processData, g);
  }

  lemma StillLogged(orders: Orders, x: Wrapper, y: Wrapper, t: Taken)
    requires LogHistory(orders, x) && y.log == x.log && y.taken == x.taken + [t]
    ensures LogHistory(orders, y)
  {
    hide Signed;
    forall i | 0 <= i < |y.log|
      ensures y.log[i].order in orders
              && Signed(y.taken, ClientOf(orders[y.log[i].order].till), orders[y.log[i].order].processType,
                        orders[y.log[i].order].processData, y.log[i].signature)
    {
      var row := orders[x.log[i].order];
      StillSigned(x.taken, t, ClientOf(row.till), row.processType, row.processData, x.log[i].signature);
    }
  }

  /** The device takes the live start. */
  lemma StartIsTaken(x: Wrapper, y: Wrapper, t: Taken, now: int, client: string)
    requires x.device.Inv() && y.taken == x.taken + [t] && (y.device, t.reply) == D.Act(x.device, t.command, now)
    requires !t.late && t.command.StartTransaction? && t.command.clientId == Some(client) && t.reply.Started?
    ensures Open(y, client, t.reply.number, t.reply.logTime)
  {
    D.ActKeeps(x.device, t.command, now);
    hide D.Act, D.OpenNumbers, D.Disjoint;
    assert StartedAt(y, |x.taken|, client, t.reply.number, t.reply.logTime);
  }

  /** The device takes the live finish, and signs the number it is at. */
  lemma FinishIsTaken(x: Wrapper, y: Wrapper, t: Taken, now: int, client: string, processType: string,
                      processData: string, number: int, start: D.Stamp)
    requires Open(x, client, number, start)
    requires y.taken == x.taken + [t] && (y.device, t.reply) == D.Act(x.device, t.command, now)
    requires !t.late && t.command.FinishTransaction? && t.command.clientId == Some(client)
    requires t.command.number == Some(number) && t.command.typ == Some(processType) && t.command.data == Some(processData)
    requires t.reply.Finished?
    ensures Signed(y.taken, client, processType, processData, SignatureOf(number, start, t.reply))
  {
    D.FinishSignsLatest(x.device, t.command, now);
    hide D.Act, IsStart;
    var a: nat :| StartedAt(x, a, client, number, start);
    var b, g := |x.taken|, SignatureOf(number, start, t.reply);
    assert forall m :: 0 <= m < b ==> y.taken[m] == x.taken[m];
    assert NoStartIn(y.taken, a, b) <==> NoStartIn(x.taken, a, b);
    assert SignedAt(y.taken, a, b, client, processType, processData, g);
  }

  // ---- one wrapper -------------------------------------------------------------------

  /** The live queue holds the command of the phase at its number and pings behind it. */
  lemma LiveHistory(row: Row, x: Wrapper, password: string, now: int)
    requires x.toDevice != [] && x.device.Inv() && QueueInv(x)
    requires (x.phase.Starting? || x.phase.Finishing?) && WaitInv(row, x, password) && PhaseHistory(row, x)
    ensures PhaseHistory(row, Deliver(x, now))
  {
    hide Open, Signed, AnswerInv;
    var head, y := x.toDevice[0], Deliver(x, now);
    var t := y.taken[|x.taken|];
    var client := ClientOf(row.till);
    if x.phase.Starting? {
      if head.id == x.phase.id {
        assert forall i :: 0 <= i < |x.toWrapper| ==> x.toWrapper[i].id < x.phase.id;
        if t.reply.Started? {
          StartIsTaken(x, y, t, now, client);
        }
      } else {
        StartAnswerStays(row, x, password, now);
      }
    } else {
      LiveFinish(row, x, password, now);
    }
  }

  lemma StartAnswerStays(row: Row, x: Wrapper, password: string, now: int)
    requires x.toDevice != [] && x.device.Inv() && QueueInv(x)
    requires x.phase.Starting? && WaitInv(row, x, password) && PhaseHistory(row, x) && x.toDevice[0].id != x.phase.id
    ensures PhaseHistory(row, Deliver(x, now))
  {
    hide Open, Signed, AnswerInv;
    var head, y := x.toDevice[0], Deliver(x, now);
    var t := y.taken[|x.taken|];
    forall i | 0 <= i < |y.toWrapper| && y.toWrapper[i].id == x.phase.id && y.toWrapper[i].reply.Started?
      ensures Open(y, ClientOf(row.till), y.toWrapper[i].reply.number, y.toWrapper[i].reply.logTime)
    {
      assert y.toWrapper[i] == x.toWrapper[i] && head.id > x.phase.id;
      assert head.command.PingPong?;
      StillOpen(x, y, t, now, ClientOf(row.till), x.toWrapper[i].reply.number, x.toWrapper[i].reply.logTime);
    }
  }

  lemma LiveFinish(row: Row, x: Wrapper, password: string, now: int)
    requires x.toDevice != [] && x.device.Inv() && QueueInv(x)
    requires x.phase.Finishing? && WaitInv(row, x, password) && PhaseHistory(row, x)
    ensures PhaseHistory(row, Deliver(x, now))
  {
    hide Open, Signed, AnswerInv, D.OpenNumbers, D.Disjoint;
    var head, y := x.toDevice[0], Deliver(x, now);
    var t := y.taken[|x.taken|];
    var client, n, start := ClientOf(row.till), x.phase.number, x.phase.start;
    D.ActKeeps(x.device, head.command, now);
    hide D.Act;
    assert !t.reply.Started? && (head.id != x.phase.id ==> head.command.PingPong?);
    StillOpen(x, y, t, now, client, n, start);
    forall i | 0 <= i < |y.toWrapper| && y.toWrapper[i].id == x.phase.id && y.toWrapper[i].reply.Finished?
      ensures Signed(y.taken, client, row.processType, row.processData, SignatureOf(n, start, y.toWrapper[i].reply))
    {
      if i < |x.toWrapper| {
        StillSigned(x.taken, t, client, row.processType, row.processData, SignatureOf(n, start, x.toWrapper[i].reply));
      } else {
        FinishIsTaken(x, y, t, now, client, row.processType, row.processData, n, start);
      }
    }
  }

  /** A late request changes neither what was signed nor what is open. */
  lemma LateHistory(row: Row, x: Wrapper, k: nat, now: int)
    requires k < |x.adrift| && x.device.Inv() && PhaseHistory(row, x)
    ensures PhaseHistory(row, DeliverLate(x, k, now))
  {
    hide Open, Signed;
    var y := DeliverLate(x, k, now);
    var t, client := y.taken[|x.taken|], ClientOf(row.till);
    match x.phase
    case Starting(_, id) =>
      forall i | 0 <= i < |y.toWrapper| && y.toWrapper[i].id == id && y.toWrapper[i].reply.Started?
        ensures Open(y, client, y.toWrapper[i].reply.number, y.toWrapper[i].reply.logTime)
      {
        StillOpen(x, y, t, now, client, x.toWrapper[i].reply.number, x.toWrapper[i].reply.logTime);
      }
    case Finishing(_, n, start, id) =>
      StillOpen(x, y, t, now, client, n, start);
      forall i | 0 <= i < |y.toWrapper| && y.toWrapper[i].id == id && y.toWrapper[i].reply.Finished?
        ensures Signed(y.taken, client, row.processType, row.processData, SignatureOf(n, start, y.toWrapper[i].reply))
      {
        StillSigned(x.taken, t, client, row.processType, row.processData, SignatureOf(n, start, x.toWrapper[i].reply));
      }
    case _ =>
  }

  lemma TakingHistory(orders: Orders, w: TseId, x: Wrapper, password: string, step: Step)
    requires WrapperInv(orders, w, x, password) && WrapperHistory(orders, x)
    requires step.DeviceStep? ==> x.toDevice != []
    requires step.Late? ==> step.k < |x.adrift|
    requires step.DeviceStep? || step.Late?
    ensures WrapperHistory(orders, if step.DeviceStep? then Deliver(x, step.now) else DeliverLate(x, step.k, step.now))
  {
    hide LogHistory, PhaseHistory, LogInv, QueueInv, WaitInv, SyncInv, D.Act, D.OpenNumbers, D.Disjoint;
    var y := if step.DeviceStep? then Deliver(x, step.now) else DeliverLate(x, step.k, step.now);
    StillLogged(orders, x, y, y.taken[|x.taken|]);
    if x.phase.Holds() {
      var row := orders[x.phase.order];
      if x.phase.Grabbed? || x.phase.Registering? {
        NothingAwaited(row, y);
      } else if step.DeviceStep? {
        LiveHistory(row, x, password, step.now);
      } else {
        LateHistory(row, x, step.k, step.now);
      }
    }
  }

  lemma NothingAwaited(row: Row, x: Wrapper)
    requires !x.phase.Starting? && !x.phase.Finishing?
    ensures PhaseHistory(row, x)
  {
  }

  lemma SameHistory(row: Row, x: Wrapper, y: Wrapper)
    requires PhaseHistory(row, x)
    requires y.phase == x.phase && y.taken == x.taken && y.device == x.device
    requires forall a :: a in y.toWrapper ==> a in x.toWrapper
    ensures PhaseHistory(row, y)
  {
    hide Signed;
    forall number, start | Open(x, ClientOf(row.till), number, start) ensures Open(y, ClientOf(row.till), number, start) {
      var a: nat :| StartedAt(x, a, ClientOf(row.till), number, start);
      assert StartedAt(y, a, ClientOf(row.till), number, start);
    }
    forall i | 0 <= i < |y.toWrapper| ensures exists k :: 0 <= k < |x.toWrapper| && x.toWrapper[k] == y.toWrapper[i] {
      assert y.toWrapper[i] in x.toWrapper;
    }
  }

  // ---- every step --------------------------------------------------------------------

  /** What a row says about its order never changes. */
  ghost predicate SameData(orders: Orders, orders': Orders)
  {
    forall o :: o in orders ==>
      && o in orders' && orders'[o].till == orders[o].till
      && orders'[o].processType == orders[o].processType && orders'[o].processData == orders[o].processData
  }

  lemma StepKeepsData(s: State, step: Step)
    requires Inv(s) && Enabled(s, step)
    ensures SameData(s.orders, Apply(s, step).orders)
  {
    hide Inv, Enabled, Apply;
    forall o | o in s.orders ensures o in Apply(s, step).orders && Forward(s.orders[o], Apply(s, step).orders[o]) {
      StatusMoves(s, step, o);
    }
  }

  /** The wrapper took nothing and signed nothing: it waits on, or waits for nothing, or just sent a start. */
  ghost predicate Quiet(x: Wrapper, y: Wrapper)
  {
    && y.log == x.log && y.taken == x.taken
    && ((y.phase == x.phase && y.device == x.device && y.toWrapper == x.toWrapper)
        || (!y.phase.Starting? && !y.phase.Finishing?)
        || (y.phase.Starting? && forall i :: 0 <= i < |y.toWrapper| ==> y.toWrapper[i].id != y.phase.id))
  }

  lemma QuietHistory(orders: Orders, orders': Orders, x: Wrapper, y: Wrapper)
    requires WrapperHistory(orders, x) && Quiet(x, y) && SameData(orders, orders')
    requires y.phase.Holds() ==> y.phase.order in orders'
    ensures WrapperHistory(orders', y)
  {
    hide Signed;
    assert LogHistory(orders', y);
    if y.phase.Holds() {
      if y.phase == x.phase && y.device == x.device && y.toWrapper == x.toWrapper {
        SameHistory(orders[x.phase.order], x, y);
        SameRowHistory(orders[x.phase.order], orders'[x.phase.order], y);
      }
    }
  }

  lemma SameRowHistory(row: Row, row': Row, x: Wrapper)
    requires PhaseHistory(row, x)
    requires row'.till == row.till && row'.processType == row.processType && row'.processData == row.processData
    ensures PhaseHistory(row', x)
  {
    hide Signed, Open;
  }

  lemma QuietStep(s: State, step: Step, v: TseId)
    requires Enabled(s, step) && v in s.wrappers && QueueInv(s.wrappers[v])
    requires !((step.DeviceStep? || step.Late? || step.Receive?) && step.w == v)
    ensures v in Apply(s, step).wrappers && Quiet(s.wrappers[v], Apply(s, step).wrappers[v])
  {
    if Actor(step) == Some(v) || step.Restart? {
      hide D.Act, CommandFor, Visible, SyncPlan, FailPending, FailAll, Stale, Claim, Complete, Fail, AssignedClients, Next,
        ClientOf, Ascending, OpCommand;
    } else {
      OthersStay(s, step, v);
      hide Apply, Enabled;
    }
  }

  /** An answer that completes no signature. */
  lemma ReceiveHistory(orders: Orders, w: TseId, x: Wrapper, password: string)
    requires WrapperInv(orders, w, x, password) && WrapperHistory(orders, x) && x.toWrapper != []
    requires Awaits(x.phase, x.toWrapper[0].id) && x.phase.Holds()
    ensures var y := x.(toWrapper := x.toWrapper[1..]);
            var (z, signature) := React(y, orders[x.phase.order], x.toWrapper[0].reply, password);
            signature.None? ==> WrapperHistory(orders, z)
  {
    hide LogHistory, LogInv, Signed, SyncInv, WaitInv, CommandFor, ClientOf;
    var y := x.(toWrapper := x.toWrapper[1..]);
    var (z, signature) := React(y, orders[x.phase.order], x.toWrapper[0].reply, password);
    SameLogHistory(orders, x, z);
    if z.phase.Finishing? && signature.None? {
      var row := orders[x.phase.order];
      SameOpen(x, z, ClientOf(row.till), z.phase.number, z.phase.start);
    }
  }

  lemma SameOpen(x: Wrapper, y: Wrapper, client: string, number: int, start: D.Stamp)
    requires Open(x, client, number, start) && y.taken == x.taken && y.device == x.device
    ensures Open(y, client, number, start)
  {
    var a: nat :| StartedAt(x, a, client, number, start);
    assert StartedAt(y, a, client, number, start);
  }

  lemma SameLogHistory(orders: Orders, x: Wrapper, y: Wrapper)
    requires LogHistory(orders, x)
    ensures y.log == x.log && y.taken == x.taken ==> LogHistory(orders, y)
  {
    hide Signed;
  }

  /** The answer that completes one. */
  lemma DoneHistory(orders: Orders, w: TseId, x: Wrapper, password: string)
    requires WrapperInv(orders, w, x, password) && WrapperHistory(orders, x) && x.toWrapper != []
    requires Awaits(x.phase, x.toWrapper[0].id) && x.phase.Holds()
    ensures var y := x.(toWrapper := x.toWrapper[1..]);
            var (z, signature) := React(y, orders[x.phase.order], x.toWrapper[0].reply, password);
            signature.Some? ==> WrapperHistory(Complete(orders, x.phase.order, signature.value), z)
  {
    hide LogInv, Signed, Open, SyncInv, WaitInv, CommandFor, ClientOf, QueueInv;
    var y := x.(toWrapper := x.toWrapper[1..]);
    var (z, signature) := React(y, orders[x.phase.order], x.toWrapper[0].reply, password);
  }

  lemma HistoryOf(s: State, s': State)
    requires History(s) && Inv(s') && SameData(s.orders, s'.orders) && s'.wrappers.Keys == s.wrappers.Keys
    requires forall v :: v in s.wrappers ==>
               Quiet(s.wrappers[v], s'.wrappers[v]) || WrapperHistory(s'.orders, s'.wrappers[v])
    ensures History(s')
  {
    hide Quiet, WrapperHistory, SameData, Inv;
    forall v | v in s'.wrappers ensures WrapperHistory(s'.orders, s'.wrappers[v]) {
      if Quiet(s.wrappers[v], s'.wrappers[v]) {
        if s'.wrappers[v].phase.Holds() {
          HeldByWrapper(s', v);
        }
        QuietHistory(s.orders, s'.orders, s.wrappers[v], s'.wrappers[v]);
      }
    }
  }

  /** The acting wrapper of a step on the connection. */
  lemma ActingHistory(s: State, step: Step)
    requires Inv(s) && History(s) && Enabled(s, step)
    requires step.DeviceStep? || step.Late? || step.Receive?
    ensures step.w in Apply(s, step).wrappers
    ensures Quiet(s.wrappers[step.w], Apply(s, step).wrappers[step.w])
            || WrapperHistory(Apply(s, step).orders, Apply(s, step).wrappers[step.w])
  {
    if step.Receive? {
      AnswerHistory(s, step.w);
    } else {
      var x := s.wrappers[step.w];
      assert WrapperInv(s.orders, step.w, x, s.password) && WrapperHistory(s.orders, x);
      hide Inv, WrapperInv, WrapperHistory, D.Act, Quiet, Deliver, DeliverLate;
      TakingHistory(s.orders, step.w, x, s.password, step);
    }
  }

  lemma AnswerHistory(s: State, w: TseId)
    requires Inv(s) && History(s) && Enabled(s, Receive(w))
    ensures w in Apply(s, Receive(w)).wrappers
    ensures Quiet(s.wrappers[w], Apply(s, Receive(w)).wrappers[w])
            || WrapperHistory(Apply(s, Receive(w)).orders, Apply(s, Receive(w)).wrappers[w])
  {
    var x := s.wrappers[w];
    assert WrapperInv(s.orders, w, x, s.password) && WrapperHistory(s.orders, x);
    hide Inv, WrapperInv, WrapperHistory, D.Act, React, ReactSync, Complete, Quiet, Noted;
    if !Awaits(x.phase, x.toWrapper[0].id) {
      SkipHistory(s.orders, x);
    } else if x.phase.Holds() {
      ReceiveHistory(s.orders, w, x, s.password);
      DoneHistory(s.orders, w, x, s.password);
    } else {
      SyncAnswerIsQuiet(x.(toWrapper := x.toWrapper[1..]), x.toWrapper[0].reply);
    }
  }

  lemma SyncAnswerIsQuiet(y: Wrapper, reply: D.Reply)
    requires y.phase.Asking? || (y.phase.Syncing? && y.phase.todo != [])
    ensures forall x: Wrapper :: x.log == y.log && x.taken == y.taken ==> Quiet(x, ReactSync(y, reply))
  {
    hide Visible, After;
  }

  lemma SkipHistory(orders: Orders, x: Wrapper)
    requires WrapperHistory(orders, x) && x.toWrapper != []
    ensures WrapperHistory(orders, x.(toWrapper := x.toWrapper[1..]))
  {
    hide PhaseHistory;
    var y := x.(toWrapper := x.toWrapper[1..]);
    if x.phase.Holds() {
      SameHistory(orders[x.phase.order], x, y);
    }
  }

  lemma QueueOf(s: State, v: TseId)
    requires Inv(s) && v in s.wrappers
    ensures QueueInv(s.wrappers[v])
  {
    assert WrapperInv(s.orders, v, s.wrappers[v], s.password);
  }

  lemma StepKeepsHistory(s: State, step: Step)
    requires Inv(s) && History(s) && Enabled(s, step)
    ensures History(Apply(s, step))
  {
    StepKeepsInv(s, step);
    StepKeepsData(s, step);
    WrappersStay(s, step);
    hide Inv, History, Enabled, Apply, Quiet, WrapperHistory, QueueInv, SameData;
    forall v | v in s.wrappers
      ensures Quiet(s.wrappers[v], Apply(s, step).wrappers[v]) || WrapperHistory(Apply(s, step).orders, Apply(s, step).wrappers[v])
    {
      if (step.DeviceStep? || step.Late? || step.Receive?) && step.w == v {
        ActingHistory(s, step);
      } else {
        QueueOf(s, v);
        QuietStep(s, step, v);
      }
    }
    HistoryOf(s, Apply(s, step));
  }

  lemma InitHistory(s: State)
    requires Init(s)
    ensures History(s)
  {
  }

  lemma {:induction false} HistoryAlways(states: seq<State>, steps: seq<Step>, i: nat)
    requires Behavior(states, steps) && i <= |steps|
    ensures History(states[i])
  {
    hide History, Inv;
    if i == 0 {
      InitHistory(states[0]);
    } else {
      HistoryAlways(states, steps, i - 1);
      InvAlways(states, steps, i - 1);
      assert Enabled(states[i - 1], steps[i - 1]) && Apply(states[i - 1], steps[i - 1]) == states[i];
      StepKeepsHistory(states[i - 1], steps[i - 1]);
    }
  }

  // ---- the number of a signed order --------------------------------------------------

  /** For every signed order of every run, among the requests its device took from live and lost connections
      are the order's start, at `a`, and its finish, at `b`. In between the device took no start but late ones,
      and it signed the order's own number if and only if it took no start at all. */
  lemma NumberIsOwn(states: seq<State>, steps: seq<Step>, i: nat, o: OrderId) returns (a: nat, b: nat)
    requires Behavior(states, steps) && i <= |steps|
    requires o in states[i].orders && states[i].orders[o].status == Done
    ensures states[i].orders[o].signature.Some? && states[i].orders[o].tse.Some?
    ensures states[i].orders[o].tse.value in states[i].wrappers
    ensures var row, g := states[i].orders[o], states[i].orders[o].signature.value;
            var taken := states[i].wrappers[row.tse.value].taken;
            && a < b < |taken| && IsStart(taken[a], ClientOf(row.till), g.number, g.start)
            && IsFinish(taken[b], ClientOf(row.till), row.processType, row.processData, g)
            && (forall m :: a < m < b && taken[m].reply.Started? ==> taken[m].late)
            && (g.signed.number == g.number <==> forall m :: a < m < b ==> !taken[m].reply.Started?)
  {
    RunLength(states, steps);
    InvAlways(states, steps, i);
    HistoryAlways(states, steps, i);
    hide Behavior;
    a, b := SignedInHistory(states[i], o);
  }

  lemma SignedInHistory(s: State, o: OrderId) returns (a: nat, b: nat)
    requires Inv(s) && History(s) && o in s.orders && s.orders[o].status == Done
    ensures s.orders[o].signature.Some? && s.orders[o].tse.Some? && s.orders[o].tse.value in s.wrappers
    ensures var row := s.orders[o];
            SignedAt(s.wrappers[row.tse.value].taken, a, b, ClientOf(row.till), row.processType, row.processData,
                     row.signature.value)
  {
    hide SignedAt, ClientOf;
    DoneIsGenuine(s, o);
    var w := s.orders[o].tse.value;
    var x := s.wrappers[w];
    assert WrapperInv(s.orders, w, x, s.password) && WrapperHistory(s.orders, x);
    assert LogInv(s.orders, w, x);
    var i :| 0 <= i < |x.log| && x.log[i].order == o;
    var row := s.orders[o];
    assert Signed(x.taken, ClientOf(row.till), row.processType, row.processData, x.log[i].signature);
    a, b :| SignedAt(x.taken, a, b, ClientOf(row.till), row.processType, row.processData, x.log[i].signature);
  }
}
