/** The signing protocol: any number of wrappers, each with its own device behind a connection that
    delivers in order, working on one shared table while orders arrive, tills move, answers are late
    or lost, connections break with requests still on their way, and the processor restarts. */
module Signing {

  import opened Wrappers
  import opened Text
  import opened SignatureTable
  import D = VirtualTse

  // ---- state -------------------------------------------------------------------------

  /** A change of the clients that a wrapper asks its device for. */
  datatype SyncOp = Add(till: TillId) | Remove(client: string)

  /** Where the wrapper's handler loop stands. `id` is the request it waits for; `sent` is that of the first
      change still to do. */
  datatype Phase =
    | Disconnected
    | Asking(id: nat)
    | Informed
    | Syncing(wanted: set<string>, todo: seq<SyncOp>, sent: Option<nat>)
    | Idle
    | Grabbed(order: OrderId)
    | Registering(order: OrderId, id: nat)
    | Starting(order: OrderId, id: nat)
    | Finishing(order: OrderId, number: int, start: D.Stamp, id: nat)
  {
    predicate Holds() { Grabbed? || Registering? || Starting? || Finishing? }
  }

  datatype Request = Request(id: nat, command: D.Command)
  datatype Answer = Answer(id: nat, reply: D.Reply)
  datatype Completion = Completion(order: OrderId, signature: Signature)

  /** A request the device took from a connection: a live one, or one that was lost before. */
  datatype Taken = Taken(late: bool, command: D.Command, reply: D.Reply)

  /** One wrapper, its connection and its device. `adrift` holds requests of lost connections that may still
      reach the device. `log` lists the orders it signed, in order of completion, and `taken` what the device
      took from the connections. */
  datatype Wrapper = Wrapper(phase: Phase, nextId: nat, toDevice: seq<Request>, toWrapper: seq<Answer>,
                             adrift: seq<Request>, tills: set<string>, device: D.Tse, log: seq<Completion>,
                             taken: seq<Taken>)

  /** The till_tse_history table. */
  datatype What = Register | Deregister
  datatype Entry = Entry(till: int, tse: int, what: What, zNr: int)

  /** `zNrs` is the number of each till's next closing; `completed` lists the orders that reached done or
      failure, in that order. */
  datatype State = State(orders: Orders, tills: Tills, zNrs: map<TillId, int>, history: seq<Entry>,
                         wrappers: map<TseId, Wrapper>, password: string, completed: seq<OrderId>)

  function ClientOf(till: TillId): string { PrintInt(till) }

  /** The registered clients a wrapper is shown: the dummy and the production clients are hidden. */
  predicate Hidden(client: string) { client == D.DUMMY_CLIENT || "DN TSEProduction" <= client }

  function Visible(clients: set<string>): set<string> { set c | c in clients && !Hidden(c) }

  function AssignedClients(tills: Tills, tse: TseId): set<string>
  {
    set t | t in tills && tills[t] == Some(tse) :: ClientOf(t)
  }

  // ---- steps -------------------------------------------------------------------------

  datatype Step =
    | Book(order: OrderId, till: TillId, bookedAt: int, processType: string, processData: string)
    | Assign(till: TillId, tse: Option<TseId>)
    | CloseTill(till: TillId)
    | Connect(w: TseId)
    | Plan(w: TseId, todo: seq<SyncOp>)
    | SyncNext(w: TseId)
    | Ready(w: TseId)
    | Grab(w: TseId, order: OrderId)
    | BeginSign(w: TseId)
    | Ping(w: TseId)
    | DeviceStep(w: TseId, now: int)
    | Late(w: TseId, k: nat, now: int)
    | Receive(w: TseId)
    | Timeout(w: TseId)
    | Lose(w: TseId)
    | Sweep(w: TseId, now: int)
    | Restart

  function Added(todo: seq<SyncOp>): set<string> { set op | op in todo && op.Add? :: ClientOf(op.till) }

  function Removed(todo: seq<SyncOp>): set<string> { set op | op in todo && op.Remove? :: op.client }

  /** The reconciliation list: assigned tills the device does not know, then clients nobody assigned. */
  ghost predicate SyncPlan(tills: Tills, w: TseId, known: set<string>, todo: seq<SyncOp>)
  {
    && Added(todo) == AssignedClients(tills, w) - known
    && Removed(todo) == known - AssignedClients(tills, w)
    && (forall i, j :: 0 <= i < j < |todo| ==> todo[i] != todo[j])
  }

  ghost predicate Enabled(s: State, step: Step)
  {
    match step
    case Book(o, till, bookedAt, _, _) =>
      // ids grow; within a till the booking times do not go back
      && till in s.tills && (forall p :: p in s.orders ==> p < o)
      && (forall p :: p in s.orders && s.orders[p].till == till ==> s.orders[p].bookedAt <= bookedAt)
    case Assign(till, _) => till in s.tills
    case CloseTill(till) => till in s.zNrs
    case Restart => true
    case Connect(w) => w in s.wrappers && s.wrappers[w].phase.Disconnected?
    case Plan(w, todo) =>
      w in s.wrappers && s.wrappers[w].phase.Informed? && SyncPlan(s.tills, w, s.wrappers[w].tills, todo)
    case SyncNext(w) =>
      w in s.wrappers && s.wrappers[w].phase.Syncing? && s.wrappers[w].phase.todo != [] && s.wrappers[w].phase.sent.None?
    case Ready(w) => w in s.wrappers && s.wrappers[w].phase.Syncing? && s.wrappers[w].phase.todo == []
    case Grab(w, o) => w in s.wrappers && s.wrappers[w].phase.Idle? && Next(s.orders, s.tills, w, o)
    case BeginSign(w) => w in s.wrappers && s.wrappers[w].phase.Grabbed? && s.wrappers[w].phase.order in s.orders
    case Ping(w) => w in s.wrappers && !s.wrappers[w].phase.Disconnected?
    case DeviceStep(w, _) => w in s.wrappers && s.wrappers[w].toDevice != []
    case Late(w, k, _) => w in s.wrappers && k < |s.wrappers[w].adrift|
    case Receive(w) =>
      && w in s.wrappers && s.wrappers[w].toWrapper != []
      && (s.wrappers[w].phase.Holds() ==> s.wrappers[w].phase.order in s.orders)
    case Timeout(w) =>
      && w in s.wrappers && (s.wrappers[w].phase.Starting? || s.wrappers[w].phase.Finishing?)
      && s.wrappers[w].phase.order in s.orders
    case Lose(w) => w in s.wrappers
    case Sweep(w, _) => w in s.wrappers && s.wrappers[w].phase.Disconnected?
  }

  function CommandFor(row: Row, phase: Phase, password: string): D.Command
    requires phase.Holds() && !phase.Grabbed?
  {
    var client, pw := Some(ClientOf(row.till)), D.Decoded(password);
    match phase
    case Registering(_, _) => D.RegisterClientId(client, pw)
    case Starting(_, _) => D.StartTransaction(client, pw)
    case Finishing(_, n, _, _) => D.FinishTransaction(client, pw, Some(n), Some(row.processType), Some(row.processData))
  }

  /** Sends the command of the new phase, whose id must be the next one. */
  function Send(x: Wrapper, phase: Phase, row: Row, password: string): Wrapper
    requires phase.Holds() && !phase.Grabbed?
  {
    x.(phase := phase, nextId := x.nextId + 1,
       toDevice := x.toDevice + [Request(x.nextId, CommandFor(row, phase, password))])
  }

  function SendPing(x: Wrapper): Wrapper
  {
    x.(nextId := x.nextId + 1, toDevice := x.toDevice + [Request(x.nextId, D.PingPong)])
  }

  /** The device takes the oldest request and answers it. */
  function Deliver(x: Wrapper, now: int): Wrapper
    requires x.toDevice != []
  {
    var (device, reply) := D.Act(x.device, x.toDevice[0].command, now);
    x.(device := device, toDevice := x.toDevice[1..], toWrapper := x.toWrapper + [Answer(x.toDevice[0].id, reply)],
       taken := x.taken + [Taken(false, x.toDevice[0].command, reply)])
  }

  /** The device takes a request of a lost connection; nobody gets the answer. */
  function DeliverLate(x: Wrapper, k: nat, now: int): Wrapper
    requires k < |x.adrift|
  {
    var (device, reply) := D.Act(x.device, x.adrift[k].command, now);
    x.(device := device, adrift := x.adrift[..k] + x.adrift[k + 1..],
       taken := x.taken + [Taken(true, x.adrift[k].command, reply)])
  }

  function Disconnect(x: Wrapper): Wrapper
  {
    x.(phase := Disconnected, toDevice := [], toWrapper := [], adrift := x.adrift + x.toDevice)
  }

  /** The wrapper's reaction to the answer it waits for; the row changes only when the signature is complete. */
  function React(x: Wrapper, row: Row, reply: D.Reply, password: string): (Wrapper, Option<Signature>)
    requires x.phase.Registering? || x.phase.Starting? || x.phase.Finishing?
  {
    var o := x.phase.order;
    match x.phase
    case Registering(_, _) =>
      if reply.Success?
      then (Send(x.(tills := x.tills + {ClientOf(row.till)}), Starting(o, x.nextId), row, password), None)
      else (Disconnect(x), None)
    case Starting(_, _) =>
      if reply.Started?
      then (Send(x, Finishing(o, reply.number, reply.logTime, x.nextId), row, password), None)
      else (Disconnect(x), None)
    case Finishing(_, n, start, _) =>
      if reply.Finished?
      then
        var signature := Signature(n, reply.counter, start, reply.logTime, reply.signed);
        (x.(phase := Idle, log := x.log + [Completion(o, signature)]), Some(signature))
      else (Disconnect(x), None)
  }

  function OpCommand(op: SyncOp, password: string): D.Command
  {
    match op
    case Add(till) => D.RegisterClientId(Some(ClientOf(till)), D.Decoded(password))
    case Remove(client) => D.DeregisterClientId(Some(client), D.Decoded(password))
  }

  function AskStatus(password: string): D.Command { D.GetDeviceStatus(D.Decoded(password)) }

  /** A new connection starts with the question which clients the device has. */
  function Ask(x: Wrapper, password: string): Wrapper
  {
    x.(phase := Asking(0), nextId := 1, toDevice := [Request(0, AskStatus(password))], toWrapper := [])
  }

  function SendOp(x: Wrapper, password: string): Wrapper
    requires x.phase.Syncing? && x.phase.todo != []
  {
    x.(phase := x.phase.(sent := Some(x.nextId)), nextId := x.nextId + 1,
       toDevice := x.toDevice + [Request(x.nextId, OpCommand(x.phase.todo[0], password))])
  }

  function After(tills: set<string>, op: SyncOp): set<string>
  {
    match op
    case Add(till) => tills + {ClientOf(till)}
    case Remove(client) => tills - {client}
  }

  /** The wrapper's reaction to an answer while it finds out about its clients and changes them. */
  function ReactSync(x: Wrapper, reply: D.Reply): Wrapper
    requires x.phase.Asking? || (x.phase.Syncing? && x.phase.todo != [])
  {
    if x.phase.Asking? then
      if reply.Status? && reply.clients.Some? && D.DUMMY_CLIENT in reply.clients.value
      then x.(phase := Informed, tills := Visible(reply.clients.value))
      else Disconnect(x)
    else
      if reply.Success?
      then x.(phase := x.phase.(todo := x.phase.todo[1..], sent := None), tills := After(x.tills, x.phase.todo[0]))
      else Disconnect(x)
  }

  /** The change of clients a wrapper waits for. */
  function Change(orders: Orders, phase: Phase): Option<SyncOp>
  {
    if phase.Syncing? && phase.sent.Some? && phase.todo != [] then Some(phase.todo[0])
    else if phase.Registering? && phase.order in orders then Some(Add(orders[phase.order].till))
    else None
  }

  /** What the wrapper writes into the history once the change is confirmed: an entry for a till that exists,
      whatever the client id that names it. */
  function Note(zNrs: map<TillId, int>, w: TseId, op: SyncOp): seq<Entry>
  {
    match op
    case Add(till) => if till in zNrs then [Entry(till, w, Register, zNrs[till])] else []
    case Remove(client) =>
      match ParseInt(client)
      case Some(till) => if till in zNrs then [Entry(till, w, Deregister, zNrs[till])] else []
      case None => []
  }

  function Noted(s: State, w: TseId, phase: Phase, reply: D.Reply): seq<Entry>
  {
    if reply.Success? && Change(s.orders, phase).Some? then Note(s.zNrs, w, Change(s.orders, phase).value) else []
  }

  function SetWrapper(s: State, w: TseId, x: Wrapper): State
  {
    s.(wrappers := s.wrappers[w := x])
  }

  ghost function Apply(s: State, step: Step): State
    requires Enabled(s, step)
  {
    match step
    case Book(o, till, bookedAt, processType, processData) =>
      s.(orders := s.orders[o := Row(till, bookedAt, processType, processData, New, None, None)])
    case Assign(till, tse) => s.(tills := s.tills[till := tse])
    case CloseTill(till) => s.(zNrs := s.zNrs[till := s.zNrs[till] + 1])
    case Restart =>
      s.(orders := FailPending(s.orders),
         completed := s.completed + Ascending(PendingOrders(s.orders)),
         wrappers := map w | w in s.wrappers :: Disconnect(s.wrappers[w]))
    case Connect(w) => SetWrapper(s, w, Ask(s.wrappers[w], s.password))
    case Plan(w, todo) =>
      SetWrapper(s, w, s.wrappers[w].(phase := Syncing(AssignedClients(s.tills, w), todo, None)))
    case SyncNext(w) => SetWrapper(s, w, SendOp(s.wrappers[w], s.password))
    case Ready(w) => SetWrapper(s, w, s.wrappers[w].(phase := Idle))
    case Grab(w, o) => SetWrapper(s, w, s.wrappers[w].(phase := Grabbed(o))).(orders := Claim(s.orders, o, w))
    case BeginSign(w) =>
      var x := s.wrappers[w];
      var o := x.phase.order;
      var row := s.orders[o];
      SetWrapper(s, w, if ClientOf(row.till) in x.tills then Send(x, Starting(o, x.nextId), row, s.password)
                       else Send(x, Registering(o, x.nextId), row, s.password))
    case Ping(w) => SetWrapper(s, w, SendPing(s.wrappers[w]))
    case DeviceStep(w, now) => SetWrapper(s, w, Deliver(s.wrappers[w], now))
    case Late(w, k, now) => SetWrapper(s, w, DeliverLate(s.wrappers[w], k, now))
    case Receive(w) =>
      var x := s.wrappers[w];
      var answer, y := x.toWrapper[0], x.(toWrapper := x.toWrapper[1..]);
      if !Awaits(x.phase, answer.id) then SetWrapper(s, w, y)
      else
        var noted := s.(history := s.history + Noted(s, w, x.phase, answer.reply));
        if !x.phase.Holds() then SetWrapper(noted, w, ReactSync(y, answer.reply))
        else
          var (z, signature) := React(y, s.orders[x.phase.order], answer.reply, s.password);
          if signature.None? then SetWrapper(noted, w, z)
          else SetWrapper(noted, w, z).(orders := Complete(s.orders, x.phase.order, signature.value),
                                        completed := s.completed + [x.phase.order])
    case Timeout(w) =>
      var o := s.wrappers[w].phase.order;
      SetWrapper(s, w, s.wrappers[w].(phase := Idle)).(orders := Fail(s.orders, o), completed := s.completed + [o])
    case Lose(w) => SetWrapper(s, w, Disconnect(s.wrappers[w]))
    case Sweep(w, now) =>
      var stale := Stale(s.orders, s.tills, w, now);
      s.(orders := FailAll(s.orders, stale, w), completed := s.completed + Ascending(stale))
  }

  function Awaited(phase: Phase): Option<nat>
  {
    if phase.Asking? || phase.Registering? || phase.Starting? || phase.Finishing? then Some(phase.id)
    else if phase.Syncing? && phase.todo != [] then phase.sent
    else None
  }

  predicate Awaits(phase: Phase, id: nat) { Awaited(phase) == Some(id) }

  /** Nothing was ordered yet; each device may have any consistent past, and the history any entries. */
  ghost predicate Init(s: State)
  {
    && s.orders == map[] && s.completed == [] && s.zNrs.Keys == s.tills.Keys
    && forall w :: w in s.wrappers ==>
         var device := s.wrappers[w].device;
         device.Inv() && s.wrappers[w] == Wrapper(Disconnected, 0, [], [], [], {}, device, [], [])
  }

  /** A run: states[i + 1] follows from states[i] by steps[i]. */
  ghost predicate Behavior(states: seq<State>, steps: seq<Step>)
  {
    && |states| == |steps| + 1
    && Init(states[0])
    && forall i :: 0 <= i < |steps| ==>
         Enabled(states[i], steps[i]) && Apply(states[i], steps[i]) == states[i + 1]
  }
}
