/** Which clients a wrapper takes its device to have, and when it is right: the device's clients also change by
    requests of connections that were lost, and nobody tells the wrapper. */
module SigningClients {

  import opened Wrappers
  import opened SignatureTable
  import opened Signing
  import opened SigningSafety
  import opened SigningHistory
  import D = VirtualTse

  // ---- what the wrapper is about to know ---------------------------------------------

  function AnswerTo(answers: seq<Answer>, id: nat): Option<D.Reply>
  {
    if answers == [] then None else if answers[0].id == id then Some(answers[0].reply) else AnswerTo(answers[1..], id)
  }

  /** The awaited answer, once it is on its way. */
  function UnderWay(x: Wrapper): Option<D.Reply>
  {
    match Awaited(x.phase)
    case Some(id) => AnswerTo(x.toWrapper, id)
    case None => None
  }

  /** The change of clients that is confirmed by an answer on its way. */
  function Confirmed(orders: Orders, x: Wrapper): Option<SyncOp>
  {
    if UnderWay(x) == Some(D.Success) then Change(orders, x.phase) else None
  }

  predicate Told(x: Wrapper)
  {
    UnderWay(x).Some? && UnderWay(x).value.Status? && UnderWay(x).value.clients.Some?
  }

  /** The device has answered the question with which the connection started. */
  predicate Informs(x: Wrapper) { !x.phase.Disconnected? && (x.phase.Asking? ==> Told(x)) }

  /** What the wrapper takes for the clients of its device, once it has all answers on their way. */
  function Belief(orders: Orders, x: Wrapper): set<string>
  {
    if x.phase.Asking? then (if Told(x) then Visible(UnderWay(x).value.clients.value) else {})
    else
      match Confirmed(orders, x)
      case Some(op) => After(x.tills, op)
      case None => x.tills
  }

  // ---- what happened on the device since ---------------------------------------------

  /** A request of a lost connection registered or deregistered the client. */
  predicate ChangesLate(t: Taken, client: string)
  {
    && t.late && t.reply.Success? && (t.command.RegisterClientId? || t.command.DeregisterClientId?)
    && t.command.clientId == Some(client)
  }

  /** How often that happened after position `a`. */
  function LateChanges(taken: seq<Taken>, a: nat, client: string): nat
  {
    if |taken| <= a + 1 then 0
    else LateChanges(taken[..|taken| - 1], a, client) + (if ChangesLate(taken[|taken| - 1], client) then 1 else 0)
  }

  predicate IsStatus(t: Taken)
  {
    !t.late && t.command.GetDeviceStatus? && t.reply.Status? && t.reply.clients.Some?
  }

  /** The latest answer of the device about its clients. */
  ghost predicate LastStatus(taken: seq<Taken>, a: nat)
  {
    && a < |taken| && IsStatus(taken[a])
    && forall m :: a < m < |taken| && !taken[m].late ==> !taken[m].command.GetDeviceStatus?
  }

  predicate RightAbout(x: Wrapper, belief: set<string>, client: string) { client in x.device.open <==> client in belief }

  ghost predicate KnowsSince(x: Wrapper, belief: set<string>, a: nat)
  {
    && LastStatus(x.taken, a)
    && forall c :: !Hidden(c) ==> (RightAbout(x, belief, c) <==> LateChanges(x.taken, a, c) % 2 == 0)
  }

  ghost predicate Knows(x: Wrapper, belief: set<string>) { exists a: nat :: KnowsSince(x, belief, a) }

  ghost predicate ClientsInv(orders: Orders, x: Wrapper) { Informs(x) ==> Knows(x, Belief(orders, x)) }

  ghost predicate Clients(s: State)
  {
    forall w :: w in s.wrappers ==> ClientsInv(s.orders, s.wrappers[w])
  }

  // ---- answers on their way ----------------------------------------------------------

  lemma {:induction false} AnswerAppended(answers: seq<Answer>, a: Answer, id: nat)
    ensures AnswerTo(answers + [a], id)
            == if AnswerTo(answers, id).Some? then AnswerTo(answers, id) else if a.id == id then Some(a.reply) else None
  {
    if answers != [] {
      AnswerAppended(answers[1..], a, id);
      assert (answers + [a])[1..] == answers[1..] + [a];
    }
  }

  lemma {:induction false} NoAnswerYet(answers: seq<Answer>, id: nat)
    requires forall i :: 0 <= i < |answers| ==> answers[i].id != id
    ensures AnswerTo(answers, id).None?
  {
    if answers != [] {
      NoAnswerYet(answers[1..], id);
    }
  }

  // ---- one more request taken --------------------------------------------------------

  lemma LateChangesAppended(taken: seq<Taken>, t: Taken, a: nat, client: string)
    requires a < |taken|
    ensures LateChanges(taken + [t], a, client) == LateChanges(taken, a, client) + if ChangesLate(t, client) then 1 else 0
  {
    assert (taken + [t])[..|taken|] == taken;
  }

  lemma LastStatusStays(taken: seq<Taken>, t: Taken, a: nat)
    requires LastStatus(taken, a) && (t.late || !t.command.GetDeviceStatus?)
    ensures LastStatus(taken + [t], a)
  {
  }

  /** A late request: the belief stays, the device changes. */
  lemma LateKnows(x: Wrapper, belief: set<string>, k: nat, now: int)
    requires k < |x.adrift| && Knows(x, belief)
    ensures Knows(DeliverLate(x, k, now), belief)
  {
    var y := DeliverLate(x, k, now);
    var t := y.taken[|x.taken|];
    assert y.taken == x.taken + [t] && t.late;
    var a: nat :| KnowsSince(x, belief, a);
    hide DeliverLate, LateChanges, ChangesLate;
    LastStatusStays(x.taken, t, a);
    forall c | !Hidden(c) ensures RightAbout(y, belief, c) <==> LateChanges(y.taken, a, c) % 2 == 0 {
      LateChangesAppended(x.taken, t, a, c);
      LateFlips(x, k, now, c);
    }
    assert KnowsSince(y, belief, a);
  }

  lemma LateFlips(x: Wrapper, k: nat, now: int, client: string)
    requires k < |x.adrift|
    ensures var y := DeliverLate(x, k, now);
            ChangesLate(y.taken[|x.taken|], client) <==> (client in x.device.open <==> client !in y.device.open)
  {
    D.ActOnClients(x.device, x.adrift[k].command, now);
    hide D.Act;
  }

  /** A request on the live connection: belief and device change together. */
  lemma LiveKnows(x: Wrapper, belief: set<string>, y: Wrapper, t: Taken, belief': set<string>)
    requires Knows(x, belief) && y.taken == x.taken + [t] && !t.late && !t.command.GetDeviceStatus?
    requires forall c :: !Hidden(c) ==> (RightAbout(x, belief, c) <==> RightAbout(y, belief', c))
    ensures Knows(y, belief')
  {
    hide LateChanges;
    var a: nat :| KnowsSince(x, belief, a);
    LastStatusStays(x.taken, t, a);
    forall c | !Hidden(c) ensures RightAbout(y, belief', c) <==> LateChanges(y.taken, a, c) % 2 == 0 {
      LateChangesAppended(x.taken, t, a, c);
    }
    assert KnowsSince(y, belief', a);
  }

  /** The device tells its clients. */
  lemma StatusKnows(x: Wrapper, y: Wrapper, t: Taken)
    requires y.taken == x.taken + [t] && IsStatus(t) && t.reply.clients.value == y.device.open.Keys
    ensures Knows(y, Visible(t.reply.clients.value))
  {
    var belief := Visible(t.reply.clients.value);
    assert LastStatus(y.taken, |x.taken|);
    assert KnowsSince(y, belief, |x.taken|);
  }

  // ---- one wrapper -------------------------------------------------------------------

  lemma AnswerToLive(x: Wrapper, now: int, id: nat)
    requires x.toDevice != [] && QueueInv(x) && Awaits(x.phase, id)
    ensures var y := Deliver(x, now);
            && UnderWay(y) == (if x.toDevice[0].id == id then Some(y.taken[|x.taken|].reply) else UnderWay(x))
            && (x.toDevice[0].id == id ==> UnderWay(x).None?)
  {
    var y := Deliver(x, now);
    hide D.Act;
    AnswerAppended(x.toWrapper, Answer(x.toDevice[0].id, y.taken[|x.taken|].reply), id);
    if x.toDevice[0].id == id {
      NoAnswerYet(x.toWrapper, id);
    }
  }

  /** The question about the clients is answered. */
  lemma StatusTaken(orders: Orders, w: TseId, x: Wrapper, password: string, now: int)
    requires WrapperInv(orders, w, x, password) && x.phase.Asking? && x.toDevice != []
    requires ClientsInv(orders, x)
    ensures ClientsInv(orders, Deliver(x, now))
  {
    var head, y := x.toDevice[0], Deliver(x, now);
    var t := y.taken[|x.taken|];
    AnswerToLive(x, now, x.phase.id);
    assert y.device.open == x.device.open && (head.id == x.phase.id && t.reply.Status? && t.reply.clients.Some? ==>
             t.reply.clients.value == y.device.open.Keys);
    hide D.Act, LogInv, Knows, QueueInv;
    if head.id == x.phase.id {
      if Told(y) {
        StatusKnows(x, y, t);
      }
    } else if Informs(x) {
      LiveKnows(x, Belief(orders, x), y, t, Belief(orders, y));
    }
  }

  /** A change of clients is answered. */
  lemma ChangeTaken(orders: Orders, x: Wrapper, now: int, op: SyncOp, password: string)
    requires x.toDevice != [] && QueueInv(x) && Awaits(x.phase, x.toDevice[0].id) && ClientsInv(orders, x)
    requires (x.phase.Syncing? || x.phase.Registering?) && Change(orders, x.phase) == Some(op)
    requires x.toDevice[0].command == OpCommand(op, password)
    requires match op case Add(till) => ClientOf(till) !in x.tills case Remove(client) => client in x.tills
    ensures ClientsInv(orders, Deliver(x, now))
  {
    var y := Deliver(x, now);
    var t := y.taken[|x.taken|];
    D.ActOnClients(x.device, x.toDevice[0].command, now);
    AnswerToLive(x, now, x.toDevice[0].id);
    assert y.taken == x.taken + [t] && !t.late && !t.command.GetDeviceStatus?;
    hide D.Act, Knows, QueueInv, Deliver, Change, ClientOf;
    assert Belief(orders, x) == x.tills;
    LiveKnows(x, x.tills, y, t, Belief(orders, y));
  }

  /** Any other request leaves the clients alone. */
  lemma OtherTaken(orders: Orders, x: Wrapper, now: int)
    requires x.toDevice != [] && QueueInv(x) && ClientsInv(orders, x) && !x.phase.Asking?
    requires !IsClientCommand(x.toDevice[0].command)
    requires Awaits(x.phase, x.toDevice[0].id) ==> Change(orders, x.phase).None?
    ensures ClientsInv(orders, Deliver(x, now))
  {
    var head, y := x.toDevice[0], Deliver(x, now);
    var t := y.taken[|x.taken|];
    D.ActOnClients(x.device, head.command, now);
    if Awaited(x.phase).Some? {
      AnswerToLive(x, now, Awaited(x.phase).value);
    }
    hide D.Act, Knows, QueueInv;
    if Informs(x) {
      LiveKnows(x, Belief(orders, x), y, t, Belief(orders, y));
    }
  }

  lemma LiveClients(orders: Orders, w: TseId, x: Wrapper, password: string, now: int)
    requires WrapperInv(orders, w, x, password) && ClientsInv(orders, x) && x.toDevice != []
    ensures ClientsInv(orders, Deliver(x, now))
  {
    hide LogInv, ClientsInv, Deliver, AnswerInv, ClientOf;
    var head := x.toDevice[0];
    if x.phase.Asking? {
      StatusTaken(orders, w, x, password, now);
    } else if x.phase.Syncing? && Awaits(x.phase, head.id) {
      var op := x.phase.todo[0];
      assert op in x.phase.todo;
      match op {
        case Add(till) => assert ClientOf(till) in Added(x.phase.todo);
        case Remove(client) => assert client in Removed(x.phase.todo);
      }
      ChangeTaken(orders, x, now, op, password);
    } else if x.phase.Registering? && Awaits(x.phase, head.id) {
      ChangeTaken(orders, x, now, Add(orders[x.phase.order].till), password);
    } else {
      OtherTaken(orders, x, now);
    }
  }

  /** Nothing happened on the device, and the wrapper takes it for what it did. */
  lemma SameClients(orders: Orders, orders': Orders, x: Wrapper, y: Wrapper)
    requires ClientsInv(orders, x) && y.taken == x.taken && y.device == x.device
    requires Informs(y) ==> Informs(x) && Belief(orders', y) == Belief(orders, x)
    ensures ClientsInv(orders', y)
  {
    hide Informs, Belief, LateChanges;
    if Informs(y) {
      var a: nat :| KnowsSince(x, Belief(orders, x), a);
      assert KnowsSince(y, Belief(orders', y), a);
    }
  }

  /** The wrapper takes the answer about its clients or about a change of them. */
  lemma SyncAnswerClients(orders: Orders, x: Wrapper)
    requires x.toWrapper != [] && Awaits(x.phase, x.toWrapper[0].id) && !x.phase.Holds()
    ensures var z := ReactSync(x.(toWrapper := x.toWrapper[1..]), x.toWrapper[0].reply);
            && z.taken == x.taken && z.device == x.device
            && (Informs(z) ==> Informs(x) && forall orders' :: Belief(orders', z) == Belief(orders, x))
  {
    hide ClientOf, Visible;
    assert UnderWay(x) == Some(x.toWrapper[0].reply);
  }

  /** The wrapper takes the answer about its order. */
  lemma OrderAnswerClients(orders: Orders, w: TseId, x: Wrapper, password: string)
    requires WrapperInv(orders, w, x, password) && x.toWrapper != []
    requires Awaits(x.phase, x.toWrapper[0].id) && x.phase.Holds()
    ensures var z := React(x.(toWrapper := x.toWrapper[1..]), orders[x.phase.order], x.toWrapper[0].reply, password).0;
            && z.taken == x.taken && z.device == x.device
            && (Informs(z) ==> Informs(x) && forall orders' :: Belief(orders', z) == Belief(orders, x))
  {
    assert Held(orders, w, x.phase.order);
    hide LogInv, SetupInv, WaitInv, AskedInv, ClientOf, CommandFor, Visible;
    assert UnderWay(x) == Some(x.toWrapper[0].reply);
    var z := React(x.(toWrapper := x.toWrapper[1..]), orders[x.phase.order], x.toWrapper[0].reply, password).0;
    if Awaited(z.phase).Some? {
      NoAnswerYet(z.toWrapper, Awaited(z.phase).value);
    }
  }

  lemma SkippedAnswer(orders: Orders, x: Wrapper)
    requires x.toWrapper != [] && !Awaits(x.phase, x.toWrapper[0].id)
    ensures var y := x.(toWrapper := x.toWrapper[1..]);
            UnderWay(y) == UnderWay(x) && Belief(orders, y) == Belief(orders, x) && (Informs(y) <==> Informs(x))
  {
    hide Visible, ClientOf;
  }

  /** What the rows say about their tills stays, and with it what a wrapper is about to know. */
  lemma SameBelief(orders: Orders, orders': Orders, x: Wrapper)
    requires SameData(orders, orders') && (x.phase.Registering? ==> x.phase.order in orders)
    ensures Belief(orders', x) == Belief(orders, x)
  {
    hide Visible, ClientOf, AnswerTo;
  }

  lemma AnswerClients(s: State, w: TseId)
    requires Inv(s) && Clients(s) && Enabled(s, Receive(w))
    ensures w in Apply(s, Receive(w)).wrappers
    ensures ClientsInv(Apply(s, Receive(w)).orders, Apply(s, Receive(w)).wrappers[w])
  {
    StepKeepsData(s, Receive(w));
    var x, s' := s.wrappers[w], Apply(s, Receive(w));
    assert WrapperInv(s.orders, w, x, s.password) && ClientsInv(s.orders, x);
    if x.phase.Registering? {
      assert Held(s.orders, w, x.phase.order);
    }
    hide Inv, WrapperInv, ClientsInv, Clients, Informs, Belief, React, ReactSync, Noted, Complete, SameData;
    if !Awaits(x.phase, x.toWrapper[0].id) {
      SkippedAnswer(s.orders, x);
    } else if x.phase.Holds() {
      OrderAnswerClients(s.orders, w, x, s.password);
    } else {
      SyncAnswerClients(s.orders, x);
    }
    SameClients(s.orders, s'.orders, x, s'.wrappers[w]);
  }

  /** A step of the wrapper that concerns neither the device nor an answer. */
  lemma OwnBelief(s: State, step: Step, w: TseId)
    requires Enabled(s, step) && Actor(step) == Some(w) && w in s.wrappers && QueueInv(s.wrappers[w])
    requires !step.DeviceStep? && !step.Late? && !step.Receive?
    ensures w in Apply(s, step).wrappers
    ensures var x, y := s.wrappers[w], Apply(s, step).wrappers[w];
            && y.taken == x.taken && y.device == x.device
            && (Informs(y) ==> Informs(x) && Belief(Apply(s, step).orders, y) == Belief(s.orders, x))
  {
    hide D.Act, CommandFor, Visible, SyncPlan, FailAll, Stale, Claim, Fail, AssignedClients, Next, ClientOf, Ascending,
      OpCommand, AskStatus;
    var y := Apply(s, step).wrappers[w];
    if (step.SyncNext? || step.BeginSign?) && Awaited(y.phase).Some? {
      NoAnswerYet(y.toWrapper, Awaited(y.phase).value);
    }
  }

  lemma StepClients(s: State, step: Step, v: TseId)
    requires Inv(s) && Clients(s) && Enabled(s, step) && v in s.wrappers && v in Apply(s, step).wrappers
    ensures ClientsInv(Apply(s, step).orders, Apply(s, step).wrappers[v])
  {
    StepKeepsData(s, step);
    var x, y := s.wrappers[v], Apply(s, step).wrappers[v];
    assert WrapperInv(s.orders, v, x, s.password) && QueueInv(x) && ClientsInv(s.orders, x);
    assert x.phase.Registering? ==> x.phase.order in s.orders;
    if step.Restart? {
      assert !Informs(y);
    } else if Actor(step) != Some(v) {
      OthersStay(s, step, v);
      SameBelief(s.orders, Apply(s, step).orders, x);
      SameClients(s.orders, Apply(s, step).orders, x, y);
    } else {
      ActorClients(s, step, v);
    }
  }

  lemma ActorClients(s: State, step: Step, w: TseId)
    requires Inv(s) && Clients(s) && Enabled(s, step) && Actor(step) == Some(w) && w in Apply(s, step).wrappers
    requires w in s.wrappers && WrapperInv(s.orders, w, s.wrappers[w], s.password)
    ensures ClientsInv(Apply(s, step).orders, Apply(s, step).wrappers[w])
  {
    var x, y := s.wrappers[w], Apply(s, step).wrappers[w];
    assert ClientsInv(s.orders, x);
    if step.Receive? {
      AnswerClients(s, w);
    } else if step.DeviceStep? {
      hide Inv, Clients, WrapperInv, ClientsInv, Deliver;
      LiveClients(s.orders, w, x, s.password, step.now);
    } else if step.Late? {
      hide Inv, Clients, WrapperInv, Knows;
      LateBelief(s.orders, x, step.k, step.now);
    } else {
      hide Inv, Clients, ClientsInv, Belief, Informs;
      OwnBelief(s, step, w);
      SameClients(s.orders, Apply(s, step).orders, x, y);
    }
  }

  lemma LateBelief(orders: Orders, x: Wrapper, k: nat, now: int)
    requires ClientsInv(orders, x) && k < |x.adrift|
    ensures ClientsInv(orders, DeliverLate(x, k, now))
  {
    hide Knows, D.Act, ClientOf, Visible;
    if Informs(x) {
      LateKnows(x, Belief(orders, x), k, now);
    }
  }

  lemma StepKeepsClients(s: State, step: Step)
    requires Inv(s) && Clients(s) && Enabled(s, step)
    ensures Clients(Apply(s, step))
  {
    WrappersStay(s, step);
    hide Inv, Enabled, Apply, ClientsInv;
    forall v | v in Apply(s, step).wrappers ensures ClientsInv(Apply(s, step).orders, Apply(s, step).wrappers[v]) {
      StepClients(s, step, v);
    }
  }

  lemma {:induction false} ClientsAlways(states: seq<State>, steps: seq<Step>, i: nat)
    requires Behavior(states, steps) && i <= |steps|
    ensures Clients(states[i])
  {
    hide Inv;
    if i > 0 {
      ClientsAlways(states, steps, i - 1);
      InvAlways(states, steps, i - 1);
      assert Enabled(states[i - 1], steps[i - 1]) && Apply(states[i - 1], steps[i - 1]) == states[i];
      hide Clients;
      StepKeepsClients(states[i - 1], steps[i - 1]);
    }
  }

  // ---- when the wrapper is right -----------------------------------------------------

  /** Whenever the device has answered the question of the connection, there is its latest such answer, at `a`,
      among the requests it took; and the wrapper is right about a client exactly if the client was changed an
      even number of times since by requests of lost connections. */
  lemma RightUnlessLate(states: seq<State>, steps: seq<Step>, i: nat, w: TseId) returns (a: nat)
    requires Behavior(states, steps) && i <= |steps| && w in states[i].wrappers && Informs(states[i].wrappers[w])
    ensures var x, belief := states[i].wrappers[w], Belief(states[i].orders, states[i].wrappers[w]);
            && LastStatus(x.taken, a)
            && forall c :: !Hidden(c) ==> (RightAbout(x, belief, c) <==> LateChanges(x.taken, a, c) % 2 == 0)
  {
    RunLength(states, steps);
    ClientsAlways(states, steps, i);
    hide Behavior, LateChanges, LastStatus, RightAbout, Belief, Informs;
    var x, belief := states[i].wrappers[w], Belief(states[i].orders, states[i].wrappers[w]);
    assert ClientsInv(states[i].orders, x);
    assert Knows(x, belief);
    a :| KnowsSince(x, belief, a);
  }

  /** While a signature is under way, its client is registered on the device if and only if it was changed an
      even number of times by requests of lost connections since the device told its clients. */
  lemma SigningClientIsRegistered(states: seq<State>, steps: seq<Step>, i: nat, w: TseId) returns (a: nat)
    requires Behavior(states, steps) && i <= |steps| && w in states[i].wrappers
    requires states[i].wrappers[w].phase.Starting? || states[i].wrappers[w].phase.Finishing?
    ensures var x := states[i].wrappers[w];
            && x.phase.order in states[i].orders && LastStatus(x.taken, a)
            && var client := ClientOf(states[i].orders[x.phase.order].till);
               client in x.device.open <==> LateChanges(x.taken, a, client) % 2 == 0
  {
    RunLength(states, steps);
    InvAlways(states, steps, i);
    var x := states[i].wrappers[w];
    assert WrapperInv(states[i].orders, w, x, states[i].password);
    ClientIsVisible(states[i].orders[x.phase.order].till);
    hide Behavior, LateChanges, LastStatus, Inv, ClientOf;
    a := RightUnlessLate(states, steps, i, w);
    assert Belief(states[i].orders, x) == x.tills;
  }

  /** When a wrapper becomes ready, the set it keeps is that of the tills assigned to it when it planned its
      changes; and for each client, the device has it exactly as the wrapper thinks if and only if it was changed
      an even number of times by requests of lost connections since the device told its clients. */
  lemma ReadyIsReconciled(states: seq<State>, steps: seq<Step>, i: nat, w: TseId) returns (k: nat, a: nat)
    requires Behavior(states, steps) && i < |steps| && steps[i] == Ready(w)
    ensures k < i && steps[k].Plan? && steps[k].w == w
    ensures var x := states[i + 1].wrappers[w];
            && x.tills == AssignedClients(states[k].tills, w) && LastStatus(x.taken, a)
            && forall c :: !Hidden(c) ==> ((c in x.device.open <==> c in x.tills) <==> LateChanges(x.taken, a, c) % 2 == 0)
  {
    RunLength(states, steps);
    InvAlways(states, steps, i);
    assert Enabled(states[i], steps[i]) && Apply(states[i], steps[i]) == states[i + 1];
    ReadyKnowsItsTills(states[i], w);
    k := SyncStarted(states, steps, i, w);
    var x := states[i].wrappers[w];
    hide Behavior, LateChanges, LastStatus, Inv, ClientOf, AssignedClients;
    assert states[i + 1].wrappers[w] == x.(phase := Idle);
    a := RightUnlessLate(states, steps, i, w);
    assert Belief(states[i].orders, x) == x.tills;
  }

  /** Hence the device shows exactly the tills of a ready wrapper if and only if every client was. */
  lemma ReadyShowsOnlyItsTills(states: seq<State>, steps: seq<Step>, i: nat, w: TseId) returns (k: nat, a: nat)
    requires Behavior(states, steps) && i < |steps| && steps[i] == Ready(w)
    ensures k < i && steps[k].Plan? && steps[k].w == w
    ensures var x := states[i + 1].wrappers[w];
            && LastStatus(x.taken, a)
            && (Visible(x.device.open.Keys) == AssignedClients(states[k].tills, w)
                <==> forall c :: !Hidden(c) ==> LateChanges(x.taken, a, c) % 2 == 0)
  {
    RunLength(states, steps);
    k, a := ReadyIsReconciled(states, steps, i, w);
    var x := states[i + 1].wrappers[w];
    hide Behavior, LateChanges, LastStatus;
    AssignedAreVisible(states[k].tills, w);
    hide AssignedClients, Hidden;
    if forall c :: !Hidden(c) ==> LateChanges(x.taken, a, c) % 2 == 0 {
      forall c ensures c in Visible(x.device.open.Keys) <==> c in x.tills {
      }
    }
  }

  lemma AssignedAreVisible(tills: Tills, w: TseId)
    ensures forall c :: c in AssignedClients(tills, w) ==> !Hidden(c)
  {
    forall t | t in tills && tills[t] == Some(w) ensures !Hidden(ClientOf(t)) {
      ClientIsVisible(t);
    }
  }
}
