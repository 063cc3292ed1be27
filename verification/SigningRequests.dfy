/** The requests that travel to a device: none is lost or doubled, and none ever names a client that is hidden
    from the wrapper. */
module SigningRequests {

  import opened Wrappers
  import opened Text
  import opened SignatureTable
  import opened Signing
  import opened SigningSafety
  import D = VirtualTse

  // ---- hidden clients ----------------------------------------------------------------

  predicate IsHidden(client: string)
  {
    client == "DummyDefaultClientId" || (|client| >= 16 && client[..16] == "DN TSEProduction")
  }

  /** No deregistration of a hidden client. */
  predicate Spares(command: D.Command)
  {
    command.DeregisterClientId? && command.clientId.Some? ==> !IsHidden(command.clientId.value)
  }

  predicate Connected(phase: Phase) { !phase.Disconnected? && !phase.Asking? }

  /** Nothing the wrapper knows, plans, sends or has sent is about a hidden client, and past the first question
      the dummy client is on the device. */
  ghost predicate Discreet(x: Wrapper)
  {
    && (forall c :: c in x.tills ==> !IsHidden(c))
    && (x.phase.Syncing? ==> forall op :: op in x.phase.todo && op.Remove? ==> !IsHidden(op.client))
    && (forall i :: 0 <= i < |x.toDevice| ==> Spares(x.toDevice[i].command))
    && (forall i :: 0 <= i < |x.adrift| ==> Spares(x.adrift[i].command))
    && (forall i :: 0 <= i < |x.taken| ==> Spares(x.taken[i].command))
    && (forall i :: 0 <= i < |x.toWrapper| ==> DummyReported(x.toWrapper[i].reply, x.device))
    && (Connected(x.phase) ==> "DummyDefaultClientId" in x.device.open)
  }

  /** A report of the dummy client still holds. */
  ghost predicate DummyReported(reply: D.Reply, device: D.Tse)
  {
    reply.Status? && reply.clients.Some? && "DummyDefaultClientId" in reply.clients.value ==>
      "DummyDefaultClientId" in device.open
  }

  lemma HiddenIsHidden(client: string)
    ensures Hidden(client) <==> IsHidden(client)
  {
  }

  lemma TillIsShown(till: TillId)
    ensures !IsHidden(ClientOf(till))
  {
    hide PrintInt;
    PrintIntParses(till);
    var s := ClientOf(till);
    assert 'D' !in s;
    assert "DummyDefaultClientId"[0] == 'D' && "DN TSEProduction"[0] == 'D';
    assert forall i :: 0 <= i < |s| ==> s[i] in s && s[i] != 'D';
  }

  /** Whatever spares the hidden clients leaves them on the device. */
  lemma SparedStay(s: D.Tse, command: D.Command, now: int)
    requires Spares(command)
    ensures forall c :: c in s.open && IsHidden(c) ==> c in D.Act(s, command, now).0.open
    ensures DummyReported(D.Act(s, command, now).1, D.Act(s, command, now).0)
  {
    D.ActOnClients(s, command, now);
    ReportsItsClients(s, command, now);
    hide D.Act, IsHidden;
  }

  lemma ReportsItsClients(s: D.Tse, command: D.Command, now: int)
    ensures var (t, reply) := D.Act(s, command, now);
            reply.Status? && reply.clients.Some? ==> t.open == s.open && reply.clients.value == s.open.Keys
  {
  }

  lemma TakingIsDiscreet(x: Wrapper, y: Wrapper, command: D.Command, now: int)
    requires Discreet(x) && Spares(command)
    requires |y.taken| == |x.taken| + 1 && y.taken[..|x.taken|] == x.taken && y.taken[|x.taken|].command == command
    requires (y.device, y.taken[|x.taken|].reply) == D.Act(x.device, command, now)
    requires y.phase == x.phase && y.tills == x.tills
    requires forall r :: r in y.toDevice ==> r in x.toDevice
    requires forall r :: r in y.adrift ==> r in x.adrift
    requires forall a :: a in y.toWrapper ==> a in x.toWrapper || a.reply == y.taken[|x.taken|].reply
    ensures Discreet(y)
  {
    SparedStay(x.device, command, now);
    hide D.Act, IsHidden, Spares;
    forall i | 0 <= i < |y.toDevice| ensures Spares(y.toDevice[i].command) {
      assert y.toDevice[i] in x.toDevice;
    }
    forall i | 0 <= i < |y.adrift| ensures Spares(y.adrift[i].command) {
      assert y.adrift[i] in x.adrift;
    }
    forall i | 0 <= i < |y.taken| ensures Spares(y.taken[i].command) {
      assert i < |x.taken| ==> y.taken[..|x.taken|][i] == x.taken[i];
    }
    assert IsHidden("DummyDefaultClientId") by { HiddenDummy(); }
    forall i | 0 <= i < |y.toWrapper| ensures DummyReported(y.toWrapper[i].reply, y.device) {
      assert y.toWrapper[i] in y.toWrapper;
    }
  }

  lemma HiddenDummy()
    ensures IsHidden("DummyDefaultClientId")
  {
  }

  lemma DeliverIsDiscreet(x: Wrapper, now: int)
    requires Discreet(x) && x.toDevice != []
    ensures Discreet(Deliver(x, now))
  {
    TakingIsDiscreet(x, Deliver(x, now), x.toDevice[0].command, now);
    hide Discreet;
  }

  lemma LateIsDiscreet(x: Wrapper, k: nat, now: int)
    requires Discreet(x) && k < |x.adrift|
    ensures Discreet(DeliverLate(x, k, now))
  {
    TakingIsDiscreet(x, DeliverLate(x, k, now), x.adrift[k].command, now);
    hide Discreet;
  }

  lemma DisconnectIsDiscreet(x: Wrapper)
    requires Discreet(x)
    ensures Discreet(Disconnect(x))
  {
    hide Spares, DummyReported, IsHidden;
  }

  /** One request more, and a phase that follows. */
  lemma SendingIsDiscreet(x: Wrapper, y: Wrapper)
    requires Discreet(x) && y.device == x.device && y.adrift == x.adrift && y.taken == x.taken
    requires y.toDevice == x.toDevice || (|y.toDevice| == |x.toDevice| + 1 && y.toDevice[..|x.toDevice|] == x.toDevice
                                          && Spares(y.toDevice[|x.toDevice|].command))
    requires forall a :: a in y.toWrapper ==> a in x.toWrapper
    requires forall c :: c in y.tills ==> c in x.tills || !IsHidden(c)
    requires y.phase.Syncing? ==>
               forall op :: op in y.phase.todo && op.Remove? ==> (x.phase.Syncing? && op in x.phase.todo) || !IsHidden(op.client)
    requires Connected(y.phase) ==> Connected(x.phase) || "DummyDefaultClientId" in x.device.open
    ensures Discreet(y)
  {
    hide Spares, DummyReported, IsHidden;
    forall i | 0 <= i < |y.toDevice| ensures Spares(y.toDevice[i].command) {
      assert i < |x.toDevice| ==> y.toDevice[..|x.toDevice|][i] == x.toDevice[i];
    }
    forall i | 0 <= i < |y.toWrapper| ensures DummyReported(y.toWrapper[i].reply, y.device) {
      assert y.toWrapper[i] in x.toWrapper;
    }
  }

  /** The wrapper's reaction to an answer. */
  lemma AnswerIsDiscreet(x: Wrapper, row: Row, password: string)
    requires Discreet(x) && x.toWrapper != []
    ensures x.phase.Registering? || x.phase.Starting? || x.phase.Finishing? ==>
              Discreet(React(x.(toWrapper := x.toWrapper[1..]), row, x.toWrapper[0].reply, password).0)
    ensures x.phase.Asking? || (x.phase.Syncing? && x.phase.todo != []) ==>
              Discreet(ReactSync(x.(toWrapper := x.toWrapper[1..]), x.toWrapper[0].reply))
  {
    var y, reply := x.(toWrapper := x.toWrapper[1..]), x.toWrapper[0].reply;
    assert Discreet(y) by { SendingIsDiscreet(x, y); }
    DisconnectIsDiscreet(y);
    TillIsShown(row.till);
    if x.phase.Registering? || x.phase.Starting? || x.phase.Finishing? {
      var z := React(y, row, reply, password).0;
      if z != Disconnect(y) {
        hide Discreet, IsHidden, ClientOf, Disconnect;
        SendingIsDiscreet(y, z);
      }
    }
    if x.phase.Asking? || (x.phase.Syncing? && x.phase.todo != []) {
      AnswerToSync(x, y, reply);
    }
  }

  lemma AnswerToSync(x: Wrapper, y: Wrapper, reply: D.Reply)
    requires Discreet(x) && Discreet(y) && x.toWrapper != [] && reply == x.toWrapper[0].reply
    requires y == x.(toWrapper := x.toWrapper[1..])
    requires x.phase.Asking? || (x.phase.Syncing? && x.phase.todo != [])
    ensures Discreet(ReactSync(y, reply))
  {
    var z := ReactSync(y, reply);
    DisconnectIsDiscreet(y);
    assert DummyReported(reply, x.device);
    if z != Disconnect(y) {
      if x.phase.Asking? {
        forall c | c in z.tills ensures !IsHidden(c) {
          HiddenIsHidden(c);
        }
      } else {
        match x.phase.todo[0]
        case Add(till) => TillIsShown(till);
        case Remove(_) =>
      }
      hide Discreet, IsHidden, ClientOf, Disconnect;
      SendingIsDiscreet(y, z);
    }
  }

  lemma PlanIsDiscreet(s: State, w: TseId, todo: seq<SyncOp>)
    requires Enabled(s, Plan(w, todo)) && Discreet(s.wrappers[w])
    ensures Discreet(s.wrappers[w].(phase := Syncing(AssignedClients(s.tills, w), todo, None)))
  {
    hide IsHidden;
    var x := s.wrappers[w];
    forall op | op in todo && op.Remove? ensures op.client in x.tills {
      assert op.client in Removed(todo);
    }
  }

  /** A step of the wrapper itself. */
  lemma OwnIsDiscreet(s: State, step: Step, w: TseId)
    requires Enabled(s, step) && Actor(step) == Some(w) && w in s.wrappers && Discreet(s.wrappers[w])
    ensures w in Apply(s, step).wrappers && Discreet(Apply(s, step).wrappers[w])
  {
    var x := s.wrappers[w];
    if step.DeviceStep? {
      DeliverIsDiscreet(x, step.now);
    } else if step.Late? {
      LateIsDiscreet(x, step.k, step.now);
    } else if step.Lose? {
      DisconnectIsDiscreet(x);
    } else if step.Plan? {
      PlanIsDiscreet(s, w, step.todo);
    } else if step.Receive? {
      ReceiveIsDiscreet(s, w);
    } else {
      LoopIsDiscreet(s, step, w);
    }
    hide Discreet, Deliver, DeliverLate, Disconnect, React, ReactSync, Claim, Fail, FailAll, Stale, Complete;
  }

  lemma ReceiveIsDiscreet(s: State, w: TseId)
    requires Enabled(s, Receive(w)) && Discreet(s.wrappers[w])
    ensures w in Apply(s, Receive(w)).wrappers && Discreet(Apply(s, Receive(w)).wrappers[w])
  {
    var x := s.wrappers[w];
    var y := x.(toWrapper := x.toWrapper[1..]);
    assert Discreet(y) by { SendingIsDiscreet(x, y); }
    AnswerIsDiscreet(x, if x.phase.Holds() then s.orders[x.phase.order] else Row(0, 0, "", "", New, None, None), s.password);
    hide Discreet, React, ReactSync, Noted, Complete, CommandFor;
  }

  lemma LoopIsDiscreet(s: State, step: Step, w: TseId)
    requires Enabled(s, step) && Actor(step) == Some(w) && w in s.wrappers && Discreet(s.wrappers[w])
    requires !step.DeviceStep? && !step.Late? && !step.Lose? && !step.Plan? && !step.Receive?
    ensures w in Apply(s, step).wrappers && Discreet(Apply(s, step).wrappers[w])
  {
    hide IsHidden, DummyReported, ClientOf, SyncPlan, Stale, FailAll, Claim, Fail, Next, Ascending, AssignedClients;
    var x, y := s.wrappers[w], Apply(s, step).wrappers[w];
    if step.Connect? {
      ConnectIsDiscreet(x, s.password);
    } else if step.SyncNext? {
      assert x.phase.todo[0] in x.phase.todo;
      SendingIsDiscreet(x, y);
    } else {
      SendingIsDiscreet(x, y);
    }
  }

  lemma ConnectIsDiscreet(x: Wrapper, password: string)
    requires Discreet(x)
    ensures Discreet(Ask(x, password))
  {
    hide IsHidden, DummyReported;
  }

  lemma RestartIsDiscreet(s: State)
    requires Enabled(s, Restart) && forall w :: w in s.wrappers ==> Discreet(s.wrappers[w])
    ensures forall w :: w in Apply(s, Restart).wrappers ==> Discreet(Apply(s, Restart).wrappers[w])
  {
    forall w | w in s.wrappers ensures Discreet(Disconnect(s.wrappers[w])) {
      DisconnectIsDiscreet(s.wrappers[w]);
    }
    hide Discreet, Disconnect;
  }

  ghost predicate AllDiscreet(s: State) { forall w :: w in s.wrappers ==> Discreet(s.wrappers[w]) }

  lemma StepIsDiscreet(s: State, step: Step)
    requires Enabled(s, step) && AllDiscreet(s)
    ensures AllDiscreet(Apply(s, step))
  {
    if step.Restart? {
      RestartIsDiscreet(s);
    } else {
      OthersStay(s, step, 0);
      forall w | w in Apply(s, step).wrappers ensures Discreet(Apply(s, step).wrappers[w]) {
        if Actor(step) == Some(w) {
          OwnIsDiscreet(s, step, w);
        } else {
          OthersStay(s, step, w);
        }
      }
    }
    hide Discreet, Apply, Enabled;
  }

  lemma {:induction false} AlwaysDiscreet(states: seq<State>, steps: seq<Step>, i: nat)
    requires Behavior(states, steps) && i <= |steps|
    ensures AllDiscreet(states[i])
  {
    hide Discreet, Apply, Enabled;
    if i == 0 {
      DiscreetAtFirst(states[0]);
    } else {
      AlwaysDiscreet(states, steps, i - 1);
      assert Enabled(states[i - 1], steps[i - 1]) && Apply(states[i - 1], steps[i - 1]) == states[i];
      StepIsDiscreet(states[i - 1], steps[i - 1]);
    }
  }

  lemma DiscreetAtFirst(s: State)
    requires Init(s)
    ensures AllDiscreet(s)
  {
    hide IsHidden;
  }

  /** In every state of every run: no wrapper knows, plans to remove or ever asked to remove the dummy client or a
      production client, and a wrapper that got past its first question has the dummy client on its device. */
  lemma HiddenStayHidden(states: seq<State>, steps: seq<Step>, i: nat, w: TseId, client: string)
    requires Behavior(states, steps) && i <= |steps| && w in states[i].wrappers && IsHidden(client)
    ensures var x := states[i].wrappers[w];
            && client !in x.tills
            && (forall k :: 0 <= k < |x.taken| && x.taken[k].command.DeregisterClientId? ==>
                  x.taken[k].command.clientId != Some(client))
            && (!x.phase.Disconnected? && !x.phase.Asking? ==> "DummyDefaultClientId" in x.device.open)
  {
    RunLength(states, steps);
    hide IsHidden, Behavior;
    AlwaysDiscreet(states, steps, i);
    var x := states[i].wrappers[w];
    assert Discreet(x);
    forall k | 0 <= k < |x.taken| && x.taken[k].command.DeregisterClientId?
      ensures x.taken[k].command.clientId != Some(client)
    {
      assert Spares(x.taken[k].command);
    }
  }

  // ---- no request is lost or doubled -------------------------------------------------

  function CommandsOf(requests: seq<Request>): seq<D.Command>
  {
    seq(|requests|, i requires 0 <= i < |requests| => requests[i].command)
  }

  function TakenCommands(taken: seq<Taken>): seq<D.Command>
  {
    seq(|taken|, i requires 0 <= i < |taken| => taken[i].command)
  }

  /** Every request so far: on its way, left over from a lost connection, or taken by the device. */
  function Requests(x: Wrapper): multiset<D.Command>
  {
    multiset(CommandsOf(x.toDevice)) + multiset(CommandsOf(x.adrift)) + multiset(TakenCommands(x.taken))
  }

  lemma OneMoreCommand(requests: seq<Request>, r: Request)
    ensures CommandsOf(requests + [r]) == CommandsOf(requests) + [r.command]
  {
  }

  lemma CommandsJoin(requests: seq<Request>, more: seq<Request>)
    ensures CommandsOf(requests + more) == CommandsOf(requests) + CommandsOf(more)
  {
  }

  lemma CommandTaken(requests: seq<Request>, k: nat)
    requires k < |requests|
    ensures multiset(CommandsOf(requests))
            == multiset(CommandsOf(requests[..k] + requests[k + 1..])) + multiset{requests[k].command}
  {
    assert requests == requests[..k] + [requests[k]] + requests[k + 1..];
    CommandsJoin(requests[..k] + [requests[k]], requests[k + 1..]);
    OneMoreCommand(requests[..k], requests[k]);
    CommandsJoin(requests[..k], requests[k + 1..]);
  }

  /** The device takes one command. */
  ghost predicate Takes(x: Wrapper, y: Wrapper, command: D.Command)
  {
    |y.taken| == |x.taken| + 1 && y.taken[..|x.taken|] == x.taken && y.taken[|x.taken|].command == command
  }

  lemma TakesOne(x: Wrapper, y: Wrapper, command: D.Command)
    requires Takes(x, y, command)
    ensures multiset(TakenCommands(y.taken)) == multiset(TakenCommands(x.taken)) + multiset{command}
  {
    assert forall i :: 0 <= i < |x.taken| ==> y.taken[i] == y.taken[..|x.taken|][i];
    assert TakenCommands(y.taken) == TakenCommands(x.taken) + [command];
  }

  lemma DeliverTakes(x: Wrapper, now: int)
    requires x.toDevice != []
    ensures var y := Deliver(x, now);
            Takes(x, y, x.toDevice[0].command) && y.toDevice == x.toDevice[..0] + x.toDevice[1..] && y.adrift == x.adrift
  {
    hide D.Act;
  }

  lemma DeliverKeepsRequests(x: Wrapper, now: int)
    requires x.toDevice != []
    ensures Requests(Deliver(x, now)) == Requests(x)
  {
    hide Deliver, CommandsOf, TakenCommands, Takes;
    DeliverTakes(x, now);
    CommandTaken(x.toDevice, 0);
    TakesOne(x, Deliver(x, now), x.toDevice[0].command);
  }

  lemma LateTakes(x: Wrapper, k: nat, now: int)
    requires k < |x.adrift|
    ensures var y := DeliverLate(x, k, now);
            Takes(x, y, x.adrift[k].command) && y.toDevice == x.toDevice && y.adrift == x.adrift[..k] + x.adrift[k + 1..]
  {
    hide D.Act;
  }

  lemma LateKeepsRequests(x: Wrapper, k: nat, now: int)
    requires k < |x.adrift|
    ensures Requests(DeliverLate(x, k, now)) == Requests(x)
  {
    hide DeliverLate, CommandsOf, TakenCommands, Takes;
    LateTakes(x, k, now);
    CommandTaken(x.adrift, k);
    TakesOne(x, DeliverLate(x, k, now), x.adrift[k].command);
  }

  lemma DisconnectKeepsRequests(x: Wrapper)
    ensures Requests(Disconnect(x)) == Requests(x)
  {
    CommandsJoin(x.adrift, x.toDevice);
    assert CommandsOf([]) == [];
    hide CommandsOf, TakenCommands;
  }

  /** At most one request more, at the end of the queue. */
  ghost predicate SendsOne(x: Wrapper, y: Wrapper)
  {
    && y.adrift == x.adrift && y.taken == x.taken
    && |y.toDevice| == |x.toDevice| + 1 && y.toDevice[..|x.toDevice|] == x.toDevice
  }

  lemma SendingAddsOne(x: Wrapper, y: Wrapper)
    requires SendsOne(x, y)
    ensures Requests(x) < Requests(y) && |Requests(y)| == |Requests(x)| + 1
  {
    var r := y.toDevice[|x.toDevice|];
    assert y.toDevice == x.toDevice + [r];
    OneMoreCommand(x.toDevice, r);
    hide CommandsOf, TakenCommands;
    assert Requests(y) == Requests(x) + multiset{r.command};
  }

  /** The steps that may send a request. */
  predicate MaySend(step: Step) { step.Connect? || step.SyncNext? || step.BeginSign? || step.Ping? || step.Receive? }

  lemma OwnRequests(s: State, step: Step, w: TseId)
    requires Enabled(s, step) && Actor(step) == Some(w) && w in s.wrappers
    requires s.wrappers[w].phase.Disconnected? ==> s.wrappers[w].toDevice == []
    ensures w in Apply(s, step).wrappers
    ensures var x, y := s.wrappers[w], Apply(s, step).wrappers[w];
            Requests(y) == Requests(x) || (MaySend(step) && Requests(x) < Requests(y) && |Requests(y)| == |Requests(x)| + 1)
  {
    if step.DeviceStep? || step.Late? || step.Lose? {
      WireRequests(s, step, w);
    } else if step.Receive? {
      ReceiveRequests(s, w);
    } else {
      LoopRequests(s, step, w);
    }
    hide Apply, Enabled, Requests;
  }

  lemma WireRequests(s: State, step: Step, w: TseId)
    requires Enabled(s, step) && (step.DeviceStep? || step.Late? || step.Lose?) && step.w == w
    ensures w in s.wrappers && w in Apply(s, step).wrappers
    ensures Requests(Apply(s, step).wrappers[w]) == Requests(s.wrappers[w])
  {
    hide Requests, Deliver, DeliverLate, Disconnect;
    var x := s.wrappers[w];
    if step.DeviceStep? {
      DeliverKeepsRequests(x, step.now);
    } else if step.Late? {
      LateKeepsRequests(x, step.k, step.now);
    } else {
      DisconnectKeepsRequests(x);
    }
  }

  lemma ReceiveRequests(s: State, w: TseId)
    requires Enabled(s, Receive(w))
    ensures w in Apply(s, Receive(w)).wrappers
    ensures var x, y := s.wrappers[w], Apply(s, Receive(w)).wrappers[w];
            Requests(y) == Requests(x) || (Requests(x) < Requests(y) && |Requests(y)| == |Requests(x)| + 1)
  {
    var x, z := s.wrappers[w], Apply(s, Receive(w)).wrappers[w];
    var y := x.(toWrapper := x.toWrapper[1..]);
    ReceiveSendsOne(s, w);
    assert Requests(y) == Requests(x);
    DisconnectKeepsRequests(y);
    if SendsOne(y, z) {
      SendingAddsOne(y, z);
    }
    hide CommandsOf, TakenCommands, Disconnect, Apply, Enabled;
  }

  lemma ReceiveSendsOne(s: State, w: TseId)
    requires Enabled(s, Receive(w))
    ensures w in Apply(s, Receive(w)).wrappers
    ensures var x, z := s.wrappers[w], Apply(s, Receive(w)).wrappers[w];
            var y := x.(toWrapper := x.toWrapper[1..]);
            z == Disconnect(y) || SendsOne(y, z)
            || (z.toDevice == y.toDevice && z.adrift == y.adrift && z.taken == y.taken)
  {
    hide CommandFor, Visible, ClientOf, Noted, Complete, Disconnect, Awaits, After;
  }

  lemma LoopRequests(s: State, step: Step, w: TseId)
    requires Enabled(s, step) && Actor(step) == Some(w) && w in s.wrappers
    requires s.wrappers[w].phase.Disconnected? ==> s.wrappers[w].toDevice == []
    requires !step.DeviceStep? && !step.Late? && !step.Lose? && !step.Receive?
    ensures w in Apply(s, step).wrappers
    ensures var x, y := s.wrappers[w], Apply(s, step).wrappers[w];
            Requests(y) == Requests(x) || (MaySend(step) && Requests(x) < Requests(y) && |Requests(y)| == |Requests(x)| + 1)
  {
    var x, y := s.wrappers[w], Apply(s, step).wrappers[w];
    assert if MaySend(step) then SendsOne(x, y)
           else y.toDevice == x.toDevice && y.adrift == x.adrift && y.taken == x.taken by {
      hide Requests, CommandFor, ClientOf, SyncPlan, Stale, FailAll, Claim, Fail, Next, Ascending, AssignedClients, OpCommand;
    }
    if MaySend(step) {
      SendingAddsOne(x, y);
    }
    hide Apply, Enabled, CommandsOf, TakenCommands;
  }

  /** In every step of every run a wrapper's requests stay what they were, each of them still on its way, left
      over or taken exactly once, and at most one is added: only when the wrapper itself sends it. A lost
      connection, a time-out or a restart neither loses nor doubles any. */
  lemma NoRequestIsLostOrDoubled(states: seq<State>, steps: seq<Step>, i: nat, w: TseId)
    requires Behavior(states, steps) && i < |steps| && w in states[i].wrappers
    ensures w in states[i + 1].wrappers
    ensures var before, after := Requests(states[i].wrappers[w]), Requests(states[i + 1].wrappers[w]);
            after == before
            || (MaySend(steps[i]) && Actor(steps[i]) == Some(w) && before < after && |after| == |before| + 1)
  {
    RunLength(states, steps);
    assert Enabled(states[i], steps[i]) && Apply(states[i], steps[i]) == states[i + 1];
    InvAlways(states, steps, i);
    StepRequests(states[i], steps[i], w);
    hide Inv, Apply, Enabled, Requests, Behavior;
  }

  lemma IdleQueues(s: State, w: TseId)
    requires Inv(s) && w in s.wrappers && s.wrappers[w].phase.Disconnected?
    ensures s.wrappers[w].toDevice == []
  {
    assert WrapperInv(s.orders, w, s.wrappers[w], s.password);
  }

  lemma StepRequests(s: State, step: Step, w: TseId)
    requires Inv(s) && Enabled(s, step) && w in s.wrappers
    ensures w in Apply(s, step).wrappers
    ensures var before, after := Requests(s.wrappers[w]), Requests(Apply(s, step).wrappers[w]);
            after == before
            || (MaySend(step) && Actor(step) == Some(w) && before < after && |after| == |before| + 1)
  {
    if step.Restart? {
      DisconnectKeepsRequests(s.wrappers[w]);
    } else if Actor(step) == Some(w) {
      if s.wrappers[w].phase.Disconnected? {
        IdleQueues(s, w);
      }
      OwnRequests(s, step, w);
      hide Apply, Enabled;
    } else {
      OthersStay(s, step, w);
      hide Apply, Enabled;
    }
    hide Inv, Requests, Disconnect, FailPending, Ascending;
  }
}
