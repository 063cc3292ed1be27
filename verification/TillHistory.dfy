/** The history of registrations of tills with TSEs: what it says about the devices, and the lookup of the
    TSE a till used for a closing. */
module TillHistory {

  import opened Wrappers
  import opened Text
  import opened SignatureTable
  import opened Signing
  import opened SigningSafety
  import opened SigningHistory
  import opened SigningClients
  import D = VirtualTse

  // ---- what it says ------------------------------------------------------------------

  /** The tills that the history says are registered with a TSE. */
  function Registered(history: seq<Entry>, tse: int): set<int>
  {
    if history == [] then {}
    else
      var before, e := Registered(history[..|history| - 1], tse), history[|history| - 1];
      if e.tse != tse then before else if e.what == Register then before + {e.till} else before - {e.till}
  }

  lemma RegisteredAppend(history: seq<Entry>, e: Entry, tse: int)
    ensures Registered(history + [e], tse)
            == if e.tse != tse then Registered(history, tse)
               else if e.what == Register then Registered(history, tse) + {e.till}
               else Registered(history, tse) - {e.till}
  {
    assert (history + [e])[..|history|] == history;
  }

  /** The registered tills once a change is noted. */
  function Tally(registered: set<int>, tills: set<TillId>, op: SyncOp): set<int>
  {
    match op
    case Add(till) => if till in tills then registered + {till} else registered
    case Remove(client) =>
      match ParseInt(client)
      case Some(till) => if till in tills then registered - {till} else registered
      case None => registered
  }

  lemma NoteTallies(history: seq<Entry>, zNrs: map<TillId, int>, w: TseId, op: SyncOp, tse: TseId)
    ensures Registered(history + Note(zNrs, w, op), tse)
            == if tse == w then Tally(Registered(history, tse), zNrs.Keys, op) else Registered(history, tse)
  {
    hide Registered, ParseInt;
    assert history + [] == history;
    var note := Note(zNrs, w, op);
    if note != [] {
      RegisteredAppend(history, note[0], tse);
      assert note == [note[0]];
    }
  }

  lemma ClientNames(till: int, other: int)
    ensures ParseInt(ClientOf(till)) == Some(till)
    ensures ClientOf(till) == ClientOf(other) ==> till == other
  {
    PrintIntParses(till);
    PrintIntParses(other);
  }

  // ---- when it is right --------------------------------------------------------------

  /** The history once the wrapper has the answer on its way. */
  function Expected(s: State, w: TseId): seq<Entry>
    requires w in s.wrappers
  {
    match Confirmed(s.orders, s.wrappers[w])
    case Some(op) => s.history + Note(s.zNrs, w, op)
    case None => s.history
  }

  ghost predicate SameTills(tills: set<TillId>, registered: set<int>, clients: set<string>)
  {
    forall till :: till in tills ==> (till in registered <==> ClientOf(till) in clients)
  }

  /** The history, with what is confirmed and on its way, tells for every till whether the device has it. */
  ghost predicate Agrees(s: State, w: TseId)
  {
    w in s.wrappers && SameTills(s.tills.Keys, Registered(Expected(s, w), w), s.wrappers[w].device.open.Keys)
  }

  /** Some other spelling of the number of a registered till, such as "007", "+7" or " 7" for till 7. */
  predicate Misspelt(tills: set<TillId>, clients: set<string>, client: string)
  {
    match ParseInt(client)
    case Some(till) => till in tills && client != ClientOf(till) && ClientOf(till) in clients
    case None => false
  }

  /** The change of a till's own client. */
  predicate OfTill(tills: set<TillId>, op: SyncOp)
  {
    match op
    case Add(till) => till in tills
    case Remove(client) =>
      match ParseInt(client)
      case Some(till) => till in tills && client == ClientOf(till)
      case None => false
  }

  // ---- one change --------------------------------------------------------------------

  /** A confirmed registration of a till: device and history go on together. */
  lemma AddAgrees(tills: set<TillId>, registered: set<int>, clients: set<string>, till: TillId)
    requires SameTills(tills, registered, clients) && till in tills
    ensures SameTills(tills, Tally(registered, tills, Add(till)), clients + {ClientOf(till)})
  {
    hide ClientOf, ParseInt;
    forall t | t in tills ensures ClientOf(t) == ClientOf(till) ==> t == till {
      ClientNames(t, till);
    }
  }

  /** A confirmed deregistration: they do if and only if the client id is not another spelling of the number of
      a registered till. */
  lemma RemoveAgrees(tills: set<TillId>, registered: set<int>, clients: set<string>, client: string)
    requires SameTills(tills, registered, clients) && client in clients
    ensures SameTills(tills, Tally(registered, tills, Remove(client)), clients - {client})
            <==> !Misspelt(tills, clients, client)
  {
    hide ClientOf, ParseInt;
    forall t | t in tills ensures ClientOf(t) == client ==> ParseInt(client) == Some(t) {
      ClientNames(t, t);
    }
    if ParseInt(client).Some? && ParseInt(client).value in tills && Misspelt(tills, clients, client) {
      var till := ParseInt(client).value;
      assert till !in Tally(registered, tills, Remove(client)) && ClientOf(till) in clients - {client};
    }
  }

  /** A foreign client named by a sign and the number of a registered till: its removal deregisters the till in
      the history and leaves it on the device. */
  lemma SignedClient(tills: set<TillId>, registered: set<int>, clients: set<string>, till: nat)
    requires SameTills(tills, registered, clients) && till in tills && till in registered
    requires "+" + ClientOf(till) in clients
    ensures var client := "+" + ClientOf(till);
            till !in Tally(registered, tills, Remove(client)) && ClientOf(till) in clients - {client}
  {
    assert ClientOf(till) == PrintNat(till);
    hide ClientOf, ParseInt, PrintNat;
    PrintNatParses(till);
    SignedParses('+', PrintNat(till));
    assert ("+" + PrintNat(till))[0] == '+';
    assert |"+" + PrintNat(till)| != |PrintNat(till)|;
  }

  /** Such a client: "+7" beside till 7 is a client id the device accepts. */
  lemma PlusSeven()
    ensures D.ClientIdMatches("+7")
    ensures SameTills({7}, {7}, {"7", "+7"}) && !SameTills({7}, Tally({7}, {7}, Remove("+7")), {"7", "+7"} - {"+7"})
  {
    assert '+' in "()+" && D.ClientChar('+') && D.ClientChar('7') by { assert "()+"[2] == '+'; }
    assert ClientOf(7) == "7";
    assert "+" + ClientOf(7) == "+7";
    SignedClient({7}, {7}, {"7", "+7"}, 7);
  }

  // ---- every step --------------------------------------------------------------------

  /** A request of a lost connection registers or deregisters a till. */
  ghost predicate TouchesTillLate(s: State, step: Step, w: TseId)
  {
    && step.Late? && step.w == w && w in s.wrappers && step.k < |s.wrappers[w].adrift|
    && exists till :: till in s.tills
         && (ClientOf(till) in s.wrappers[w].device.open
             <==> ClientOf(till) !in DeliverLate(s.wrappers[w], step.k, step.now).device.open)
  }

  /** The connection breaks with the confirmation of a till's registration or deregistration on its way. */
  predicate LosesConfirmation(s: State, step: Step, w: TseId)
  {
    && (step.Restart? || (step.Lose? && step.w == w)) && w in s.wrappers
    && Confirmed(s.orders, s.wrappers[w]).Some? && OfTill(s.tills.Keys, Confirmed(s.orders, s.wrappers[w]).value)
  }

  /** The device confirms the removal of a misspelt client. */
  predicate RemovesMisspelt(s: State, step: Step, w: TseId)
  {
    && step.DeviceStep? && step.w == w && w in s.wrappers && s.wrappers[w].toDevice != []
    && var x := s.wrappers[w];
       var command := x.toDevice[0].command;
       && command.DeregisterClientId? && D.Act(x.device, command, step.now).1.Success?
       && command.clientId.Some? && Misspelt(s.tills.Keys, x.device.open.Keys, command.clientId.value)
  }

  ghost predicate Spoils(s: State, step: Step, w: TseId)
  {
    TouchesTillLate(s, step, w) || LosesConfirmation(s, step, w) || RemovesMisspelt(s, step, w)
  }

  /** What is confirmed and on its way makes a difference exactly if it is about a till's own client. */
  ghost predicate UnderWayMatters(tills: set<TillId>, registered: set<int>, op: SyncOp)
  {
    match op
    case Add(till) => till in tills && till !in registered
    case Remove(client) =>
      match ParseInt(client)
      case Some(till) => till in tills ==> (client == ClientOf(till) <==> till in registered)
      case None => true
  }

  ghost predicate Settled(s: State, w: TseId)
  {
    && w in s.wrappers && Agrees(s, w)
    && var op := Confirmed(s.orders, s.wrappers[w]);
       op.Some? ==> UnderWayMatters(s.tills.Keys, Registered(s.history, w), op.value)
  }

  /** Tills to be added exist, and all tills have a next closing. */
  ghost predicate TillsKnown(s: State)
  {
    && s.zNrs.Keys == s.tills.Keys
    && forall w :: w in s.wrappers && s.wrappers[w].phase.Syncing? ==> TodoKnown(s.tills.Keys, s.wrappers[w].phase.todo)
  }

  ghost predicate TodoKnown(tills: set<TillId>, todo: seq<SyncOp>)
  {
    forall op :: op in todo && op.Add? ==> op.till in tills
  }

  lemma LosingMatters(tills: set<TillId>, registered: set<int>, clients: set<string>, op: SyncOp)
    requires SameTills(tills, Tally(registered, tills, op), clients) && UnderWayMatters(tills, registered, op)
    ensures SameTills(tills, registered, clients) <==> !OfTill(tills, op)
  {
    hide ParseInt, ClientOf;
    if OfTill(tills, op) {
      var till := if op.Add? then op.till else ParseInt(op.client).value;
      assert till in tills && (till in registered <==> till !in Tally(registered, tills, op));
    } else {
      assert Tally(registered, tills, op) == registered;
    }
  }

  /** The answers on their way after the device took a live request: a confirmed change is the new one, and
      everything else leaves clients and confirmations alone. */
  lemma LiveConfirmed(orders: Orders, w: TseId, x: Wrapper, password: string, now: int)
    requires WrapperInv(orders, w, x, password) && x.toDevice != []
    ensures var y, command := Deliver(x, now), x.toDevice[0].command;
            var changed := (command.RegisterClientId? || command.DeregisterClientId?) && y.taken[|x.taken|].reply.Success?;
            if changed then
              && Confirmed(orders, x).None? && Confirmed(orders, y).Some?
              && command == OpCommand(Confirmed(orders, y).value, password)
            else Confirmed(orders, y) == Confirmed(orders, x) && y.device.open.Keys == x.device.open.Keys
  {
    hide LogInv, AnswerInv, ClientOf, SyncInv, AnswerTo;
    var y, head := Deliver(x, now), x.toDevice[0];
    if Awaited(x.phase).Some? {
      AnswerToLive(x, now, Awaited(x.phase).value);
    }
    D.ActOnClients(x.device, head.command, now);
    hide D.Act, QueueInv;
  }

  /** The device confirms a change. */
  lemma ConfirmSettles(tills: set<TillId>, registered: set<int>, x: D.Tse, y: D.Tse, op: SyncOp)
    requires SameTills(tills, registered, x.open.Keys) && (op.Add? ==> op.till in tills)
    requires match op
             case Add(till) => ClientOf(till) !in x.open && y.open.Keys == x.open.Keys + {ClientOf(till)}
             case Remove(client) => client in x.open && y.open.Keys == x.open.Keys - {client}
    ensures SameTills(tills, Tally(registered, tills, op), y.open.Keys)
            <==> !(op.Remove? && Misspelt(tills, x.open.Keys, op.client))
    ensures SameTills(tills, Tally(registered, tills, op), y.open.Keys) ==> UnderWayMatters(tills, registered, op)
  {
    hide ParseInt, ClientOf, Tally;
    match op
    case Add(till) => AddAgrees(tills, registered, x.open.Keys, till);
    case Remove(client) =>
      RemoveAgrees(tills, registered, x.open.Keys, client);
  }

  predicate ConfirmsChange(x: Wrapper, now: int)
    requires x.toDevice != []
  {
    (x.toDevice[0].command.RegisterClientId? || x.toDevice[0].command.DeregisterClientId?)
    && D.Act(x.device, x.toDevice[0].command, now).1.Success?
  }

  /** A live request that is no change, or a refused one. */
  lemma QuietDevice(s: State, w: TseId, now: int)
    requires Inv(s) && w in s.wrappers && s.wrappers[w].toDevice != [] && Settled(s, w)
    requires !ConfirmsChange(s.wrappers[w], now)
    ensures Settled(SetWrapper(s, w, Deliver(s.wrappers[w], now)), w)
  {
    var x := s.wrappers[w];
    assert WrapperInv(s.orders, w, x, s.password);
    LiveConfirmed(s.orders, w, x, s.password, now);
    assert Deliver(x, now).taken[|x.taken|].reply == D.Act(x.device, x.toDevice[0].command, now).1;
    hide Inv, WrapperInv, D.Act, Confirmed, Registered, SameTills, UnderWayMatters, Deliver, Note;
  }

  /** A live change the device confirms. */
  lemma ChangingDevice(s: State, w: TseId, now: int)
    requires Inv(s) && TillsKnown(s) && w in s.wrappers && s.wrappers[w].toDevice != [] && Settled(s, w)
    requires ConfirmsChange(s.wrappers[w], now)
    ensures var s' := SetWrapper(s, w, Deliver(s.wrappers[w], now));
            && (Agrees(s', w) <==> !RemovesMisspelt(s, DeviceStep(w, now), w))
            && (Agrees(s', w) ==> Settled(s', w))
  {
    var x := s.wrappers[w];
    var y, command := Deliver(x, now), x.toDevice[0].command;
    assert WrapperInv(s.orders, w, x, s.password);
    LiveConfirmed(s.orders, w, x, s.password, now);
    D.ActOnClients(x.device, command, now);
    ChangeIsKnown(s, w, now);
    assert y.taken[|x.taken|].reply == D.Act(x.device, command, now).1 && y.device == D.Act(x.device, command, now).0;
    var op := Confirmed(s.orders, y).value;
    hide Inv, WrapperInv, D.Act, Confirmed, Registered, Tally, SameTills, ClientOf, Deliver, Note, ConfirmsChange,
      UnderWayMatters, Misspelt;
    NoteTallies(s.history, s.zNrs, w, op, w);
    ConfirmSettles(s.tills.Keys, Registered(s.history, w), x.device, y.device, op);
  }

  /** The device takes a live request. */
  lemma DeviceSettles(s: State, w: TseId, now: int)
    requires Inv(s) && TillsKnown(s) && Enabled(s, DeviceStep(w, now)) && Settled(s, w)
    ensures var s' := Apply(s, DeviceStep(w, now));
            && w in s'.wrappers && (Agrees(s', w) <==> !Spoils(s, DeviceStep(w, now), w))
            && (Agrees(s', w) ==> Settled(s', w))
  {
    hide Inv, D.Act, Deliver, Agrees, Misspelt, Confirmed;
    if ConfirmsChange(s.wrappers[w], now) {
      ChangingDevice(s, w, now);
    } else {
      QuietDevice(s, w, now);
    }
  }

  /** A till that is being added exists. */
  lemma ChangeIsKnown(s: State, w: TseId, now: int)
    requires Inv(s) && TillsKnown(s) && w in s.wrappers && s.wrappers[w].toDevice != []
    ensures var op := Confirmed(s.orders, Deliver(s.wrappers[w], now));
            op.Some? && op.value.Add? ==> op.value.till in s.tills
  {
    assert Deliver(s.wrappers[w], now).phase == s.wrappers[w].phase;
    assert WrapperInv(s.orders, w, s.wrappers[w], s.password);
    hide Deliver, UnderWay, LogInv;
  }

  /** A late request changes the device alone. */
  lemma LateSettles(s: State, w: TseId, k: nat, now: int)
    requires Enabled(s, Late(w, k, now)) && Settled(s, w)
    ensures var s' := Apply(s, Late(w, k, now));
            && w in s'.wrappers && (Agrees(s', w) <==> !Spoils(s, Late(w, k, now), w))
            && (Agrees(s', w) ==> Settled(s', w))
  {
    var x, y := s.wrappers[w], DeliverLate(s.wrappers[w], k, now);
    assert Confirmed(s.orders, y) == Confirmed(s.orders, x);
    hide Confirmed, D.Act, DeliverLate, Registered, ClientOf, Note, UnderWayMatters;
  }

  /** The connection breaks. */
  lemma LoseSettles(s: State, step: Step, w: TseId)
    requires Enabled(s, step) && w in s.wrappers && Settled(s, w) && s.zNrs.Keys == s.tills.Keys
    requires step.Restart? || (step.Lose? && step.w == w)
    ensures var s' := Apply(s, step);
            && w in s'.wrappers && (Agrees(s', w) <==> !Spoils(s, step, w))
            && (Agrees(s', w) ==> Settled(s', w))
  {
    var x, s', op := s.wrappers[w], Apply(s, step), Confirmed(s.orders, s.wrappers[w]);
    assert s'.wrappers[w] == Disconnect(x) && Confirmed(s'.orders, s'.wrappers[w]).None?;
    hide Confirmed, FailPending, Ascending, Registered, ClientOf, UnderWayMatters, Tally, OfTill, SameTills, Note;
    if op.Some? {
      NoteTallies(s.history, s.zNrs, w, op.value, w);
      LosingMatters(s.tills.Keys, Registered(s.history, w), x.device.open.Keys, op.value);
    }
  }

  lemma AnswerKeepsDevice(s: State, w: TseId)
    requires Enabled(s, Receive(w)) && Awaits(s.wrappers[w].phase, s.wrappers[w].toWrapper[0].id)
    ensures w in Apply(s, Receive(w)).wrappers
    ensures Apply(s, Receive(w)).wrappers[w].device == s.wrappers[w].device
    ensures Apply(s, Receive(w)).tills == s.tills
  {
    hide ClientOf, CommandFor, Visible, Noted, Complete, After;
  }

  /** The awaited answer was the only one. */
  lemma NothingConfirmed(s: State, w: TseId)
    requires Inv(s) && Enabled(s, Receive(w)) && Awaits(s.wrappers[w].phase, s.wrappers[w].toWrapper[0].id)
    ensures w in Apply(s, Receive(w)).wrappers
    ensures Confirmed(Apply(s, Receive(w)).orders, Apply(s, Receive(w)).wrappers[w]).None?
  {
    var x := s.wrappers[w];
    assert WrapperInv(s.orders, w, x, s.password) && QueueInv(x);
    hide Inv, WrapperInv, QueueInv, ClientOf, CommandFor, Visible, Noted, Complete, After, AnswerTo, Confirmed, React, ReactSync;
    var y, reply := x.(toWrapper := x.toWrapper[1..]), x.toWrapper[0].reply;
    if x.phase.Holds() {
      OrderAnswerConfirms(x, s.orders[x.phase.order], s.password);
    } else {
      SyncAnswerConfirms(y, reply);
    }
  }

  lemma SyncAnswerConfirms(y: Wrapper, reply: D.Reply)
    requires y.phase.Asking? || (y.phase.Syncing? && y.phase.todo != [])
    ensures forall orders :: Confirmed(orders, ReactSync(y, reply)).None?
  {
    hide ClientOf, Visible, After;
  }

  lemma OrderAnswerConfirms(x: Wrapper, row: Row, password: string)
    requires QueueInv(x) && x.toWrapper != [] && Awaited(x.phase).Some? && x.phase.Holds()
    ensures var z := React(x.(toWrapper := x.toWrapper[1..]), row, x.toWrapper[0].reply, password).0;
            forall orders :: Confirmed(orders, z).None?
  {
    hide ClientOf, CommandFor;
  }

  /** The wrapper takes an answer: what was on its way is in the history. */
  lemma ReceiveSettles(s: State, w: TseId)
    requires Inv(s) && Enabled(s, Receive(w)) && Settled(s, w)
    ensures w in Apply(s, Receive(w)).wrappers && Settled(Apply(s, Receive(w)), w)
  {
    var x, s' := s.wrappers[w], Apply(s, Receive(w));
    assert WrapperInv(s.orders, w, x, s.password);
    if Awaits(x.phase, x.toWrapper[0].id) {
      assert UnderWay(x) == Some(x.toWrapper[0].reply);
      assert s'.history == Expected(s, w);
      NothingConfirmed(s, w);
      hide Inv, WrapperInv, Confirmed, Registered, ClientOf, UnderWayMatters, SameTills, Note, Noted, React, ReactSync, Expected,
        Complete;
      AnswerKeepsDevice(s, w);
    } else {
      SkippedAnswer(s.orders, x);
      assert Confirmed(s'.orders, s'.wrappers[w]) == Confirmed(s.orders, x);
      hide Inv, WrapperInv, Confirmed, Registered, ClientOf, UnderWayMatters, SameTills, Note;
    }
  }

  /** Any other step of the wrapper. */
  lemma OwnSettles(s: State, step: Step, w: TseId)
    requires Enabled(s, step) && Actor(step) == Some(w) && w in s.wrappers && QueueInv(s.wrappers[w]) && Settled(s, w)
    requires !step.DeviceStep? && !step.Late? && !step.Receive? && !step.Lose?
    ensures w in Apply(s, step).wrappers && Settled(Apply(s, step), w)
  {
    OwnConfirmed(s, step, w);
    hide Confirmed, Apply, Enabled, Registered, ClientOf, Note, UnderWayMatters;
  }

  lemma OwnConfirmed(s: State, step: Step, w: TseId)
    requires Enabled(s, step) && Actor(step) == Some(w) && w in s.wrappers && QueueInv(s.wrappers[w])
    requires !step.DeviceStep? && !step.Late? && !step.Receive? && !step.Lose?
    ensures var s' := Apply(s, step);
            && w in s'.wrappers && Confirmed(s'.orders, s'.wrappers[w]) == Confirmed(s.orders, s.wrappers[w])
            && s'.wrappers[w].device == s.wrappers[w].device && s'.history == s.history && s'.zNrs == s.zNrs
            && s'.tills == s.tills
  {
    hide D.Act, CommandFor, Visible, SyncPlan, FailAll, Stale, Claim, Fail, AssignedClients, Next, ClientOf, Ascending,
      OpCommand, AskStatus;
    var y := Apply(s, step).wrappers[w];
    if (step.SyncNext? || step.BeginSign?) && Awaited(y.phase).Some? {
      NoAnswerYet(y.toWrapper, Awaited(y.phase).value);
    }
  }

  lemma SameConfirmed(orders: Orders, orders': Orders, x: Wrapper)
    requires SameData(orders, orders') && (x.phase.Registering? ==> x.phase.order in orders)
    ensures Confirmed(orders', x) == Confirmed(orders, x)
  {
    hide AnswerTo;
  }

  /** Steps elsewhere: other wrappers write other entries, and the tills stay. */
  lemma ElsewhereStays(s: State, step: Step, w: TseId)
    requires Enabled(s, step) && Actor(step) != Some(w) && !step.Restart? && s.zNrs.Keys == s.tills.Keys
    ensures var s' := Apply(s, step);
            && s'.tills.Keys == s.tills.Keys && s'.zNrs.Keys == s.zNrs.Keys
            && Registered(s'.history, w) == Registered(s.history, w)
  {
    if step.Receive? {
      AnswerElsewhere(s, step.w, w);
    } else {
      hide D.Act, CommandFor, Visible, SyncPlan, FailPending, FailAll, Stale, Claim, Complete, Fail, AssignedClients, Next,
        ClientOf, Ascending, Note, Noted, OpCommand, React, ReactSync, Send, SendOp, Deliver, DeliverLate, Registered;
    }
  }

  lemma AnswerElsewhere(s: State, v: TseId, w: TseId)
    requires Enabled(s, Receive(v)) && v != w
    ensures var s' := Apply(s, Receive(v));
            s'.tills == s.tills && s'.zNrs == s.zNrs && Registered(s'.history, w) == Registered(s.history, w)
  {
    var x := s.wrappers[v];
    var reply := x.toWrapper[0].reply;
    var noted := s.history + Noted(s, v, x.phase, reply);
    assert Registered(noted, w) == Registered(s.history, w) by {
      if reply.Success? && Change(s.orders, x.phase).Some? {
        NoteTallies(s.history, s.zNrs, v, Change(s.orders, x.phase).value, w);
      } else {
        assert noted == s.history;
      }
    }
    hide Registered, React, ReactSync, Noted, Complete;
  }

  lemma OtherSettles(s: State, step: Step, w: TseId)
    requires Inv(s) && Enabled(s, step) && Actor(step) != Some(w) && !step.Restart? && w in s.wrappers && Settled(s, w)
    requires s.zNrs.Keys == s.tills.Keys
    ensures w in Apply(s, step).wrappers && Settled(Apply(s, step), w)
  {
    var x, s' := s.wrappers[w], Apply(s, step);
    assert WrapperInv(s.orders, w, x, s.password);
    assert x.phase.Registering? ==> x.phase.order in s.orders;
    OthersStay(s, step, w);
    StepKeepsData(s, step);
    ElsewhereStays(s, step, w);
    SameConfirmed(s.orders, s'.orders, x);
    hide Inv, WrapperInv, Apply, Enabled, Confirmed, Registered, Note, UnderWayMatters, SameTills, Tally;
    if Confirmed(s.orders, x).Some? {
      NoteTallies(s.history, s.zNrs, w, Confirmed(s.orders, x).value, w);
      NoteTallies(s'.history, s'.zNrs, w, Confirmed(s.orders, x).value, w);
    }
  }

  lemma SpoilsNothing(s: State, step: Step, w: TseId)
    requires !step.Restart? && (Actor(step) == Some(w) ==> !step.DeviceStep? && !step.Late? && !step.Lose?)
    ensures !Spoils(s, step, w)
  {
  }

  /** One step keeps the agreement if and only if it is none of the three that spoil it. */
  lemma StepSettles(s: State, step: Step, w: TseId)
    requires Inv(s) && TillsKnown(s) && Enabled(s, step) && w in s.wrappers && Settled(s, w)
    ensures var s' := Apply(s, step);
            && w in s'.wrappers && (Agrees(s', w) <==> !Spoils(s, step, w))
            && (Agrees(s', w) ==> Settled(s', w))
  {
    assert WrapperInv(s.orders, w, s.wrappers[w], s.password) && QueueInv(s.wrappers[w]);
    assert s.zNrs.Keys == s.tills.Keys;
    assert forall t: State :: Settled(t, w) ==> w in t.wrappers && Agrees(t, w);
    hide Inv, WrapperInv, Apply, Agrees, Settled, Enabled, TillsKnown, QueueInv, Spoils;
    if Actor(step) == Some(w) && step.DeviceStep? {
      assert step == DeviceStep(w, step.now);
      DeviceSettles(s, w, step.now);
    } else if Actor(step) == Some(w) && step.Late? {
      assert step == Late(w, step.k, step.now);
      LateSettles(s, w, step.k, step.now);
    } else if step.Restart? || (step.Lose? && step.w == w) {
      LoseSettles(s, step, w);
    } else {
      SpoilsNothing(s, step, w);
      if Actor(step) == Some(w) && step.Receive? {
        assert step == Receive(w);
        ReceiveSettles(s, w);
      } else if Actor(step) == Some(w) {
        OwnSettles(s, step, w);
      } else {
        OtherSettles(s, step, w);
      }
    }
  }

  // ---- tills that are added exist ----------------------------------------------------

  lemma PlanIsKnown(tills: Tills, w: TseId, known: set<string>, todo: seq<SyncOp>)
    requires SyncPlan(tills, w, known, todo)
    ensures TodoKnown(tills.Keys, todo)
  {
    forall op | op in todo && op.Add? ensures op.till in tills {
      assert ClientOf(op.till) in Added(todo);
      var t :| t in tills && tills[t] == Some(w) && ClientOf(t) == ClientOf(op.till);
      ClientNames(t, op.till);
    }
  }

  /** The list to reconcile only gets shorter. */
  lemma TodoShrinks(s: State, step: Step, w: TseId)
    requires Enabled(s, step) && !(step.Plan? && step.w == w) && w in s.wrappers && w in Apply(s, step).wrappers
    requires Apply(s, step).wrappers[w].phase.Syncing?
    ensures s.wrappers[w].phase.Syncing?
    ensures forall op :: op in Apply(s, step).wrappers[w].phase.todo ==> op in s.wrappers[w].phase.todo
  {
    SyncGoesOn(s, step, w);
    if step.Receive? {
      hide D.Act, CommandFor, Visible, AssignedClients, Note, Noted, After, ClientOf, Complete;
    } else {
      hide D.Act, CommandFor, Visible, SyncPlan, FailPending, FailAll, Stale, Claim, Complete, Fail, AssignedClients, Note,
        Noted, After, React, ReactSync, ClientOf, Ascending, Next;
    }
  }

  lemma TillsStay(s: State, step: Step)
    requires Enabled(s, step) && s.zNrs.Keys == s.tills.Keys
    ensures Apply(s, step).tills.Keys == s.tills.Keys == Apply(s, step).zNrs.Keys
  {
    hide D.Act, CommandFor, Visible, SyncPlan, FailPending, FailAll, Stale, Claim, Complete, Fail, AssignedClients, Next,
      ClientOf, Ascending, Note, Noted, OpCommand, React, ReactSync, Send, SendOp, Deliver, DeliverLate;
  }

  lemma StepKeepsTills(s: State, step: Step)
    requires Enabled(s, step) && TillsKnown(s)
    ensures TillsKnown(Apply(s, step))
  {
    var s' := Apply(s, step);
    TillsStay(s, step);
    if step.Plan? {
      PlanIsKnown(s.tills, step.w, s.wrappers[step.w].tills, step.todo);
    }
    WrappersStay(s, step);
    assert step.Plan? ==> s'.wrappers[step.w].phase.todo == step.todo;
    hide Enabled, Apply;
    forall w | w in s'.wrappers && s'.wrappers[w].phase.Syncing? ensures TodoKnown(s'.tills.Keys, s'.wrappers[w].phase.todo) {
      if !(step.Plan? && step.w == w) {
        TodoShrinks(s, step, w);
      }
    }
  }

  lemma {:induction false} TillsAlways(states: seq<State>, steps: seq<Step>, i: nat)
    requires Behavior(states, steps) && i <= |steps|
    ensures TillsKnown(states[i]) && states[i].wrappers.Keys == states[0].wrappers.Keys
  {
    if i > 0 {
      TillsAlways(states, steps, i - 1);
      var s, step := states[i - 1], steps[i - 1];
      assert Enabled(s, step) && Apply(s, step) == states[i];
      StepKeepsTills(s, step);
      WrappersStay(s, step);
    }
  }

  // ---- whole runs --------------------------------------------------------------------

  lemma {:induction false} AgreesUntil(states: seq<State>, steps: seq<Step>, w: TseId, n: nat)
    requires Behavior(states, steps) && n <= |steps| && w in states[0].wrappers && Agrees(states[0], w)
    ensures (forall i :: 0 <= i <= n ==> Agrees(states[i], w)) <==> (forall i :: 0 <= i < n ==> !Spoils(states[i], steps[i], w))
    ensures (forall i :: 0 <= i <= n ==> Agrees(states[i], w)) ==> Settled(states[n], w)
  {
    RunLength(states, steps);
    if n == 0 {
      StartsSettled(states, steps, w);
    } else {
      AgreesUntil(states, steps, w, n - 1);
      InvAlways(states, steps, n - 1);
      TillsAlways(states, steps, n - 1);
      var s, step := states[n - 1], steps[n - 1];
      assert Enabled(s, step) && Apply(s, step) == states[n];
      hide Behavior, Agrees, Settled, Spoils, Inv, Enabled, Apply, TillsKnown;
      if forall i :: 0 <= i <= n - 1 ==> Agrees(states[i], w) {
        assert Settled(s, w);
        StepSettles(s, step, w);
      }
    }
  }

  lemma StartsSettled(states: seq<State>, steps: seq<Step>, w: TseId)
    requires Behavior(states, steps) && Agrees(states[0], w)
    ensures Settled(states[0], w)
  {
    hide Enabled, Apply, Registered;
  }

  /** From an agreeing start, history and device of a TSE agree after every step of a run if and only if in no
      step a request of a lost connection registers or deregisters a till, a confirmation of a till's
      registration or deregistration is lost, or another spelling of a registered till's number is removed. */
  lemma HistoryIsTheDevice(states: seq<State>, steps: seq<Step>, w: TseId)
    requires Behavior(states, steps) && w in states[0].wrappers && Agrees(states[0], w)
    ensures (forall i :: 0 <= i <= |steps| ==> Agrees(states[i], w))
            <==> (forall i :: 0 <= i < |steps| ==> !Spoils(states[i], steps[i], w))
  {
    AgreesUntil(states, steps, w, |steps|);
  }

  /** Between two changes nothing is on its way, and it is the history itself that agrees. */
  lemma IdleHistoryIsTheDevice(s: State, w: TseId)
    requires w in s.wrappers && Change(s.orders, s.wrappers[w].phase).None?
    ensures Agrees(s, w) <==>
              forall till :: till in s.tills ==>
                (till in Registered(s.history, w) <==> ClientOf(till) in s.wrappers[w].device.open)
  {
    hide Registered, ClientOf;
  }

  // ---- reading it --------------------------------------------------------------------

  /** A registration of the till at or before the closing. */
  predicate Applies(e: Entry, till: int, zNr: int) { e.till == till && e.what == Register && e.zNr <= zNr }

  /** get_tse_id_for_till_at_z_nr: the largest applicable z_nr, then the first row with it. */
  method TseIdForTillAtZNr(history: seq<Entry>, till: int, zNr: int) returns (tse: Option<int>)
    ensures tse.None? <==>
              forall i :: 0 <= i < |history| ==> history[i].till != till || history[i].what != Register || history[i].zNr > zNr
    ensures tse.Some? ==>
              exists k :: 0 <= k < |history| && history[k].till == till && history[k].what == Register && history[k].zNr <= zNr
                          && history[k].tse == tse.value
                          && (forall i :: 0 <= i < |history| && history[i].till == till && history[i].what == Register ==>
                                history[i].zNr <= zNr ==> history[i].zNr <= history[k].zNr)
    ensures tse == Latest(history, till, zNr)
  {
    var best: Option<int> := None;
    for i := 0 to |history|
      invariant best.None? <==> forall k :: 0 <= k < i ==> !Applies(history[k], till, zNr)
      invariant best.Some? ==> exists k :: 0 <= k < i && Applies(history[k], till, zNr) && history[k].zNr == best.value
      invariant best.Some? ==> forall k :: 0 <= k < i && Applies(history[k], till, zNr) ==> history[k].zNr <= best.value
    {
      if Applies(history[i], till, zNr) && (best.None? || history[i].zNr > best.value) {
        best := Some(history[i].zNr);
      }
    }
    if best.None? {
      NoneApplies(history, till, zNr);
      return None;
    }
    for i := 0 to |history|
      invariant forall k :: 0 <= k < i && Applies(history[k], till, zNr) ==> history[k].zNr != best.value
    {
      if Applies(history[i], till, zNr) && history[i].zNr == best.value {
        FirstLatest(history, till, zNr, i);
        return Some(history[i].tse);
      }
    }
    assert false;
  }

  /** Reference: the first registration at or before the closing that no other one follows. */
  function Latest(history: seq<Entry>, till: int, zNr: int): Option<int>
  {
    match LatestEntry(history, till, zNr)
    case Some(e) => Some(e.tse)
    case None => None
  }

  function LatestEntry(history: seq<Entry>, till: int, zNr: int): Option<Entry>
  {
    if history == [] then None
    else
      var before, e := LatestEntry(history[..|history| - 1], till, zNr), history[|history| - 1];
      if Applies(e, till, zNr) && (before.None? || e.zNr > before.value.zNr) then Some(e) else before
  }

  lemma {:induction false} LatestEntrySpec(history: seq<Entry>, till: int, zNr: int)
    ensures match LatestEntry(history, till, zNr)
            case Some(e) =>
              && e in history && Applies(e, till, zNr)
              && forall i :: 0 <= i < |history| && Applies(history[i], till, zNr) ==> history[i].zNr <= e.zNr
            case None => forall i :: 0 <= i < |history| ==> !Applies(history[i], till, zNr)
  {
    if history != [] {
      LatestEntrySpec(history[..|history| - 1], till, zNr);
    }
  }

  lemma NoneApplies(history: seq<Entry>, till: int, zNr: int)
    requires forall i :: 0 <= i < |history| ==> !Applies(history[i], till, zNr)
    ensures Latest(history, till, zNr) == None
  {
    LatestEntrySpec(history, till, zNr);
  }

  lemma {:induction false} FirstLatest(history: seq<Entry>, till: int, zNr: int, k: nat)
    requires k < |history| && Applies(history[k], till, zNr)
    requires forall i :: 0 <= i < |history| && Applies(history[i], till, zNr) ==> history[i].zNr <= history[k].zNr
    requires forall i :: 0 <= i < k && Applies(history[i], till, zNr) ==> history[i].zNr != history[k].zNr
    ensures LatestEntry(history, till, zNr) == Some(history[k])
  {
    var front := history[..|history| - 1];
    if k == |history| - 1 {
      LatestEntrySpec(front, till, zNr);
      if LatestEntry(front, till, zNr).Some? {
        var e := LatestEntry(front, till, zNr).value;
        var i :| 0 <= i < |front| && front[i] == e;
        assert history[i] == e;
      }
    } else {
      assert front[k] == history[k];
      FirstLatest(front, till, zNr, k);
    }
  }

  /** With registrations of a till in different closings, the lookup is the one TSE of its latest
      registration at or before the closing. */
  lemma LookupIsUnique(history: seq<Entry>, till: int, zNr: int, k: nat)
    requires k < |history| && Applies(history[k], till, zNr)
    requires forall i :: 0 <= i < |history| && Applies(history[i], till, zNr) ==> history[i].zNr <= history[k].zNr
    requires forall i :: 0 <= i < |history| && i != k && Applies(history[i], till, zNr) ==> history[i].zNr != history[k].zNr
    ensures Latest(history, till, zNr) == Some(history[k].tse)
  {
    FirstLatest(history, till, zNr, k);
  }

  // ---- what an entry says ------------------------------------------------------------

  /** Wrapper w takes the device's confirmation of a change of the clients, and the entry names this TSE, the till
      the change was about, and the till's closing at that moment. */
  ghost predicate TellsOf(s: State, w: TseId, e: Entry)
  {
    && w in s.wrappers && s.wrappers[w].toWrapper != []
    && var phase, answer := s.wrappers[w].phase, s.wrappers[w].toWrapper[0];
    && answer.reply == D.Success && Awaited(phase) == Some(answer.id)
    && e.tse == w && e.till in s.zNrs && e.zNr == s.zNrs[e.till]
    && match e.what
       case Register =>
         || (phase.Syncing? && phase.todo != [] && phase.todo[0] == Add(e.till))
         || (phase.Registering? && phase.order in s.orders && s.orders[phase.order].till == e.till)
       case Deregister =>
         phase.Syncing? && phase.todo != [] && phase.todo[0].Remove? && ParseInt(phase.todo[0].client) == Some(e.till)
  }

  lemma AnswerIsTold(s: State, w: TseId)
    requires Enabled(s, Receive(w))
    ensures var s' := Apply(s, Receive(w));
            && s'.zNrs == s.zNrs
            && (s'.history == s.history
                || (|s'.history| == |s.history| + 1 && s'.history[..|s.history|] == s.history
                    && TellsOf(s, w, s'.history[|s.history|])))
  {
    hide React, ReactSync, Complete, ClientOf, CommandFor;
  }

  lemma OthersTellNothing(s: State, step: Step)
    requires Enabled(s, step) && !step.Receive?
    ensures Apply(s, step).history == s.history
    ensures step.CloseTill? || Apply(s, step).zNrs == s.zNrs
    ensures step.CloseTill? ==> Apply(s, step).zNrs == s.zNrs[step.till := s.zNrs[step.till] + 1]
  {
    hide D.Act, CommandFor, Visible, SyncPlan, FailPending, FailAll, Stale, Claim, Complete, Fail, AssignedClients, Next,
      ClientOf, Ascending, OpCommand, Send, SendOp, Deliver, DeliverLate;
  }

  /** Nothing but a confirmation writes the history, one entry at a time, and each entry tells of it. */
  lemma EntryTellsOfItsMoment(states: seq<State>, steps: seq<Step>, i: nat)
    requires Behavior(states, steps) && i < |steps|
    ensures var before, after := states[i].history, states[i + 1].history;
            after == before
            || (|after| == |before| + 1 && after[..|before|] == before && steps[i].Receive?
                && TellsOf(states[i], steps[i].w, after[|before|]))
  {
    assert Enabled(states[i], steps[i]) && Apply(states[i], steps[i]) == states[i + 1];
    if steps[i].Receive? {
      AnswerIsTold(states[i], steps[i].w);
    } else {
      OthersTellNothing(states[i], steps[i]);
    }
  }

  /** The entries of a run stand in the order of their till's closings, none beyond the present one. */
  lemma {:induction false} EntriesInOrder(states: seq<State>, steps: seq<Step>, i: nat)
    requires Behavior(states, steps) && i <= |steps|
    ensures |states[0].history| <= |states[i].history|
    ensures var h := states[i].history;
            && (forall b :: |states[0].history| <= b < |h| ==>
                  h[b].till in states[i].zNrs && h[b].zNr <= states[i].zNrs[h[b].till])
            && forall a, b :: |states[0].history| <= a < b < |h| && h[a].till == h[b].till ==> h[a].zNr <= h[b].zNr
  {
    RunLength(states, steps);
    if i > 0 {
      EntriesInOrder(states, steps, i - 1);
      ClosingsGrow(states, steps, i - 1);
      EntryTellsOfItsMoment(states, steps, i - 1);
      if states[i].history != states[i - 1].history {
        LastTold(states[i - 1], steps[i - 1].w, states[i].history[|states[i - 1].history|]);
      }
      hide Behavior, TellsOf;
      OrderGoesOn(states[i - 1].history, states[i].history, |states[0].history|, states[i - 1].zNrs, states[i].zNrs);
    }
  }

  lemma LastTold(s: State, w: TseId, e: Entry)
    requires TellsOf(s, w, e)
    ensures e.till in s.zNrs && e.zNr == s.zNrs[e.till]
  {
    hide ParseInt;
  }

  lemma OrderGoesOn(before: seq<Entry>, after: seq<Entry>, n: nat, was: map<TillId, int>, zNrs: map<TillId, int>)
    requires n <= |before| <= |after| <= |before| + 1 && after[..|before|] == before
    requires forall till :: till in was ==> till in zNrs && was[till] <= zNrs[till]
    requires forall b :: n <= b < |before| ==> before[b].till in was && before[b].zNr <= was[before[b].till]
    requires forall a, b :: n <= a < b < |before| && before[a].till == before[b].till ==> before[a].zNr <= before[b].zNr
    requires |after| > |before| ==> after[|before|].till in was && after[|before|].zNr == was[after[|before|].till]
    ensures forall b :: n <= b < |after| ==> after[b].till in zNrs && after[b].zNr <= zNrs[after[b].till]
    ensures forall a, b :: n <= a < b < |after| && after[a].till == after[b].till ==> after[a].zNr <= after[b].zNr
  {
    forall b | 0 <= b < |before| ensures after[b] == before[b] {
      assert after[..|before|][b] == after[b];
    }
  }

  lemma ClosingsGrow(states: seq<State>, steps: seq<Step>, i: nat)
    requires Behavior(states, steps) && i < |steps|
    ensures forall till :: till in states[i].zNrs ==>
              till in states[i + 1].zNrs && states[i].zNrs[till] <= states[i + 1].zNrs[till]
    ensures steps[i].Receive? ==> states[i + 1].zNrs == states[i].zNrs
  {
    assert Enabled(states[i], steps[i]) && Apply(states[i], steps[i]) == states[i + 1];
    if steps[i].Receive? {
      AnswerIsTold(states[i], steps[i].w);
    } else {
      OthersTellNothing(states[i], steps[i]);
    }
  }
}
