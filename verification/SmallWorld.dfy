/** Runs of the signing protocol with one TSE and one till, put together step by step. */
module SmallWorld {

  import opened Wrappers
  import opened SignatureTable
  import opened Signing
  import opened SigningSafety
  import D = VirtualTse

  const TILL: TillId := 7
  const TSE: TseId := 1

  function Client(): string { ClientOf(TILL) }

  /** A device without and with the till's client. */
  function Bare(): map<string, set<int>> { map[D.DUMMY_CLIENT := {}] }

  function WithTill(open: set<int>): map<string, set<int>> { map[D.DUMMY_CLIENT := {}, Client() := open] }

  /** The database besides the TSE's wrapper. */
  datatype Db = Db(orders: Orders, owner: Option<TseId>, history: seq<Entry>, completed: seq<OrderId>)

  function World(db: Db, x: Wrapper): State
  {
    State(db.orders, map[TILL := db.owner], map[TILL := 0], db.history, map[TSE := x], D.PASSWORD, db.completed)
  }

  function Fresh(device: D.Tse): Wrapper { Wrapper(Disconnected, 0, [], [], [], {}, device, [], []) }

  function Empty(owner: Option<TseId>): Db { Db(map[], owner, [], []) }

  function Booked(status: Status): Row { Row(TILL, 0, "", "", status, if status == New then None else Some(TSE), None) }

  function StartOfTill(): D.Command { D.StartTransaction(Some(Client()), D.Decoded(D.PASSWORD)) }

  lemma ClientIsOther()
    ensures Client() != D.DUMMY_CLIENT && !Hidden(Client()) && Hidden(D.DUMMY_CLIENT)
  {
    ClientIsVisible(TILL);
  }

  // ---- putting a run together --------------------------------------------------------

  ghost predicate EndsIn(states: seq<State>, steps: seq<Step>, s: State)
  {
    Behavior(states, steps) && states[|steps|] == s
  }

  ghost predicate SameStart(states: seq<State>, states': seq<State>)
  {
    |states| > 0 && |states'| > 0 && states'[0] == states[0]
  }

  lemma Then(states: seq<State>, steps: seq<Step>, s: State, step: Step) returns (states': seq<State>, steps': seq<Step>)
    requires EndsIn(states, steps, s) && Enabled(s, step)
    ensures EndsIn(states', steps', Apply(s, step)) && SameStart(states, states')
  {
    hide Enabled, Apply, Init;
    states', steps' := states + [Apply(s, step)], steps + [step];
  }

  lemma Starts(owner: Option<TseId>, device: D.Tse) returns (states: seq<State>, steps: seq<Step>)
    requires device.Inv()
    ensures EndsIn(states, steps, World(Empty(owner), Fresh(device)))
    ensures |states| > 0 && states[0] == World(Empty(owner), Fresh(device))
  {
    states, steps := [World(Empty(owner), Fresh(device))], [];
  }

  // ---- single steps ------------------------------------------------------------------

  lemma WorldSet(db: Db, x: Wrapper, y: Wrapper)
    ensures SetWrapper(World(db, x), TSE, y) == World(db, y)
  {
  }

  lemma Asks(db: Db, x: Wrapper)
    requires x.phase.Disconnected?
    ensures Enabled(World(db, x), Connect(TSE))
    ensures Apply(World(db, x), Connect(TSE)) == World(db, Ask(x, D.PASSWORD))
  {
    hide Ask;
    WorldSet(db, x, Ask(x, D.PASSWORD));
  }

  lemma Takes(db: Db, x: Wrapper)
    requires x.toDevice != []
    ensures Enabled(World(db, x), DeviceStep(TSE, 0))
    ensures Apply(World(db, x), DeviceStep(TSE, 0)) == World(db, Deliver(x, 0))
  {
    hide Deliver;
    WorldSet(db, x, Deliver(x, 0));
  }

  lemma TakesLate(db: Db, x: Wrapper)
    requires x.adrift != []
    ensures Enabled(World(db, x), Late(TSE, 0, 0))
    ensures Apply(World(db, x), Late(TSE, 0, 0)) == World(db, DeliverLate(x, 0, 0))
  {
    hide DeliverLate;
    WorldSet(db, x, DeliverLate(x, 0, 0));
  }

  lemma Hears(db: Db, x: Wrapper)
    requires x.toWrapper != [] && Awaits(x.phase, x.toWrapper[0].id) && !x.phase.Holds()
    ensures Enabled(World(db, x), Receive(TSE))
    ensures Apply(World(db, x), Receive(TSE))
            == World(db.(history := db.history + Noted(World(db, x), TSE, x.phase, x.toWrapper[0].reply)),
                     ReactSync(x.(toWrapper := x.toWrapper[1..]), x.toWrapper[0].reply))
  {
    hide ReactSync, Noted;
  }

  lemma Plans(db: Db, x: Wrapper, todo: seq<SyncOp>)
    requires x.phase.Informed? && SyncPlan(map[TILL := db.owner], TSE, x.tills, todo)
    ensures Enabled(World(db, x), Plan(TSE, todo))
    ensures Apply(World(db, x), Plan(TSE, todo))
            == World(db, x.(phase := Syncing(AssignedClients(map[TILL := db.owner], TSE), todo, None)))
  {
    hide SyncPlan, AssignedClients;
    WorldSet(db, x, x.(phase := Syncing(AssignedClients(map[TILL := db.owner], TSE), todo, None)));
  }

  lemma Sends(db: Db, x: Wrapper)
    requires x.phase.Syncing? && x.phase.todo != [] && x.phase.sent.None?
    ensures Enabled(World(db, x), SyncNext(TSE))
    ensures Apply(World(db, x), SyncNext(TSE)) == World(db, SendOp(x, D.PASSWORD))
  {
    hide SendOp;
    WorldSet(db, x, SendOp(x, D.PASSWORD));
  }

  lemma BecomesReady(db: Db, x: Wrapper)
    requires x.phase.Syncing? && x.phase.todo == []
    ensures Enabled(World(db, x), Ready(TSE))
    ensures Apply(World(db, x), Ready(TSE)) == World(db, x.(phase := Idle))
  {
    WorldSet(db, x, x.(phase := Idle));
  }

  lemma Loses(db: Db, x: Wrapper)
    ensures Enabled(World(db, x), Lose(TSE))
    ensures Apply(World(db, x), Lose(TSE)) == World(db, Disconnect(x))
  {
    hide Disconnect;
    WorldSet(db, x, Disconnect(x));
  }

  lemma Assigns(db: Db, x: Wrapper)
    ensures Enabled(World(db, x), Assign(TILL, Some(TSE)))
    ensures Apply(World(db, x), Assign(TILL, Some(TSE))) == World(db.(owner := Some(TSE)), x)
  {
  }

  lemma Books(db: Db, x: Wrapper, o: OrderId)
    requires forall p :: p in db.orders ==> p < o && db.orders[p].bookedAt <= 0
    ensures Enabled(World(db, x), Book(o, TILL, 0, "", ""))
    ensures Apply(World(db, x), Book(o, TILL, 0, "", "")) == World(db.(orders := db.orders[o := Booked(New)]), x)
  {
  }

  lemma Grabs(db: Db, x: Wrapper, o: OrderId)
    requires x.phase.Idle? && db.owner == Some(TSE) && o in db.orders && db.orders[o] == Booked(New)
    requires forall p :: p in db.orders && p != o ==> db.orders[p].status != Pending && (p < o ==> db.orders[p].status != New)
    ensures Enabled(World(db, x), Grab(TSE, o))
    ensures Apply(World(db, x), Grab(TSE, o)) == World(db.(orders := db.orders[o := Booked(Pending)]), x.(phase := Grabbed(o)))
  {
    assert Eligible(db.orders, map[TILL := db.owner], TSE, o);
    assert Claim(db.orders, o, TSE) == db.orders[o := Booked(Pending)];
    WorldSet(db, x, x.(phase := Grabbed(o)));
  }

  lemma Begins(db: Db, x: Wrapper, o: OrderId)
    requires x.phase == Grabbed(o) && o in db.orders && db.orders[o].till == TILL && Client() in x.tills
    ensures Enabled(World(db, x), BeginSign(TSE))
    ensures Apply(World(db, x), BeginSign(TSE))
            == World(db, x.(phase := Starting(o, x.nextId), nextId := x.nextId + 1,
                            toDevice := x.toDevice + [Request(x.nextId, StartOfTill())]))
  {
    WorldSet(db, x, Send(x, Starting(o, x.nextId), db.orders[o], D.PASSWORD));
  }

  lemma TimesOut(db: Db, x: Wrapper, o: OrderId, id: nat)
    requires x.phase == Starting(o, id) && o in db.orders
    ensures Enabled(World(db, x), Timeout(TSE))
    ensures Apply(World(db, x), Timeout(TSE))
            == World(db.(orders := Fail(db.orders, o), completed := db.completed + [o]), x.(phase := Idle))
  {
    hide Fail;
    WorldSet(db, x, x.(phase := Idle));
  }

  /** The answer to a start or a finish. */
  lemma HearsOfOrder(db: Db, x: Wrapper)
    requires x.toWrapper != [] && Awaits(x.phase, x.toWrapper[0].id) && (x.phase.Starting? || x.phase.Finishing?)
    requires x.phase.order in db.orders
    ensures Enabled(World(db, x), Receive(TSE))
    ensures var o := x.phase.order;
            var (z, g) := React(x.(toWrapper := x.toWrapper[1..]), db.orders[o], x.toWrapper[0].reply, D.PASSWORD);
            Apply(World(db, x), Receive(TSE))
            == if g.None? then World(db, z)
               else World(db.(orders := Complete(db.orders, o, g.value), completed := db.completed + [o]), z)
  {
    assert Noted(World(db, x), TSE, x.phase, x.toWrapper[0].reply) == [] && db.history + [] == db.history;
    hide React, Complete, Noted;
  }

  // ---- connecting --------------------------------------------------------------------

  /** The wrapper once the device has told its clients. */
  function ToldWrapper(x: Wrapper): Wrapper
  {
    x.(phase := Informed, nextId := 1, toDevice := [], toWrapper := [], tills := Visible(x.device.open.Keys),
       taken := x.taken + [Taken(false, AskStatus(D.PASSWORD), D.Status(Some(x.device.open.Keys)))])
  }

  lemma DeviceTells(x: Wrapper)
    requires x.device.blockCounter == 0
    ensures Ask(x, D.PASSWORD).toDevice != []
    ensures Deliver(Ask(x, D.PASSWORD), 0)
            == Ask(x, D.PASSWORD).(toDevice := [], toWrapper := [Answer(0, D.Status(Some(x.device.open.Keys)))],
                                   taken := x.taken + [Taken(false, AskStatus(D.PASSWORD), D.Status(Some(x.device.open.Keys)))])
  {
    assert [] + [Answer(0, D.Status(Some(x.device.open.Keys)))] == [Answer(0, D.Status(Some(x.device.open.Keys)))];
  }

  lemma Connects(states: seq<State>, steps: seq<Step>, db: Db, x: Wrapper) returns (states': seq<State>, steps': seq<Step>)
    requires EndsIn(states, steps, World(db, x)) && x.phase.Disconnected?
    requires x.device.blockCounter == 0 && D.DUMMY_CLIENT in x.device.open
    ensures EndsIn(states', steps', World(db, ToldWrapper(x))) && SameStart(states, states')
  {
    Asks(db, x);
    DeviceTells(x);
    var y := Ask(x, D.PASSWORD);
    Takes(db, y);
    var z := Deliver(y, 0);
    Hears(db, z);
    assert Noted(World(db, z), TSE, z.phase, z.toWrapper[0].reply) == [] && db.history + [] == db.history;
    assert ReactSync(z.(toWrapper := z.toWrapper[1..]), z.toWrapper[0].reply) == ToldWrapper(x);
    hide Apply, Enabled, EndsIn, World, ReactSync, Deliver, Ask, Noted, ToldWrapper;
    states', steps' := Then(states, steps, World(db, x), Connect(TSE));
    states', steps' := Then(states', steps', World(db, y), DeviceStep(TSE, 0));
    states', steps' := Then(states', steps', World(db, z), Receive(TSE));
  }

  lemma Assigned(owner: Option<TseId>)
    ensures AssignedClients(map[TILL := owner], TSE) == if owner == Some(TSE) then {Client()} else {}
  {
  }

  lemma Shown(open: set<int>)
    ensures Visible(WithTill(open).Keys) == {Client()} && Visible(Bare().Keys) == {}
  {
    ClientIsOther();
  }

  lemma NothingToDo(tills: set<string>)
    requires tills == {Client()}
    ensures SyncPlan(map[TILL := Some(TSE)], TSE, tills, [])
  {
    Assigned(Some(TSE));
    assert Added([]) == {} && Removed([]) == {};
  }

  /** A ready wrapper whose device has the owner till. */
  lemma ConnectsReady(states: seq<State>, steps: seq<Step>, db: Db, x: Wrapper, open: set<int>)
      returns (states': seq<State>, steps': seq<Step>)
    requires EndsIn(states, steps, World(db, x)) && x.phase.Disconnected? && db.owner == Some(TSE)
    requires x.device.blockCounter == 0 && x.device.open == WithTill(open)
    ensures EndsIn(states', steps', World(db, ToldWrapper(x).(phase := Idle))) && SameStart(states, states')
    ensures ToldWrapper(x).tills == {Client()}
  {
    ClientIsOther();
    Shown(open);
    NothingToDo({Client()});
    var told := ToldWrapper(x);
    Plans(db, told, []);
    var planned := told.(phase := Syncing(AssignedClients(map[TILL := db.owner], TSE), [], None));
    BecomesReady(db, planned);
    states', steps' := Connects(states, steps, db, x);
    hide Apply, Enabled, EndsIn, World, ToldWrapper, AssignedClients, SyncPlan;
    states', steps' := Then(states', steps', World(db, told), Plan(TSE, []));
    states', steps' := Then(states', steps', World(db, planned), Ready(TSE));
  }

  // ---- the device --------------------------------------------------------------------

  lemma BareInv()
    ensures D.Tse(0, 0, 0, Bare()).Inv()
  {
    assert |Bare()| == |Bare().Keys|;
    assert D.Tse(0, 0, 0, Bare()).AllOpen() == {};
  }

  lemma WithTillInv(transnr: nat, signctr: nat, open: set<int>)
    requires |open| <= 2 && forall t :: t in open ==> 1 <= t <= transnr
    ensures D.Tse(0, transnr, signctr, WithTill(open)).Inv()
    ensures D.Tse(0, transnr, signctr, WithTill(open)).AllOpen() == open
  {
    ClientIsOther();
    var d := D.Tse(0, transnr, signctr, WithTill(open));
    assert d.open.Keys == {D.DUMMY_CLIENT, Client()};
    assert |d.open| == |d.open.Keys| == 2;
    assert d.open[Client()] == open && d.open[D.DUMMY_CLIENT] == {};
    assert forall t :: t in open ==> t in d.open[Client()];
    assert forall t :: t in open ==> t in d.AllOpen();
    assert d.AllOpen() == open;
  }
}
