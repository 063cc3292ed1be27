/** A run of the signing protocol in which a start is sent for a client the device does not know: the removal of
    the till from an earlier connection arrives after the till was assigned to the TSE again. */
module LateRemoval {

  import opened Wrappers
  import opened SignatureTable
  import opened Signing
  import opened SigningSafety
  import opened SmallWorld
  import D = VirtualTse

  function Removal(): D.Command { OpCommand(Remove(Client()), D.PASSWORD) }

  function Device(): D.Tse { D.Tse(0, 0, 0, WithTill({})) }

  /** The first connection is lost with the removal on its way. */
  function Removing(): Wrapper { ToldWrapper(Fresh(Device())).(phase := Syncing({}, [Remove(Client())], None)) }

  function Lost(): Wrapper
  {
    ToldWrapper(Fresh(Device())).(phase := Disconnected, nextId := 2, adrift := [Request(1, Removal())])
  }

  lemma RemovalIsPlanned()
    ensures SyncPlan(map[TILL := None], TSE, {Client()}, [Remove(Client())])
    ensures ToldWrapper(Fresh(Device())).tills == {Client()}
  {
    Assigned(None);
    Shown({});
    var todo := [Remove(Client())];
    assert todo[0] == Remove(Client());
    assert Added(todo) == {};
    assert Removed(todo) == {Client()};
  }

  lemma RemovalIsLost()
    ensures Disconnect(SendOp(Removing(), D.PASSWORD)) == Lost()
  {
    hide Client;
    assert [] + [Request(1, Removal())] == [Request(1, Removal())];
  }

  lemma FirstConnection() returns (states: seq<State>, steps: seq<Step>)
    ensures EndsIn(states, steps, World(Empty(None), Lost()))
  {
    var db, told := Empty(None), ToldWrapper(Fresh(Device()));
    WithTillInv(0, 0, {});
    ClientIsOther();
    Assigned(None);
    RemovalIsPlanned();
    RemovalIsLost();
    Plans(db, told, [Remove(Client())]);
    Sends(db, Removing());
    Loses(db, SendOp(Removing(), D.PASSWORD));
    states, steps := Starts(None, Device());
    states, steps := Connects(states, steps, db, Fresh(Device()));
    hide Apply, Enabled, EndsIn, World, ToldWrapper, SyncPlan, Client, SendOp, AssignedClients, Lost, Disconnect;
    states, steps := Then(states, steps, World(db, told), Plan(TSE, [Remove(Client())]));
    states, steps := Then(states, steps, World(db, Removing()), SyncNext(TSE));
    states, steps := Then(states, steps, World(db, SendOp(Removing(), D.PASSWORD)), Lose(TSE));
  }

  /** On the second connection the till is assigned, known and has an order. */
  function Waiting(): Wrapper { ToldWrapper(Lost()).(phase := Idle) }

  function Begun(): Wrapper
  {
    Waiting().(phase := Starting(1, 1), nextId := 2, toDevice := [Request(1, StartOfTill())])
  }

  function Pending(): Db { Db(map[1 := Booked(Status.Pending)], Some(TSE), [], []) }

  lemma OrderBegins(states: seq<State>, steps: seq<Step>) returns (states': seq<State>, steps': seq<Step>)
    requires EndsIn(states, steps, World(Empty(Some(TSE)), Waiting()))
    ensures EndsIn(states', steps', World(Pending(), Begun()))
  {
    Shown({});
    var db, x := Empty(Some(TSE)), Waiting();
    Books(db, x, 1);
    var booked := db.(orders := map[][1 := Booked(New)]);
    Grabs(booked, x, 1);
    var grabbed := booked.(orders := booked.orders[1 := Booked(Status.Pending)]);
    Begins(grabbed, x.(phase := Grabbed(1)), 1);
    assert grabbed == Pending();
    assert [] + [Request(1, StartOfTill())] == [Request(1, StartOfTill())];
    hide Apply, Enabled, EndsIn, World, ToldWrapper, Client, StartOfTill, Lost;
    states', steps' := Then(states, steps, World(db, x), Book(1, TILL, 0, "", ""));
    states', steps' := Then(states', steps', World(booked, x), Grab(TSE, 1));
    states', steps' := Then(states', steps', World(grabbed, x.(phase := Grabbed(1))), BeginSign(TSE));
  }

  lemma RemovalArrives()
    ensures Begun().adrift != []
    ensures DeliverLate(Begun(), 0, 0).device == D.Tse(0, 0, 0, Bare())
    ensures DeliverLate(Begun(), 0, 0).phase == Starting(1, 1)
    ensures DeliverLate(Begun(), 0, 0).toDevice == [Request(1, StartOfTill())]
  {
    ClientIsOther();
    WithTillInv(0, 0, {});
    assert WithTill({}) - {Client()} == Bare();
    assert |Client()| <= 30 && Client() != D.MAGIC_PRODUCTION_CLIENT;
  }

  /** While the signature of order 1 is under way its till is not registered, and the device refuses the start. */
  lemma UnknownClient() returns (states: seq<State>, steps: seq<Step>)
    ensures Behavior(states, steps)
    ensures var s := states[|steps|];
            && TSE in s.wrappers && s.wrappers[TSE].phase == Starting(1, 1) && 1 in s.orders && s.orders[1].till == TILL
            && ClientOf(TILL) in s.wrappers[TSE].tills && ClientOf(TILL) !in s.wrappers[TSE].device.open
            && s.wrappers[TSE].toDevice == [Request(1, StartOfTill())]
            && D.Act(s.wrappers[TSE].device, StartOfTill(), 0).1 == D.Error(19)
  {
    ClientIsOther();
    Shown({});
    RemovalArrives();
    Assigns(Empty(None), Lost());
    TakesLate(Pending(), Begun());
    states, steps := FirstConnection();
    assert Lost().device == Device();
    hide Apply, Enabled, EndsIn, Behavior;
    states, steps := Then(states, steps, World(Empty(None), Lost()), Assign(TILL, Some(TSE)));
    states, steps := ConnectsReady(states, steps, Empty(Some(TSE)), Lost(), {});
    states, steps := OrderBegins(states, steps);
    states, steps := Then(states, steps, World(Pending(), Begun()), Late(TSE, 0, 0));
    EndOfRun(states, steps, World(Pending(), DeliverLate(Begun(), 0, 0)));
  }

  lemma EndOfRun(states: seq<State>, steps: seq<Step>, s: State)
    requires EndsIn(states, steps, s)
    ensures Behavior(states, steps) && states[|steps|] == s
  {
  }
}
