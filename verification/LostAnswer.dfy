/** A run in which the history of registrations never learns of a till: the device registers it and the answer is
    lost, so that the next connection finds it there already. */
module LostAnswer {

  import opened Wrappers
  import opened SignatureTable
  import opened Signing
  import opened SigningSafety
  import opened SigningClients
  import opened SmallWorld
  import opened TillHistory
  import D = VirtualTse

  function Device(): D.Tse { D.Tse(0, 0, 0, Bare()) }

  function Registration(): D.Command { OpCommand(Add(TILL), D.PASSWORD) }

  function Adding(): Wrapper { ToldWrapper(Fresh(Device())).(phase := Syncing({Client()}, [Add(TILL)], None)) }

  /** The device has registered the till, and the connection is gone. */
  function Unheard(): Wrapper
  {
    ToldWrapper(Fresh(Device())).(phase := Disconnected, nextId := 2, device := D.Tse(0, 0, 0, WithTill({})),
      taken := ToldWrapper(Fresh(Device())).taken + [Taken(false, Registration(), D.Success)])
  }

  lemma AdditionIsPlanned()
    ensures SyncPlan(map[TILL := Some(TSE)], TSE, {}, [Add(TILL)])
    ensures ToldWrapper(Fresh(Device())).tills == {}
  {
    Assigned(Some(TSE));
    Shown({});
    var todo := [Add(TILL)];
    assert todo[0] == Add(TILL);
    assert Added(todo) == {Client()};
    assert Removed(todo) == {};
  }

  lemma TillIsRegistered()
    ensures SendOp(Adding(), D.PASSWORD).toDevice != []
    ensures Disconnect(Deliver(SendOp(Adding(), D.PASSWORD), 0)) == Unheard()
  {
    ClientIsOther();
    var sent := SendOp(Adding(), D.PASSWORD);
    assert [] + [Request(1, Registration())] == [Request(1, Registration())];
    AcceptsTill();
    hide D.Act, Client, Registration;
    assert Deliver(sent, 0).toDevice == [];
    assert sent.adrift + [] == [];
  }

  lemma AcceptsTill()
    ensures D.Act(Device(), Registration(), 0) == (D.Tse(0, 0, 0, WithTill({})), D.Success)
  {
    ClientIsOther();
    assert Client() == "7";
    assert D.ClientChar('7') && D.ClientIdMatches("7");
    assert |Bare()| == |Bare().Keys| == 1;
    assert Bare()[Client() := {}] == WithTill({});
  }

  function Sent(): Wrapper { SendOp(Adding(), D.PASSWORD) }

  lemma FirstConnection() returns (states: seq<State>, steps: seq<Step>)
    ensures EndsIn(states, steps, World(Empty(Some(TSE)), Unheard()))
    ensures |states| > 0 && states[0] == World(Empty(Some(TSE)), Fresh(Device()))
  {
    var db := Empty(Some(TSE));
    BareInv();
    ClientIsOther();
    states, steps := Starts(Some(TSE), Device());
    states, steps := Connects(states, steps, db, Fresh(Device()));
    states, steps := PlanAndSend(states, steps);
    TillIsRegistered();
    Takes(db, Sent());
    Loses(db, Deliver(Sent(), 0));
    hide Apply, Enabled, EndsIn, World, ToldWrapper, Client, Sent, Unheard, Disconnect, Deliver;
    states, steps := Then(states, steps, World(db, Sent()), DeviceStep(TSE, 0));
    states, steps := Then(states, steps, World(db, Deliver(Sent(), 0)), Lose(TSE));
  }

  lemma PlanAndSend(states: seq<State>, steps: seq<Step>) returns (states': seq<State>, steps': seq<Step>)
    requires EndsIn(states, steps, World(Empty(Some(TSE)), ToldWrapper(Fresh(Device()))))
    ensures EndsIn(states', steps', World(Empty(Some(TSE)), Sent())) && SameStart(states, states')
  {
    var db, told := Empty(Some(TSE)), ToldWrapper(Fresh(Device()));
    Assigned(Some(TSE));
    AdditionIsPlanned();
    Plans(db, told, [Add(TILL)]);
    Sends(db, Adding());
    hide Apply, Enabled, EndsIn, World, ToldWrapper, SyncPlan, Client, SendOp, AssignedClients;
    states', steps' := Then(states, steps, World(db, told), Plan(TSE, [Add(TILL)]));
    states', steps' := Then(states', steps', World(db, Adding()), SyncNext(TSE));
  }

  /** History and device agree at first; in the end the wrapper is ready with the till on its device, no entry
      says so, and the lookup finds no TSE for the till in any closing. */
  lemma NeverNoted() returns (states: seq<State>, steps: seq<Step>)
    ensures Behavior(states, steps) && Agrees(states[0], TSE)
    ensures var s := states[|steps|];
            && TSE in s.wrappers && s.wrappers[TSE].phase.Idle? && s.tills == map[TILL := Some(TSE)]
            && ClientOf(TILL) in s.wrappers[TSE].device.open && ClientOf(TILL) in s.wrappers[TSE].tills
            && s.history == [] && !Agrees(s, TSE)
            && forall zNr :: Latest(s.history, TILL, zNr).None?
  {
    ClientIsOther();
    states, steps := FirstConnection();
    states, steps := ConnectsReady(states, steps, Empty(Some(TSE)), Unheard(), {});
    var s := World(Empty(Some(TSE)), ToldWrapper(Unheard()).(phase := Idle));
    AgreesAtFirst();
    DisagreesAtLast();
    hide Agrees, World, ToldWrapper;
    assert states[|steps|] == s;
  }

  lemma AgreesAtFirst()
    ensures Agrees(World(Empty(Some(TSE)), Fresh(Device())), TSE)
  {
    ClientIsOther();
    var s := World(Empty(Some(TSE)), Fresh(Device()));
    assert Expected(s, TSE) == [];
    assert Registered([], TSE) == {};
  }

  lemma DisagreesAtLast()
    ensures var s := World(Empty(Some(TSE)), ToldWrapper(Unheard()).(phase := Idle));
            && s.wrappers[TSE].phase.Idle? && s.tills == map[TILL := Some(TSE)] && s.history == []
            && ClientOf(TILL) in s.wrappers[TSE].device.open && !Agrees(s, TSE)
            && forall zNr :: Latest(s.history, TILL, zNr).None?
  {
    ClientIsOther();
    var s := World(Empty(Some(TSE)), ToldWrapper(Unheard()).(phase := Idle));
    assert Expected(s, TSE) == [];
    assert Registered([], TSE) == {};
    assert TILL in s.tills && ClientOf(TILL) in s.wrappers[TSE].device.open.Keys;
  }
}
