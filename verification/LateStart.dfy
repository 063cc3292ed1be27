/** A run of the signing protocol in which an order is signed under another transaction's number: the start of an
    order that was given up reaches the device between the start and the finish of the next order. */
module LateStart {

  import opened Wrappers
  import opened SignatureTable
  import opened Signing
  import opened SigningSafety
  import opened SmallWorld
  import D = VirtualTse

  function Device(number: int, counter: int, open: set<int>): D.Tse { D.Tse(0, number, counter, WithTill(open)) }

  function FinishOfFirst(): D.Command
  {
    D.FinishTransaction(Some(Client()), D.Decoded(D.PASSWORD), Some(1), Some(""), Some(""))
  }

  function SignedWrong(): D.SignedFields { D.SignedFields(Client(), "", "", 2, 3, 0) }

  // ---- the device --------------------------------------------------------------------

  function StartReply(n: int): D.Reply { D.Started(n, n, D.Stamp(0, D.START_OFFSET)) }

  function LastReply(): D.Reply { D.Finished(3, D.Stamp(0, D.FINISH_OFFSET), SignedWrong()) }

  lemma DeviceStarts(n: nat, open: set<int>)
    requires |open| <= 1 && forall t :: t in open ==> 1 <= t <= n
    ensures D.Act(Device(n, n, open), StartOfTill(), 0) == (Device(n + 1, n + 1, open + {n + 1}), StartReply(n + 1))
  {
    hide D.OpenNumbers, D.Disjoint, Client, ClientOf, D.Act, WithTill;
    WithTillInv(n, n, open);
    WithOneMore(open, n + 1);
    TransactionStarts(Device(n, n, open), Client());
  }

  lemma TransactionStarts(d: D.Tse, client: string)
    requires d.blockCounter == 0 && client in d.open && |d.AllOpen()| <= 512
    ensures D.Act(d, D.StartTransaction(Some(client), D.Decoded(D.PASSWORD)), 0)
            == (D.Tse(0, d.transnr + 1, d.signctr + 1, d.open[client := d.open[client] + {d.transnr + 1}]),
                D.Started(d.transnr + 1, d.signctr + 1, D.Stamp(0, D.START_OFFSET)))
  {
    hide D.OpenNumbers, D.Disjoint;
  }

  lemma WithOneMore(open: set<int>, n: int)
    ensures Client() in WithTill(open) && WithTill(open)[Client()] == open
    ensures WithTill(open)[Client() := open + {n}] == WithTill(open + {n})
  {
    ClientIsOther();
    hide Client;
  }

  lemma DeviceFinishes()
    ensures D.Act(Device(2, 2, {1, 2}), FinishOfFirst(), 0) == (Device(2, 3, {2}), LastReply())
  {
    ClientIsOther();
    hide Client;
    var d := Device(2, 2, {1, 2});
    assert {1, 2} - {1} == {2};
    assert d.open[Client() := d.open[Client()] - {1}] == WithTill({2});
  }

  // ---- the first order ---------------------------------------------------------------

  function Db2(first: Status, second: Status, completed: seq<OrderId>): Db
  {
    Db(map[1 := Booked(first), 2 := Booked(second)], Some(TSE), [], completed)
  }

  function Idle1(): Wrapper { ToldWrapper(Fresh(Device(0, 0, {}))).(phase := Idle) }

  /** The first order was given up, and its connection lost with the start on its way. */
  function GivenUp(): Wrapper { Idle1().(phase := Disconnected, nextId := 2, adrift := [Request(1, StartOfTill())]) }

  lemma TwoOrders() returns (states: seq<State>, steps: seq<Step>)
    ensures EndsIn(states, steps, World(Db2(New, New, []), Idle1()))
  {
    ClientIsOther();
    WithTillInv(0, 0, {});
    var db, one := Empty(Some(TSE)), Empty(Some(TSE)).(orders := map[][1 := Booked(New)]);
    Books(db, Idle1(), 1);
    Books(one, Idle1(), 2);
    assert one.(orders := one.orders[2 := Booked(New)]) == Db2(New, New, []);
    states, steps := Starts(Some(TSE), Device(0, 0, {}));
    states, steps := ConnectsReady(states, steps, db, Fresh(Device(0, 0, {})), {});
    hide Apply, Enabled, EndsIn, World, Idle1, Db2;
    states, steps := Then(states, steps, World(db, Idle1()), Book(1, TILL, 0, "", ""));
    states, steps := Then(states, steps, World(one, Idle1()), Book(2, TILL, 0, "", ""));
  }

  /** The wrapper with the start of an order sent. */
  function BegunWith(x: Wrapper, o: OrderId): Wrapper
  {
    x.(phase := Starting(o, x.nextId), nextId := x.nextId + 1, toDevice := [Request(x.nextId, StartOfTill())])
  }

  lemma Begin(states: seq<State>, steps: seq<Step>, db: Db, x: Wrapper, o: OrderId)
      returns (states': seq<State>, steps': seq<Step>)
    requires EndsIn(states, steps, World(db, x)) && x.phase.Idle? && x.toDevice == [] && Client() in x.tills
    requires db.owner == Some(TSE) && o in db.orders && db.orders[o] == Booked(New)
    requires forall p :: p in db.orders && p != o ==> db.orders[p].status != Pending && (p < o ==> db.orders[p].status != New)
    ensures EndsIn(states', steps', World(db.(orders := db.orders[o := Booked(Pending)]), BegunWith(x, o)))
  {
    var grabbed := db.(orders := db.orders[o := Booked(Pending)]);
    Grabs(db, x, o);
    Begins(grabbed, x.(phase := Grabbed(o)), o);
    assert [] + [Request(x.nextId, StartOfTill())] == [Request(x.nextId, StartOfTill())];
    hide Apply, Enabled, EndsIn, World, StartOfTill;
    states', steps' := Then(states, steps, World(db, x), Grab(TSE, o));
    states', steps' := Then(states', steps', World(grabbed, x.(phase := Grabbed(o))), BeginSign(TSE));
  }

  lemma FirstBegun() returns (states: seq<State>, steps: seq<Step>)
    ensures EndsIn(states, steps, World(Db2(Pending, New, []), BegunWith(Idle1(), 1)))
  {
    Shown({});
    states, steps := TwoOrders();
    assert Db2(New, New, []).(orders := Db2(New, New, []).orders[1 := Booked(Pending)]) == Db2(Pending, New, []);
    hide EndsIn, World;
    states, steps := Begin(states, steps, Db2(New, New, []), Idle1(), 1);
  }

  lemma FirstOrder() returns (states: seq<State>, steps: seq<Step>)
    ensures EndsIn(states, steps, World(Db2(Failure, New, [1]), GivenUp()))
  {
    var db, begun := Db2(Pending, New, []), BegunWith(Idle1(), 1);
    assert [] + [Request(1, StartOfTill())] == [Request(1, StartOfTill())];
    assert Disconnect(begun.(phase := Idle)) == GivenUp();
    assert Fail(db.orders, 1) == Db2(Failure, New, [1]).orders;
    hide Client, ClientOf, Visible, Fail;
    TimesOut(db, begun, 1, 1);
    Loses(Db2(Failure, New, [1]), begun.(phase := Idle));
    states, steps := FirstBegun();
    hide Apply, Enabled, EndsIn, World, Idle1, GivenUp, Disconnect;
    states, steps := Then(states, steps, World(db, begun), Timeout(TSE));
    states, steps := Then(states, steps, World(Db2(Failure, New, [1]), begun.(phase := Idle)), Lose(TSE));
  }

  // ---- the second order --------------------------------------------------------------

  function Idle2(): Wrapper { ToldWrapper(GivenUp()).(phase := Idle) }

  function Begun(): Wrapper { BegunWith(Idle2(), 2) }

  function Started(): Wrapper
  {
    Begun().(device := Device(1, 1, {1}), toDevice := [], toWrapper := [Answer(1, StartReply(1))],
             taken := Begun().taken + [Taken(false, StartOfTill(), StartReply(1))])
  }

  function Finishes(): Wrapper
  {
    Started().(phase := Finishing(2, 1, D.Stamp(0, D.START_OFFSET), 2), nextId := 3, toWrapper := [],
               toDevice := [Request(2, FinishOfFirst())])
  }

  function Disturbed(): Wrapper
  {
    Finishes().(device := Device(2, 2, {1, 2}), adrift := [],
                taken := Finishes().taken + [Taken(true, StartOfTill(), StartReply(2))])
  }

  function Finished(): Wrapper
  {
    Disturbed().(device := Device(2, 3, {2}), toDevice := [], toWrapper := [Answer(2, LastReply())],
                 taken := Disturbed().taken + [Taken(false, FinishOfFirst(), LastReply())])
  }

  function WrongSignature(): Signature
  {
    Signature(1, 3, D.Stamp(0, D.START_OFFSET), D.Stamp(0, D.FINISH_OFFSET), SignedWrong())
  }

  lemma SecondOrder() returns (states: seq<State>, steps: seq<Step>)
    ensures EndsIn(states, steps, World(Db2(Failure, Pending, [1]), Begun()))
  {
    ClientIsOther();
    var db := Db2(Failure, New, [1]);
    assert db.(orders := db.orders[2 := Booked(Pending)]) == Db2(Failure, Pending, [1]);
    states, steps := FirstOrder();
    states, steps := ConnectsReady(states, steps, db, GivenUp(), {});
    hide EndsIn, World;
    states, steps := Begin(states, steps, db, Idle2(), 2);
  }

  lemma DeviceTakesStart()
    ensures Begun().toDevice != [] && Deliver(Begun(), 0) == Started()
  {
    hide Client, D.Act;
    DeviceStarts(0, {});
    assert {} + {1} == {1};
    assert [] + [Answer(1, StartReply(1))] == [Answer(1, StartReply(1))];
  }

  lemma StartIsAnswered(row: Row)
    requires row.till == TILL && row.processType == "" && row.processData == ""
    ensures React(Started().(toWrapper := []), row, StartReply(1), D.PASSWORD) == (Finishes(), None)
  {
    assert [] + [Request(2, FinishOfFirst())] == [Request(2, FinishOfFirst())];
  }

  lemma LateStartIsTaken()
    ensures |Finishes().adrift| == 1 && DeliverLate(Finishes(), 0, 0) == Disturbed()
  {
    hide Client, D.Act;
    DeviceStarts(1, {1});
    assert {1} + {2} == {1, 2};
  }

  lemma DeviceTakesFinish()
    ensures Disturbed().toDevice != [] && Deliver(Disturbed(), 0) == Finished()
  {
    hide Client, D.Act;
    DeviceFinishes();
    assert [] + [Answer(2, LastReply())] == [Answer(2, LastReply())];
  }

  lemma FinishIsAnswered(row: Row)
    ensures React(Finished().(toWrapper := []), row, LastReply(), D.PASSWORD).1 == Some(WrongSignature())
  {
    hide Client;
  }

  lemma StartHeard(db: Db)
    requires 2 in db.orders && db.orders[2] == Booked(Pending)
    ensures Enabled(World(db, Begun()), DeviceStep(TSE, 0))
    ensures Apply(World(db, Begun()), DeviceStep(TSE, 0)) == World(db, Started())
    ensures Enabled(World(db, Started()), Receive(TSE))
    ensures Apply(World(db, Started()), Receive(TSE)) == World(db, Finishes())
  {
    assert Started().toWrapper == [Answer(1, StartReply(1))] && Started().phase == Starting(2, 1);
    DeviceTakesStart();
    Takes(db, Begun());
    HearsOfOrder(db, Started());
    assert Started().toWrapper[1..] == [];
    hide World, Apply, Enabled, React, Started, Finishes, Begun;
    StartIsAnswered(db.orders[2]);
  }

  lemma FinishDisturbed(db: Db)
    requires 2 in db.orders && db.orders[2] == Booked(Pending)
    ensures Enabled(World(db, Finishes()), Late(TSE, 0, 0))
    ensures Apply(World(db, Finishes()), Late(TSE, 0, 0)) == World(db, Disturbed())
    ensures Enabled(World(db, Disturbed()), DeviceStep(TSE, 0))
    ensures Apply(World(db, Disturbed()), DeviceStep(TSE, 0)) == World(db, Finished())
  {
    LateStartIsTaken();
    DeviceTakesFinish();
    hide Deliver, DeliverLate, Disturbed, Finished;
    TakesLate(db, Finishes());
    Takes(db, Disturbed());
  }

  lemma FinishHeard(db: Db)
    requires 2 in db.orders && db.orders[2] == Booked(Pending)
    ensures Enabled(World(db, Finished()), Receive(TSE))
    ensures Apply(World(db, Finished()), Receive(TSE)).orders == Complete(db.orders, 2, WrongSignature())
  {
    assert Finished().toWrapper == [Answer(2, LastReply())] && Finished().phase.Finishing? && Finished().phase.id == 2;
    HearsOfOrder(db, Finished());
    assert Finished().toWrapper[1..] == [] && Finished().phase.order == 2;
    FinishIsAnswered(db.orders[2]);
    hide Apply, Enabled, React, Finished, Complete;
  }

  /** The second order is done: the device signed number 2, and the row says number 1. */
  lemma WrongNumberSigned() returns (states: seq<State>, steps: seq<Step>)
    ensures Behavior(states, steps)
    ensures var orders := states[|steps|].orders;
            && 2 in orders && orders[2].status == Done && orders[2].signature.Some?
            && orders[2].signature.value.number == 1 && orders[2].signature.value.signed.number == 2
  {
    var db := Db2(Failure, Pending, [1]);
    StartHeard(db);
    FinishDisturbed(db);
    FinishHeard(db);
    states, steps := SecondOrder();
    hide Apply, Enabled, World, Client, StartOfTill, FinishOfFirst, Behavior, Begun, Started, Finishes, Disturbed, Finished;
    states, steps := Then(states, steps, World(db, Begun()), DeviceStep(TSE, 0));
    states, steps := Then(states, steps, World(db, Started()), Receive(TSE));
    states, steps := Then(states, steps, World(db, Finishes()), Late(TSE, 0, 0));
    states, steps := Then(states, steps, World(db, Disturbed()), DeviceStep(TSE, 0));
    states, steps := Then(states, steps, World(db, Finished()), Receive(TSE));
  }
}
