/** The security device: a counter and transaction machine behind a password. */
module VirtualTse {

  import opened Wrappers
  import Text

  const MAGIC_PRODUCTION_CLIENT := "DN TSEProduction ef82abcedf"
  const DUMMY_CLIENT := "DummyDefaultClientId"
  const PASSWORD := "12345"

  const START_OFFSET := 7200   // log times of a start are written at UTC+2,
  const FINISH_OFFSET := 3600  // all others at UTC+1

  /** The Password member of a command: absent, not decodable, or decoded. */
  datatype Password = Absent | NotBase64 | Decoded(text: string)

  datatype Command =
    | StartTransaction(clientId: Option<string>, password: Password)
    | UpdateTransaction(clientId: Option<string>, password: Password, number: Option<int>, unsigned: bool)
    | FinishTransaction(clientId: Option<string>, password: Password, number: Option<int>,
                        typ: Option<string>, data: Option<string>)
    | RegisterClientId(clientId: Option<string>, password: Password)
    | DeregisterClientId(clientId: Option<string>, password: Password)
    | GetDeviceStatus(password: Password)
    | PingPong

  /** A log time: an instant in seconds and the offset it is written at. */
  datatype Stamp = Stamp(instant: int, offset: int)

  /** What the device feeds into the signed message of a finish. */
  datatype SignedFields = SignedFields(clientId: string, processData: string, processType: string,
                                       number: int, counter: int, logTime: int)

  datatype Reply =
    | Error(code: int)
    | Success
    | Started(number: int, counter: int, logTime: Stamp)
    | Updated(counter: int, logTime: Stamp)
    | Finished(counter: int, logTime: Stamp, signed: SignedFields)
    | Status(clients: Option<set<string>>)

  function OpenNumbers(open: map<string, set<int>>): set<int>
  {
    set c, t | c in open && t in open[c] :: t
  }

  /** No transaction is open for two clients. */
  ghost predicate Disjoint(open: map<string, set<int>>)
  {
    forall c, d, t :: c in open && d in open && t in open[c] && t in open[d] ==> c == d
  }

  /** The device state; open[c] holds the open transaction numbers of client c. */
  datatype Tse = Tse(blockCounter: int, transnr: int, signctr: int, open: map<string, set<int>>)
  {
    function AllOpen(): set<int> { OpenNumbers(open) }

    /** Transaction numbers were issued, no two clients share one, and the bounds the guards enforce. */
    ghost predicate Inv()
    {
      && 0 <= transnr && 0 <= signctr
      && (forall t :: t in AllOpen() ==> 1 <= t <= transnr)
      && Disjoint(open)
      && |open| <= 101
      && |AllOpen()| <= 513
    }
  }

  function Initial(): Tse
  {
    Tse(0, 0, 0, map[MAGIC_PRODUCTION_CLIENT := {}, DUMMY_CLIENT := {}, "POS001" := {}])
  }

  /** The password check shared by all commands; None means accepted. */
  function Authenticate(s: Tse, password: Password): (Tse, Option<int>)
  {
    if s.blockCounter >= 3 then (s, Some(32))
    else match password
      case Decoded(text) =>
        if text != PASSWORD then (s.(blockCounter := s.blockCounter + 1), Some(30)) else (s, None)
      case _ => (s, Some(9))
  }

  // the characters registration accepts; ',-.' is a range in the source's pattern
  predicate ClientChar(c: char)
  {
    'a' <= c <= 'z' || 'A' <= c <= 'Z' || '0' <= c <= '9' || c in "()+" || ',' <= c <= '.' || c in ":? "
  }

  /** The pattern's '$' also lets one trailing newline through. */
  predicate ClientIdMatches(id: string)
  {
    var body := if |id| > 0 && id[|id| - 1] == '\n' then id[..|id| - 1] else id;
    forall i :: 0 <= i < |body| ==> ClientChar(body[i])
  }

  function Start(s: Tse, clientId: string, now: int): (Tse, Reply)
  {
    var s := s.(blockCounter := 0);
    if clientId !in s.open then (s, Error(19))
    else if |s.AllOpen()| > 512 then (s, Error(21))
    else
      var n := s.transnr + 1;
      (Tse(0, n, s.signctr + 1, s.open[clientId := s.open[clientId] + {n}]),
       Started(n, s.signctr + 1, Stamp(now, START_OFFSET)))
  }

  function Update(s: Tse, clientId: string, number: int, unsigned: bool, now: int): (Tse, Reply)
  {
    if clientId !in s.open then (s, Error(19))
    else if number !in s.open[clientId] then (s.(blockCounter := 0), Error(5017))
    else if unsigned then (s.(blockCounter := 0), Success)
    else (s.(blockCounter := 0, signctr := s.signctr + 1), Updated(s.signctr + 1, Stamp(now, FINISH_OFFSET)))
  }

  /** The signed message carries the latest transaction number issued, not the one being finished. */
  function Finish(s: Tse, clientId: string, number: int, typ: Option<string>, data: Option<string>, now: int)
    : (Tse, Reply)
  {
    if clientId !in s.open then (s, Error(19))
    else if number !in s.open[clientId] then (s.(blockCounter := 0), Error(5017))
    else
      var s1 := Tse(0, s.transnr, s.signctr + 1, s.open[clientId := s.open[clientId] - {number}]);
      var signed := SignedFields(clientId, if data.Some? then data.value else "",
                                 if typ.Some? then typ.value else "", s.transnr, s1.signctr, now);
      (s1, Finished(s1.signctr, Stamp(now, FINISH_OFFSET), signed))
  }

  function Register(s: Tse, clientId: string): (Tse, Reply)
  {
    if |clientId| > 30 || !ClientIdMatches(clientId) then (s, Error(4))
    else if |s.open| > 100 then (s, Error(21))
    else if clientId in s.open then (s, Error(1337))
    else (s.(open := s.open[clientId := {}], blockCounter := 0), Success)
  }

  function Deregister(s: Tse, clientId: string): (Tse, Reply)
  {
    if |clientId| > 30 then (s, Error(4))
    else if clientId == MAGIC_PRODUCTION_CLIENT then (s, Error(1337))
    else if clientId !in s.open then (s, Error(5))
    else if s.open[clientId] != {} then (s, Error(24))
    else (s.(open := s.open - {clientId}, blockCounter := 0), Success)
  }

  /** Commands that check their parameters before the password. */
  predicate Complete(command: Command)
  {
    match command
    case StartTransaction(c, pw) => c.Some? && !pw.Absent?
    case UpdateTransaction(c, pw, n, _) => c.Some? && !pw.Absent? && n.Some?
    case FinishTransaction(c, pw, n, _, _) => c.Some? && !pw.Absent? && n.Some?
    case RegisterClientId(c, pw) => c.Some? && !pw.Absent?
    case DeregisterClientId(c, pw) => c.Some? && !pw.Absent?
    case _ => true
  }

  function Execute(s: Tse, command: Command, now: int): (Tse, Reply)
    requires Complete(command)
  {
    match command
    case StartTransaction(c, _) => Start(s, c.value, now)
    case UpdateTransaction(c, _, n, unsigned) => Update(s, c.value, n.value, unsigned, now)
    case FinishTransaction(c, _, n, typ, data) => Finish(s, c.value, n.value, typ, data, now)
    case RegisterClientId(c, _) => Register(s, c.value)
    case DeregisterClientId(c, _) => Deregister(s, c.value)
    case GetDeviceStatus(_) => (s, Status(Some(s.open.Keys)))
    case PingPong => (s, Success)
  }

  /** The device's reaction to one command at time `now`. */
  function Act(s: Tse, command: Command, now: int): (Tse, Reply)
  {
    if !Complete(command) then (s, Error(3))
    else if command.PingPong? then (s, Success)
    else if command.GetDeviceStatus? && command.password.Absent? then (s, Status(None))
    else
      var (s1, refused) := Authenticate(s, command.password);
      if refused.Some? then (s1, Error(refused.value)) else Execute(s1, command, now)
  }

  // ---- the device as the source writes it: fields updated in place -------------------

  class VirtualTSE {
    var passwordBlockCounter: int
    var transnr: int
    var signctr: int
    var currentTransactions: map<string, set<int>>

    function View(): Tse
      reads this
    {
      Tse(passwordBlockCounter, transnr, signctr, currentTransactions)
    }

    constructor ()
      ensures View() == Initial() && View().Inv()
    {
      passwordBlockCounter, transnr, signctr := 0, 0, 0;
      currentTransactions := map[MAGIC_PRODUCTION_CLIENT := {}, DUMMY_CLIENT := {}, "POS001" := {}];
      new;
      InitialInv();
    }

    /** Summing the sizes of the clients' sets counts the open transactions, because the sets are disjoint. */
    method CountOpen() returns (count: nat)
      requires View().Inv()
      ensures count == |View().AllOpen()|
    {
      count := 0;
      var todo := currentTransactions.Keys;
      ghost var counted: map<string, set<int>> := map[];
      while todo != {}
        invariant todo <= currentTransactions.Keys
        invariant counted.Keys == currentTransactions.Keys - todo
        invariant forall c :: c in counted ==> counted[c] == currentTransactions[c]
        invariant count == |OpenNumbers(counted)|
        decreases |todo|
      {
        var c :| c in todo;
        OpenAfterInsert(counted, c, currentTransactions[c]);
        assert OpenNumbers(counted) !! currentTransactions[c];
        count := count + |currentTransactions[c]|;
        counted := counted[c := currentTransactions[c]];
        todo := todo - {c};
      }
      assert counted == currentTransactions;
    }

    method CheckPassword(password: Password) returns (refused: Option<int>)
      modifies this`passwordBlockCounter
      ensures (View(), refused) == Authenticate(old(View()), password)
    {
      if passwordBlockCounter >= 3 {
        return Some(32);
      }
      match password {
        case Decoded(text) =>
          if text != PASSWORD {
            passwordBlockCounter := passwordBlockCounter + 1;
            return Some(30);
          }
          return None;
        case _ => return Some(9);
      }
    }

    method StartTrans(clientId: Option<string>, password: Password, now: int) returns (reply: Reply)
      requires View().Inv()
      modifies this
      ensures (View(), reply) == Act(old(View()), StartTransaction(clientId, password), now)
    {
      if clientId.None? || password.Absent? {
        return Error(3);
      }
      var refused := CheckPassword(password);
      if refused.Some? {
        return Error(refused.value);
      }
      passwordBlockCounter := 0;
      if clientId.value !in currentTransactions {
        return Error(19);
      }
      var numberOfOpenTransactions := CountOpen();
      assert View().AllOpen() == old(View().AllOpen());
      if numberOfOpenTransactions > 512 {
        return Error(21);
      }
      signctr := signctr + 1;
      transnr := transnr + 1;
      currentTransactions := currentTransactions[clientId.value := currentTransactions[clientId.value] + {transnr}];
      return Started(transnr, signctr, Stamp(now, START_OFFSET));
    }

    method FinishTrans(clientId: Option<string>, password: Password, number: Option<int>,
                       typ: Option<string>, data: Option<string>, now: int) returns (reply: Reply)
      modifies this
      ensures (View(), reply) == Act(old(View()), FinishTransaction(clientId, password, number, typ, data), now)
    {
      if clientId.None? || password.Absent? || number.None? {
        return Error(3);
      }
      var refused := CheckPassword(password);
      if refused.Some? {
        return Error(refused.value);
      }
      if clientId.value !in currentTransactions {
        return Error(19);
      }
      passwordBlockCounter := 0;
      if number.value !in currentTransactions[clientId.value] {
        return Error(5017);
      }
      currentTransactions :=
        currentTransactions[clientId.value := currentTransactions[clientId.value] - {number.value}];
      signctr := signctr + 1;
      return Finished(signctr, Stamp(now, FINISH_OFFSET),
                      SignedFields(clientId.value, if data.Some? then data.value else "",
                                   if typ.Some? then typ.value else "", transnr, signctr, now));
    }

    method UpdateTrans(clientId: Option<string>, password: Password, number: Option<int>, unsigned: bool, now: int)
      returns (reply: Reply)
      modifies this
      ensures (View(), reply) == Act(old(View()), UpdateTransaction(clientId, password, number, unsigned), now)
    {
      if clientId.None? || password.Absent? || number.None? {
        return Error(3);
      }
      var refused := CheckPassword(password);
      if refused.Some? {
        return Error(refused.value);
      }
      if clientId.value !in currentTransactions {
        return Error(19);
      }
      passwordBlockCounter := 0;
      if number.value !in currentTransactions[clientId.value] {
        return Error(5017);
      }
      if unsigned {
        return Success;
      }
      signctr := signctr + 1;
      return Updated(signctr, Stamp(now, FINISH_OFFSET));
    }

    method RegisterClientID(clientId: Option<string>, password: Password) returns (reply: Reply)
      modifies this
      ensures forall now :: (View(), reply) == Act(old(View()), Command.RegisterClientId(clientId, password), now)
    {
      if clientId.None? || password.Absent? {
        return Error(3);
      }
      var refused := CheckPassword(password);
      if refused.Some? {
        return Error(refused.value);
      }
      if |clientId.value| > 30 || !ClientIdMatches(clientId.value) {
        return Error(4);
      }
      if |currentTransactions| > 100 {
        return Error(21);
      }
      if clientId.value in currentTransactions {
        return Error(1337);
      }
      currentTransactions := currentTransactions[clientId.value := {}];
      passwordBlockCounter := 0;
      return Success;
    }

    method DeregisterClientID(clientId: Option<string>, password: Password) returns (reply: Reply)
      modifies this
      ensures forall now :: (View(), reply) == Act(old(View()), Command.DeregisterClientId(clientId, password), now)
    {
      if clientId.None? || password.Absent? {
        return Error(3);
      }
      var refused := CheckPassword(password);
      if refused.Some? {
        return Error(refused.value);
      }
      if |clientId.value| > 30 {
        return Error(4);
      }
      if clientId.value == MAGIC_PRODUCTION_CLIENT {
        return Error(1337);
      }
      if clientId.value !in currentTransactions {
        return Error(5);
      }
      if currentTransactions[clientId.value] != {} {
        return Error(24);
      }
      currentTransactions := currentTransactions - {clientId.value};
      passwordBlockCounter := 0;
      return Success;
    }

    method ActOnCommand(command: Command, now: int) returns (reply: Reply)
      requires View().Inv()
      modifies this
      ensures (View(), reply) == Act(old(View()), command, now)
      ensures View().Inv()
    {
      ActKeeps(View(), command, now);
      match command {
        case StartTransaction(c, pw) => reply := StartTrans(c, pw, now);
        case UpdateTransaction(c, pw, n, unsigned) => reply := UpdateTrans(c, pw, n, unsigned, now);
        case FinishTransaction(c, pw, n, typ, data) => reply := FinishTrans(c, pw, n, typ, data, now);
        case RegisterClientId(c, pw) => reply := RegisterClientID(c, pw);
        case DeregisterClientId(c, pw) => reply := DeregisterClientID(c, pw);
        case GetDeviceStatus(pw) =>
          if pw.Absent? {
            return Status(None);
          }
          var refused := CheckPassword(pw);
          if refused.Some? {
            return Error(refused.value);
          }
          reply := Status(Some(currentTransactions.Keys));
        case PingPong => reply := Success;
      }
    }
  }

  // ---- what every command keeps ------------------------------------------------------

  lemma InitialInv()
    ensures Initial().Inv() && Initial().AllOpen() == {}
  {
    assert |Initial().open.Keys| <= 3 by {
      assert Initial().open.Keys == {MAGIC_PRODUCTION_CLIENT, DUMMY_CLIENT, "POS001"};
    }
  }

  lemma OpenAfterInsert(open: map<string, set<int>>, clientId: string, numbers: set<int>)
    requires clientId !in open
    ensures OpenNumbers(open[clientId := numbers]) == OpenNumbers(open) + numbers
  {
    var open' := open[clientId := numbers];
    forall x | x in OpenNumbers(open) + numbers ensures x in OpenNumbers(open') {
      if x in numbers {
        assert x in open'[clientId];
      } else {
        var c :| c in open && x in open[c];
        assert x in open'[c];
      }
    }
  }

  lemma OpenAfterAdd(open: map<string, set<int>>, clientId: string, number: int)
    requires clientId in open
    ensures OpenNumbers(open[clientId := open[clientId] + {number}]) == OpenNumbers(open) + {number}
  {
    var open' := open[clientId := open[clientId] + {number}];
    assert number in open'[clientId];
    forall x | x in OpenNumbers(open) ensures x in OpenNumbers(open') {
      var c :| c in open && x in open[c];
      assert x in open'[c];
    }
  }

  lemma OpenAfterRemove(open: map<string, set<int>>, clientId: string, number: int)
    requires clientId in open && number in open[clientId]
    requires Disjoint(open)
    ensures OpenNumbers(open[clientId := open[clientId] - {number}]) == OpenNumbers(open) - {number}
    ensures number in OpenNumbers(open)
  {
    var open' := open[clientId := open[clientId] - {number}];
    forall x | x in OpenNumbers(open) - {number} ensures x in OpenNumbers(open') {
      var c :| c in open && x in open[c];
      assert x in open'[c];
    }
  }

  /** Adding or dropping a client without open transactions leaves the open numbers alone. */
  lemma OpenAfterClientChange(open: map<string, set<int>>, open': map<string, set<int>>, clientId: string)
    requires open' - {clientId} == open - {clientId}
    requires clientId in open ==> open[clientId] == {}
    requires clientId in open' ==> open'[clientId] == {}
    ensures OpenNumbers(open') == OpenNumbers(open)
  {
    forall x | x in OpenNumbers(open) ensures x in OpenNumbers(open') {
      var c :| c in open && x in open[c];
      assert c in (open - {clientId}) && x in (open' - {clientId})[c];
    }
    forall x | x in OpenNumbers(open') ensures x in OpenNumbers(open) {
      var c :| c in open' && x in open'[c];
      assert c in (open' - {clientId}) && x in (open - {clientId})[c];
    }
  }

  ghost predicate Signs(reply: Reply) { reply.Started? || reply.Updated? || reply.Finished? }

  /** The number a finish command names, if it names one. */
  function Named(command: Command): Option<int> { if command.FinishTransaction? then command.number else None }

  /** The open transactions after a reply to a command naming `named`. */
  function StillOpen(open: set<int>, named: Option<int>, reply: Reply): set<int>
  {
    if reply.Started? then open + {reply.number}
    else if reply.Finished? && named.Some? then open - {named.value}
    else open
  }

  /** One command's effect on the books: which number becomes open, which is closed, how the
      counters move, and that a client holding an open transaction stays registered. */
  ghost predicate Books(s: Tse, named: Option<int>, t: Tse, reply: Reply)
  {
    && t.AllOpen() == StillOpen(s.AllOpen(), named, reply)
    && (reply.Started? ==> reply.number == t.transnr)
    && (reply.Finished? ==> named.Some? && named.value in s.AllOpen())
    && t.transnr == s.transnr + (if reply.Started? then 1 else 0)
    && t.signctr == s.signctr + (if Signs(reply) then 1 else 0)
    && (Signs(reply) ==> reply.counter == t.signctr)
    && (forall c :: c in s.open && s.open[c] != {} ==> c in t.open)
  }

  lemma StartKeepsDisjoint(open: map<string, set<int>>, clientId: string, n: int)
    requires Disjoint(open) && clientId in open && n !in OpenNumbers(open)
    ensures Disjoint(open[clientId := open[clientId] + {n}])
  {
    var open' := open[clientId := open[clientId] + {n}];
    forall c, d, x | c in open' && d in open' && x in open'[c] && x in open'[d] ensures c == d {
      assert x != n ==> x in open[c] && x in open[d];
      assert c != clientId ==> x in OpenNumbers(open);
      assert d != clientId ==> x in OpenNumbers(open);
    }
  }

  lemma StartKeepsBounds(s: Tse, clientId: string, now: int)
    requires s.Inv() && clientId in s.open && |s.AllOpen()| <= 512
    ensures var (t, reply) := Start(s, clientId, now);
            && t.AllOpen() == s.AllOpen() + {t.transnr} && |t.AllOpen()| <= 513
            && (forall n :: n in t.AllOpen() ==> 1 <= n <= t.transnr)
  {
    OpenAfterAdd(s.open, clientId, s.transnr + 1);
    assert |s.AllOpen() + {s.transnr + 1}| <= |s.AllOpen()| + 1;
  }

  lemma StartKeepsClients(s: Tse, clientId: string, now: int)
    requires s.Inv() && clientId in s.open && |s.AllOpen()| <= 512
    ensures var (t, reply) := Start(s, clientId, now);
            Disjoint(t.open) && |t.open| <= 101 && t.open.Keys == s.open.Keys
  {
    var t := Start(s, clientId, now).0;
    StartKeepsDisjoint(s.open, clientId, s.transnr + 1);
    assert t.open.Keys == s.open.Keys;
    assert |t.open| == |t.open.Keys| == |s.open|;
  }

  lemma StartKeeps(s: Tse, clientId: string, now: int)
    requires s.Inv()
    ensures var (t, reply) := Start(s, clientId, now); t.Inv() && Books(s, None, t, reply)
  {
    if clientId in s.open && |s.AllOpen()| <= 512 {
      StartKeepsBounds(s, clientId, now);
      StartKeepsClients(s, clientId, now);
    }
  }

  lemma FinishKeeps(s: Tse, clientId: string, number: int, typ: Option<string>, data: Option<string>, now: int)
    requires s.Inv()
    ensures var (t, reply) := Finish(s, clientId, number, typ, data, now);
            t.Inv() && Books(s, Some(number), t, reply)
  {
    var (t, reply) := Finish(s, clientId, number, typ, data, now);
    if reply.Finished? {
      OpenAfterRemove(s.open, clientId, number);
      assert t.open.Keys == s.open.Keys;
      assert |t.open| == |t.open.Keys| == |s.open|;
      assert |t.AllOpen()| <= |s.AllOpen()|;
    }
  }

  lemma RegisterKeeps(s: Tse, clientId: string)
    requires s.Inv()
    ensures var (t, reply) := Register(s, clientId); t.Inv() && Books(s, None, t, reply)
  {
    var (t, reply) := Register(s, clientId);
    if reply.Success? {
      OpenAfterClientChange(s.open, t.open, clientId);
      assert t.open.Keys == s.open.Keys + {clientId};
    }
  }

  lemma DeregisterKeeps(s: Tse, clientId: string)
    requires s.Inv()
    ensures var (t, reply) := Deregister(s, clientId); t.Inv() && Books(s, None, t, reply)
  {
    hide OpenNumbers;
    var (t, reply) := Deregister(s, clientId);
    if reply.Success? {
      OpenAfterClientChange(s.open, t.open, clientId);
      assert t.open.Keys == s.open.Keys - {clientId};
    }
  }

  lemma UpdateKeeps(s: Tse, clientId: string, number: int, unsigned: bool, now: int)
    requires s.Inv()
    ensures var (t, reply) := Update(s, clientId, number, unsigned, now); t.Inv() && Books(s, None, t, reply)
  {
    var t := Update(s, clientId, number, unsigned, now).0;
    assert t.open == s.open;
  }

  lemma ExecuteKeeps(s: Tse, command: Command, now: int)
    requires s.Inv() && Complete(command)
    ensures var (t, reply) := Execute(s, command, now);
            && t.Inv() && Books(s, Named(command), t, reply)
            && (reply.Started? ==> command.StartTransaction?) && (reply.Finished? ==> command.FinishTransaction?)
  {
    hide OpenNumbers, Disjoint;
    match command {
      case StartTransaction(c, _) => StartKeeps(s, c.value, now);
      case UpdateTransaction(c, _, n, unsigned) => UpdateKeeps(s, c.value, n.value, unsigned, now);
      case FinishTransaction(c, _, n, typ, data) => FinishKeeps(s, c.value, n.value, typ, data, now);
      case RegisterClientId(c, _) => RegisterKeeps(s, c.value);
      case DeregisterClientId(c, _) => DeregisterKeeps(s, c.value);
      case _ =>
    }
  }

  /** Every command, accepted or refused, keeps the device's invariant and its books. */
  lemma ActKeeps(s: Tse, command: Command, now: int)
    requires s.Inv()
    ensures var (t, reply) := Act(s, command, now);
            && t.Inv() && Books(s, Named(command), t, reply)
            && (reply.Started? ==> command.StartTransaction?) && (reply.Finished? ==> command.FinishTransaction?)
  {
    hide OpenNumbers, Disjoint, Execute, Books;
    if !Complete(command) || command.PingPong? || (command.GetDeviceStatus? && command.password.Absent?) {
      QuietBooks(s, s, Named(command), Act(s, command, now).1);
    } else {
      var (s1, refused) := Authenticate(s, command.password);
      if refused.Some? {
        QuietBooks(s, s1, Named(command), Error(refused.value));
      } else {
        ExecuteKeeps(s1, command, now);
      }
    }
  }

  /** An answer without a signature that changes no more than the count of wrong passwords. */
  lemma QuietBooks(s: Tse, t: Tse, named: Option<int>, reply: Reply)
    requires s.Inv() && t == s.(blockCounter := t.blockCounter) && !Signs(reply)
    ensures t.Inv() && Books(s, named, t, reply)
  {
    hide OpenNumbers, Disjoint;
  }

  /** Only a deregistration can drop a client, and never one with open transactions. */
  lemma ActKeepsClients(s: Tse, command: Command, now: int)
    requires !command.DeregisterClientId?
    ensures s.open.Keys <= Act(s, command, now).0.open.Keys
  {
  }

  /** The clients change with exactly the commands that are confirmed: a registration of a client that was not
      there and a deregistration of one that was. */
  lemma ActOnClients(s: Tse, command: Command, now: int)
    ensures var (t, reply) := Act(s, command, now);
            if command.RegisterClientId? && reply.Success? then
              command.clientId.Some? && command.clientId.value !in s.open && t.open.Keys == s.open.Keys + {command.clientId.value}
            else if command.DeregisterClientId? && reply.Success? then
              command.clientId.Some? && command.clientId.value in s.open && t.open.Keys == s.open.Keys - {command.clientId.value}
            else t.open.Keys == s.open.Keys
  {
  }

  lemma RegisterOutcome(s: Tse, clientId: string, password: Password, now: int)
    requires s.Inv()
    ensures var (t, reply) := Act(s, RegisterClientId(Some(clientId), password), now);
            && t.Inv() && t.transnr == s.transnr && t.signctr == s.signctr
            && t.open.Keys == (if reply.Success? then s.open.Keys + {clientId} else s.open.Keys)
            && (reply.Success? ==> clientId !in s.open)
  {
    RegistersOnly(s, clientId, password, now);
    ActOnClients(s, RegisterClientId(Some(clientId), password), now);
    hide Act, OpenNumbers, Disjoint;
    ActKeeps(s, RegisterClientId(Some(clientId), password), now);
  }

  lemma RegistersOnly(s: Tse, clientId: string, password: Password, now: int)
    ensures var t := Act(s, RegisterClientId(Some(clientId), password), now).0;
            t.transnr == s.transnr && t.signctr == s.signctr
  {
    hide ClientIdMatches;
  }

  lemma DeregisterOutcome(s: Tse, clientId: string, password: Password, now: int)
    requires s.Inv()
    ensures var (t, reply) := Act(s, DeregisterClientId(Some(clientId), password), now);
            && t.Inv() && t.transnr == s.transnr && t.signctr == s.signctr
            && t.open.Keys == (if reply.Success? then s.open.Keys - {clientId} else s.open.Keys)
  {
    hide OpenNumbers, Disjoint;
    ActKeeps(s, DeregisterClientId(Some(clientId), password), now);
  }

  // ---- accounting over whole runs ----------------------------------------------------

  datatype Input = Input(command: Command, now: int)
  datatype Event = Event(command: Command, reply: Reply)

  /** The state after any sequence of commands from a fresh device, with the log of replies. */
  function Run(inputs: seq<Input>): (Tse, seq<Event>)
  {
    if inputs == [] then (Initial(), [])
    else
      var (s, log) := Run(inputs[..|inputs| - 1]);
      var last := inputs[|inputs| - 1];
      var (t, reply) := Act(s, last.command, last.now);
      (t, log + [Event(last.command, reply)])
  }

  function CountStarts(log: seq<Event>): nat
  {
    if log == [] then 0
    else CountStarts(log[..|log| - 1]) + (if log[|log| - 1].reply.Started? then 1 else 0)
  }

  ghost function CountSigned(log: seq<Event>): nat
  {
    if log == [] then 0
    else CountSigned(log[..|log| - 1]) + (if Signs(log[|log| - 1].reply) then 1 else 0)
  }

  /** The numbers a device that issued n transactions has handed out. */
  function Issued(n: nat): (numbers: set<int>)
    ensures forall k :: k in numbers <==> 1 <= k <= n
    ensures |numbers| == n
  {
    if n == 0 then {} else Issued(n - 1) + {n}
  }

  predicate Finishes(e: Event) { e.reply.Finished? && e.command.FinishTransaction? && e.command.number.Some? }

  function FinishedNumbers(log: seq<Event>): set<int>
  {
    if log == [] then {}
    else
      var before, e := FinishedNumbers(log[..|log| - 1]), log[|log| - 1];
      if Finishes(e) then before + {e.command.number.value} else before
  }

  ghost predicate Accounted(s: Tse, log: seq<Event>)
  {
    && s.Inv()
    && s.transnr == CountStarts(log)
    && s.signctr == CountSigned(log)
    // every number issued is open or finished, never both
    && s.AllOpen() !! FinishedNumbers(log)
    && (forall k :: 1 <= k <= s.transnr <==> k in s.AllOpen() || k in FinishedNumbers(log))
    // no transaction finishes twice
    && (forall i, j :: 0 <= i < j < |log| && Finishes(log[i]) && Finishes(log[j]) ==>
          log[i].command.number != log[j].command.number)
    // signature counters are handed out in order, without reuse
    && (forall i :: 0 <= i < |log| && Signs(log[i].reply) ==> 1 <= log[i].reply.counter <= s.signctr)
    && (forall i, j :: 0 <= i < j < |log| && Signs(log[i].reply) && Signs(log[j].reply) ==>
          log[i].reply.counter < log[j].reply.counter)
  }

  lemma AccountedStep(s: Tse, log: seq<Event>, command: Command, now: int)
    requires Accounted(s, log)
    ensures var (t, reply) := Act(s, command, now); Accounted(t, log + [Event(command, reply)])
  {
    var (t, reply) := Act(s, command, now);
    ActKeeps(s, command, now);
    FinishedStep(s.AllOpen(), s.transnr, log, Event(command, reply));
    CounterStep(s, t, log, command, reply);
  }

  lemma FinishedStep(open: set<int>, n: nat, log: seq<Event>, e: Event)
    requires open !! FinishedNumbers(log)
    requires forall k :: 1 <= k <= n <==> k in open || k in FinishedNumbers(log)
    requires forall i, j :: 0 <= i < j < |log| && Finishes(log[i]) && Finishes(log[j]) ==>
               log[i].command.number != log[j].command.number
    requires e.reply.Started? ==> e.reply.number == n + 1
    requires e.reply.Finished? ==> Finishes(e) && e.command.number.value in open
    ensures var open' := StillOpen(open, Named(e.command), e.reply);
            && open' !! FinishedNumbers(log + [e])
            && (forall k :: 1 <= k <= (if e.reply.Started? then n + 1 else n) <==>
                  k in open' || k in FinishedNumbers(log + [e]))
    ensures forall i, j :: 0 <= i < j < |log + [e]| && Finishes((log + [e])[i]) && Finishes((log + [e])[j]) ==>
              (log + [e])[i].command.number != (log + [e])[j].command.number
  {
    var log' := log + [e];
    assert log'[..|log|] == log;
    if Finishes(e) {
      forall i | 0 <= i < |log| && Finishes(log[i]) ensures log[i].command.number != e.command.number {
        FinishedIsRecorded(log, i);
      }
    }
  }

  lemma {:induction false} FinishedIsRecorded(log: seq<Event>, i: nat)
    requires i < |log| && Finishes(log[i])
    ensures log[i].command.number.value in FinishedNumbers(log)
  {
    if i < |log| - 1 {
      FinishedIsRecorded(log[..|log| - 1], i);
    }
  }

  lemma CounterStep(s: Tse, t: Tse, log: seq<Event>, command: Command, reply: Reply)
    requires Accounted(s, log) && Books(s, Named(command), t, reply)
    ensures var log' := log + [Event(command, reply)];
            && t.transnr == CountStarts(log') && t.signctr == CountSigned(log')
            && (forall i :: 0 <= i < |log'| && Signs(log'[i].reply) ==> 1 <= log'[i].reply.counter <= t.signctr)
            && (forall i, j :: 0 <= i < j < |log'| && Signs(log'[i].reply) && Signs(log'[j].reply) ==>
                  log'[i].reply.counter < log'[j].reply.counter)
  {
    var log' := log + [Event(command, reply)];
    assert log'[..|log|] == log;
  }

  /** Device accounting over any command sequence. */
  lemma {:induction false} RunAccounts(inputs: seq<Input>)
    ensures Accounted(Run(inputs).0, Run(inputs).1)
  {
    if inputs == [] {
      InitialInv();
    } else {
      var prefix := inputs[..|inputs| - 1];
      RunAccounts(prefix);
      var (s, log) := Run(prefix);
      AccountedStep(s, log, inputs[|inputs| - 1].command, inputs[|inputs| - 1].now);
    }
  }

  /** In every run the open and the finished transactions add up to the number of the last one issued. */
  lemma OpenPlusFinished(inputs: seq<Input>)
    ensures var (s, log) := Run(inputs); |s.AllOpen()| + |FinishedNumbers(log)| == s.transnr
  {
    RunAccounts(inputs);
    var (s, log) := Run(inputs);
    assert s.AllOpen() + FinishedNumbers(log) == Issued(s.transnr);
    assert |s.AllOpen() + FinishedNumbers(log)| == |s.AllOpen()| + |FinishedNumbers(log)|;
  }

  // ---- the bound the start guard really enforces -------------------------------------

  const StartAgain := Input(StartTransaction(Some(DUMMY_CLIENT), Decoded(PASSWORD)), 0)

  lemma StartAdds(s: Tse)
    requires s.Inv() && s.blockCounter == 0 && DUMMY_CLIENT in s.open && |s.AllOpen()| <= 512
    ensures var t := Act(s, StartAgain.command, 0).0;
            |t.AllOpen()| == |s.AllOpen()| + 1 && t.blockCounter == 0 && DUMMY_CLIENT in t.open
  {
    OpenAfterAdd(s.open, DUMMY_CLIENT, s.transnr + 1);
  }

  /** The guard compares before adding: 513 transactions can be open at once, and the next start is
      refused with code 21. */
  lemma {:induction false} OpenBoundIsReached(n: nat)
    requires n <= 513
    ensures var s := Run(seq(n, _ => StartAgain)).0;
            && |s.AllOpen()| == n
            && s.blockCounter == 0 && DUMMY_CLIENT in s.open
            && (n == 513 ==> Act(s, StartAgain.command, 0).1 == Error(21))
  {
    var inputs := seq(n, _ => StartAgain);
    if n == 0 {
      InitialInv();
      assert Run(inputs) == (Initial(), []);
    } else {
      OpenBoundIsReached(n - 1);
      var before := seq(n - 1, _ => StartAgain);
      assert inputs[..n - 1] == before && inputs[n - 1] == StartAgain;
      var s := Run(before).0;
      assert s.Inv() by { RunAccounts(before); }
      var (t, reply) := Act(s, StartAgain.command, 0);
      assert Run(inputs).0 == t;
      StartAdds(s);
    }
  }

  /** A device that registered the clients "0", "1", ... */
  function RegisterNext(i: nat): Input { Input(RegisterClientId(Some(Text.PrintNat(i)), Decoded(PASSWORD)), 0) }

  ghost predicate NumberedClients(s: Tse, n: nat)
  {
    && s.Inv() && s.blockCounter == 0 && |s.open| == 3 + n
    && forall c :: c in s.open ==> !Text.AllDigits(c) || exists i: nat :: i < n && c == Text.PrintNat(i)
  }

  lemma InitialClients()
    ensures NumberedClients(Initial(), 0)
  {
    InitialInv();
    assert MAGIC_PRODUCTION_CLIENT[0] == 'D' && DUMMY_CLIENT[0] == 'D' && "POS001"[0] == 'P';
    assert MAGIC_PRODUCTION_CLIENT[1] == 'N' && DUMMY_CLIENT[1] == 'u';
    assert Initial().open.Keys == {MAGIC_PRODUCTION_CLIENT, DUMMY_CLIENT, "POS001"};
    assert |Initial().open| == |Initial().open.Keys|;
    assert MAGIC_PRODUCTION_CLIENT != DUMMY_CLIENT;
  }

  /** A number below a hundred is a client id the device accepts. */
  lemma NumberedId(n: nat)
    requires n < 100
    ensures |Text.PrintNat(n)| <= 30 && ClientIdMatches(Text.PrintNat(n))
    ensures Text.AllDigits(Text.PrintNat(n)) && Text.DigitsValue(Text.PrintNat(n)) == n
  {
    Text.PrintNatParses(n);
    assert n >= 10 ==> |Text.PrintNat(n / 10)| == 1;
    var id := Text.PrintNat(n);
    forall i | 0 <= i < |id| ensures ClientChar(id[i]) && id[i] != '\n' {
      assert Text.IsDigit(id[i]);
    }
  }

  lemma NextClient(s: Tse, n: nat)
    requires NumberedClients(s, n) && n < 100
    ensures var (t, reply) := Act(s, RegisterNext(n).command, 0);
            if |s.open| > 100 then reply == Error(21) else NumberedClients(t, n + 1)
  {
    hide OpenNumbers, Disjoint, ClientIdMatches, Text.PrintNat, Text.DigitsValue, Text.AllDigits;
    var id := Text.PrintNat(n);
    NumberedId(n);
    forall i: nat | i < n ensures Text.PrintNat(i) != id {
      NumberedId(i);
    }
    assert id !in s.open;
    RegisterOutcome(s, id, Decoded(PASSWORD), 0);
    var t := Act(s, RegisterNext(n).command, 0).0;
    if |s.open| <= 100 {
      assert t.open.Keys == s.open.Keys + {id};
      assert |t.open| == |t.open.Keys| == |s.open.Keys| + 1;
    }
  }

  /** This guard, too, compares before adding: 101 clients can be registered, and the next registration is
      refused with code 21. */
  lemma {:induction false} ClientBoundIsReached(n: nat)
    requires n <= 98
    ensures var s := Run(seq(n, i requires i >= 0 => RegisterNext(i))).0;
            && NumberedClients(s, n) && |s.open| == 3 + n
            && (n == 98 ==> Act(s, RegisterNext(n).command, 0).1 == Error(21))
  {
    hide Act, Initial, OpenNumbers, Disjoint, Text.PrintNat, Text.AllDigits;
    var inputs := seq(n, i requires i >= 0 => RegisterNext(i));
    if n == 0 {
      InitialClients();
      assert Run(inputs) == (Initial(), []);
    } else {
      ClientBoundIsReached(n - 1);
      var before := seq(n - 1, i requires i >= 0 => RegisterNext(i));
      assert inputs[..n - 1] == before && inputs[n - 1] == RegisterNext(n - 1);
      NextClient(Run(before).0, n - 1);
    }
    if n == 98 {
      NextClient(Run(inputs).0, n);
    }
  }

  // ---- the number under a signature --------------------------------------------------

  /** A finish signs the latest number issued, whichever number it names. */
  lemma FinishSignsLatest(s: Tse, command: Command, now: int)
    ensures var reply := Act(s, command, now).1;
            reply.Finished? ==>
              && command.FinishTransaction? && command.number.Some?
              && (reply.signed.number == command.number.value <==> command.number.value == s.transnr)
  {
  }

  lemma {:induction false} RunOfPrefix(inputs: seq<Input>, n: nat)
    requires n <= |inputs|
    ensures |Run(inputs).1| == |inputs|
    ensures Run(inputs).1[..n] == Run(inputs[..n]).1
  {
    hide Act;
    if n < |inputs| {
      var front := inputs[..|inputs| - 1];
      RunOfPrefix(front, n);
      assert front[..n] == inputs[..n];
    } else {
      assert inputs[..n] == inputs;
      if inputs != [] {
        RunOfPrefix(inputs[..n - 1], n - 1);
      }
    }
  }

  lemma {:induction false} StartsBetween(log: seq<Event>, i: nat, j: nat)
    requires i <= j <= |log|
    ensures CountStarts(log[..i]) <= CountStarts(log[..j])
    ensures CountStarts(log[..i]) == CountStarts(log[..j]) <==> forall k :: i <= k < j ==> !log[k].reply.Started?
  {
    if i < j {
      StartsBetween(log, i, j - 1);
      assert log[..j][..j - 1] == log[..j - 1];
    }
  }

  /** The event of one input of a run. */
  lemma EventOf(inputs: seq<Input>, i: nat)
    requires i < |inputs|
    ensures |Run(inputs).1| == |inputs|
    ensures var s, e := Run(inputs[..i]).0, Run(inputs).1[i];
            var (t, reply) := Act(s, inputs[i].command, inputs[i].now);
            && e == Event(inputs[i].command, reply) && Run(inputs[..i + 1]).0 == t
            && s.Inv() && s.transnr == CountStarts(Run(inputs).1[..i])
  {
    hide Act;
    RunOfPrefix(inputs, i);
    RunOfPrefix(inputs, i + 1);
    assert inputs[..i + 1][..i] == inputs[..i] && inputs[..i + 1][i] == inputs[i];
    assert Run(inputs).1[..i + 1][i] == Run(inputs).1[i];
    RunOfPrefix(inputs[..i], i);
    RunAccounts(inputs[..i]);
  }

  /** In any run, the number signed when a transaction finishes is that transaction's own if and only if no
      other one was started after it. */
  lemma SignedNumberIsOwn(inputs: seq<Input>, i: nat, j: nat)
    requires i < j < |inputs| && |Run(inputs).1| == |inputs|
    requires var log := Run(inputs).1;
             log[i].reply.Started? && log[j].reply.Finished? && Named(log[j].command) == Some(log[i].reply.number)
    ensures var log := Run(inputs).1;
            log[j].reply.signed.number == log[i].reply.number <==> forall k :: i < k < j ==> !log[k].reply.Started?
  {
    var log := Run(inputs).1;
    EventOf(inputs, i);
    EventOf(inputs, j);
    StartsBetween(log, i + 1, j);
    assert log[..i + 1][..i] == log[..i];
    FinishSignsLatest(Run(inputs[..j]).0, inputs[j].command, inputs[j].now);
    ActKeeps(Run(inputs[..i]).0, inputs[i].command, inputs[i].now);
  }

  const FinishFirst := Input(FinishTransaction(Some(DUMMY_CLIENT), Decoded(PASSWORD), Some(1), None, None), 0)

  /** Two starts and a finish of the first transaction: number 2 is signed. */
  lemma OtherNumberSigned()
    ensures var log := Run([StartAgain, StartAgain, FinishFirst]).1;
            && |log| == 3 && log[0].reply.Started? && log[0].reply.number == 1
            && log[2].reply.Finished? && log[2].reply.signed.number == 2
  {
    hide Act, OpenNumbers, Disjoint;
    var s0 := Initial();
    InitialInv();
    OneStart(s0);
    var (s1, first) := Act(s0, StartAgain.command, 0);
    OneStart(s1);
    var (s2, second) := Act(s1, StartAgain.command, 0);
    FinishFirstSigns(s2);
    assert Run([]) == (s0, []);
    hide Run;
    RunAdds([], StartAgain);
    RunAdds([StartAgain], StartAgain);
    RunAdds([StartAgain, StartAgain], FinishFirst);
    assert [StartAgain] + [StartAgain] == [StartAgain, StartAgain];
    assert [StartAgain, StartAgain] + [FinishFirst] == [StartAgain, StartAgain, FinishFirst];
    assert [] + [StartAgain] == [StartAgain];
  }

  lemma RunAdds(inputs: seq<Input>, input: Input)
    ensures var (s, log) := Run(inputs);
            var (t, reply) := Act(s, input.command, input.now);
            Run(inputs + [input]) == (t, log + [Event(input.command, reply)])
  {
    hide Act;
    assert (inputs + [input])[..|inputs|] == inputs;
  }

  lemma FinishFirstSigns(s: Tse)
    requires s.blockCounter == 0 && DUMMY_CLIENT in s.open && 1 in s.open[DUMMY_CLIENT]
    ensures var reply := Act(s, FinishFirst.command, 0).1; reply.Finished? && reply.signed.number == s.transnr
  {
  }

  lemma OneStart(s: Tse)
    requires s.Inv() && s.blockCounter == 0 && DUMMY_CLIENT in s.open && |s.AllOpen()| <= 2
    ensures var (t, reply) := Act(s, StartAgain.command, 0);
            && reply.Started? && reply.number == s.transnr + 1 == t.transnr && t.Inv() && t.blockCounter == 0
            && DUMMY_CLIENT in t.open && |t.AllOpen()| <= |s.AllOpen()| + 1
            && t.open[DUMMY_CLIENT] == s.open[DUMMY_CLIENT] + {t.transnr}
  {
    StartAdds(s);
    ActKeeps(s, StartAgain.command, 0);
  }

  // ---- the password ------------------------------------------------------------------

  function PasswordOf(command: Command): Password
  {
    match command
    case StartTransaction(_, p) => p
    case UpdateTransaction(_, p, _, _) => p
    case FinishTransaction(_, p, _, _, _) => p
    case RegisterClientId(_, p) => p
    case DeregisterClientId(_, p) => p
    case GetDeviceStatus(p) => p
    case PingPong => Absent
  }

  /** A complete command with a password that decodes to another text. */
  predicate TriesWrongly(command: Command)
  {
    Complete(command) && PasswordOf(command).Decoded? && PasswordOf(command).text != "12345"
  }

  /** Without the password, or once blocked, the device does nothing: clients, transactions and counters stay as
      they are, and it answers with an error unless it is only asked for a sign of life. */
  lemma OnlyWithPassword(s: Tse, command: Command, now: int)
    requires PasswordOf(command) != Decoded("12345") || s.blockCounter >= 3
    ensures var (t, reply) := Act(s, command, now);
            && t.open == s.open && t.transnr == s.transnr && t.signctr == s.signctr
            && t.blockCounter == s.blockCounter + (if TriesWrongly(command) && s.blockCounter < 3 then 1 else 0)
            && (reply == Error(3) || reply == Error(9) || reply == Error(30) || reply == Error(32)
                || (command.PingPong? && reply == Success)
                || (command.GetDeviceStatus? && PasswordOf(command).Absent? && reply == Status(None)))
  {
  }

  /** Once blocked, none of these commands changes anything any more or gets signed, whatever password comes;
      unblocking is not part of this model. */
  lemma {:induction false} BlockedStays(inputs: seq<Input>, i: nat, m: nat)
    requires i <= m <= |inputs| && Run(inputs[..i]).0.blockCounter >= 3
    ensures Run(inputs[..m]).0 == Run(inputs[..i]).0
    ensures |Run(inputs).1| == |inputs|
    ensures forall j :: i <= j < m ==> !Signs(Run(inputs).1[j].reply)
  {
    hide Act;
    RunOfPrefix(inputs, i);
    if i < m {
      BlockedStays(inputs, i, m - 1);
      EventOf(inputs, m - 1);
      OnlyWithPassword(Run(inputs[..m - 1]).0, inputs[m - 1].command, inputs[m - 1].now);
    }
  }

  /** Three wrong passwords in a row block the device, at any point of any run. */
  lemma ThreeWrongBlock(inputs: seq<Input>, i: nat, m: nat)
    requires i + 3 <= m <= |inputs|
    requires TriesWrongly(inputs[i].command) && TriesWrongly(inputs[i + 1].command) && TriesWrongly(inputs[i + 2].command)
    ensures var before, after := Run(inputs[..i]).0, Run(inputs[..m]).0;
            && after.blockCounter >= 3
            && after.open == before.open && after.transnr == before.transnr && after.signctr == before.signctr
    ensures |Run(inputs).1| == |inputs|
    ensures forall j :: i + 3 <= j < m ==> !Signs(Run(inputs).1[j].reply)
  {
    hide Act;
    CounterIsNatural(inputs[..i]);
    WrongOnce(inputs, i);
    WrongOnce(inputs, i + 1);
    WrongOnce(inputs, i + 2);
    BlockedStays(inputs, i + 3, m);
  }

  lemma WrongOnce(inputs: seq<Input>, i: nat)
    requires i < |inputs| && TriesWrongly(inputs[i].command)
    ensures var s, t := Run(inputs[..i]).0, Run(inputs[..i + 1]).0;
            && t == s.(blockCounter := s.blockCounter + if s.blockCounter < 3 then 1 else 0)
  {
    hide Act;
    EventOf(inputs, i);
    OnlyWithPassword(Run(inputs[..i]).0, inputs[i].command, inputs[i].now);
  }

  lemma {:induction false} CounterIsNatural(inputs: seq<Input>)
    ensures 0 <= Run(inputs).0.blockCounter <= 3
  {
    if inputs != [] {
      CounterIsNatural(inputs[..|inputs| - 1]);
    }
  }
}
