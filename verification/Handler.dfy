/** The handler's side of a connection: requests numbered and remembered, answers matched by that number. */
module Handler {

  import opened Wrappers

  /** What an awaiting request gets. */
  datatype Future = Waiting | TimedOut | Answered(data: string)

  /** The echoed number: JSON integers, and true and false, which Python counts as integers; or anything else. */
  datatype Echo = Number(n: int) | Flag(b: bool) | Other

  function Key(echo: Echo): Option<int>
  {
    match echo
    case Number(n) => Some(n)
    case Flag(b) => Some(if b then 1 else 0)
    case Other => None
  }

  /** A message from the device: one that is no text or says the connection is closed, one that is not framed
      as an answer, one that does not decode to an object, one without an echo, or an answer. */
  datatype Message = NotText | BadFrame | BadJson | NoEcho | Answer(echo: Echo, data: string)

  /** Numbers below `requestId` were sent; `futures` are those the handler remembers. */
  datatype State = State(requestId: nat, pending: set<int>, futures: map<int, Future>, receiving: bool)

  /** The request goes out before the handler remembers it. */
  function Send(s: State): State { s.(requestId := s.requestId + 1) }

  function Remember(s: State, id: int): State
  {
    if 0 <= id < s.requestId && id !in s.futures
    then s.(pending := s.pending + {id}, futures := s.futures[id := Waiting]) else s
  }

  /** A request that waited too long gives up; its entry stays. */
  function TimeOut(s: State, id: int): State
  {
    if id in s.futures && s.futures[id] == Waiting then s.(futures := s.futures[id := TimedOut]) else s
  }

  function Receive(s: State, m: Message): State
  {
    if !s.receiving then s
    else
      match m
      case BadFrame => s
      case BadJson => s
      case NotText => s.(receiving := false)
      case NoEcho => s.(receiving := false)
      case Answer(echo, data) =>
        match Key(echo)
        case None => s
        case Some(id) =>
          // removing an unknown entry, and answering a request that gave up, are errors that end the loop
          if id !in s.pending then s.(receiving := false)
          else if id !in s.futures || s.futures[id] != Waiting then s.(pending := s.pending - {id}, receiving := false)
          else s.(pending := s.pending - {id}, futures := s.futures[id := Answered(data)])
  }

  class DieboldNixdorfUSBTSE {
    var requestId: nat
    var pending: set<int>
    var futures: map<int, Future>
    var receiving: bool

    constructor ()
      ensures View() == State(0, {}, map[], true)
    {
      requestId, pending, futures, receiving := 0, {}, map[], true;
    }

    function View(): State
      reads this
    {
      State(requestId, pending, futures, receiving)
    }

    method SendRequest() returns (id: nat)
      modifies this`requestId
      ensures id == old(requestId) && View() == Send(old(View()))
    {
      id := requestId;
      requestId := requestId + 1;
    }

    method RememberRequest(id: nat)
      requires id < requestId && id !in futures
      modifies this`pending, this`futures
      ensures View() == Remember(old(View()), id)
    {
      futures := futures[id := Waiting];
      pending := pending + {id};
    }

    method GiveUp(id: int)
      modifies this`futures
      ensures View() == TimeOut(old(View()), id)
    {
      if id in futures && futures[id] == Waiting {
        futures := futures[id := TimedOut];
      }
    }

    /** receive_loop, until a message ends it. */
    method ReceiveLoop(messages: seq<Message>)
      modifies this
      ensures View() == ReceiveAll(old(View()), messages)
    {
      for i := 0 to |messages|
        invariant View() == ReceiveAll(old(View()), messages[..i])
      {
        assert messages[..i + 1][..i] == messages[..i];
        if !receiving {
          continue;
        }
        var m := messages[i];
        if m.NoEcho? || m.NotText? {
          receiving := false;
        } else if m.Answer? && Key(m.echo).Some? {
          var id := Key(m.echo).value;
          var known := id in pending;
          pending := pending - {id};
          if known && id in futures && futures[id] == Waiting {
            futures := futures[id := Answered(m.data)];
          } else {
            receiving := false;
          }
        }
      }
      assert messages[..|messages|] == messages;
    }
  }

  function ReceiveAll(s: State, messages: seq<Message>): State
  {
    if messages == [] then s else Receive(ReceiveAll(s, messages[..|messages| - 1]), messages[|messages| - 1])
  }

  // ---- any interleaving --------------------------------------------------------------

  datatype Event = Sent | Remembered(id: int) | GaveUp(id: int) | Received(m: Message)

  function Step(s: State, e: Event): State
  {
    match e
    case Sent => Send(s)
    case Remembered(id) => Remember(s, id)
    case GaveUp(id) => TimeOut(s, id)
    case Received(m) => Receive(s, m)
  }

  function Run(s: State, events: seq<Event>): State
  {
    if events == [] then s else Step(Run(s, events[..|events| - 1]), events[|events| - 1])
  }

  const START := State(0, {}, map[], true)

  /** Only numbers that were sent are remembered; while the loop runs, exactly the remembered requests
      without an answer are pending. */
  ghost predicate Inv(s: State)
  {
    && (forall id :: id in s.futures ==> 0 <= id < s.requestId)
    && (s.receiving ==> forall id :: id in s.pending <==> id in s.futures && !s.futures[id].Answered?)
  }

  lemma {:induction false} InvAlways(events: seq<Event>)
    ensures Inv(Run(START, events))
  {
    hide Inv, Step;
    if events == [] {
      StartInv();
    } else {
      InvAlways(events[..|events| - 1]);
      StepKeeps(Run(START, events[..|events| - 1]), events[|events| - 1]);
    }
  }

  lemma StartInv()
    ensures Inv(START)
  {
  }

  lemma StepKeeps(s: State, e: Event)
    requires Inv(s)
    ensures Inv(Step(s, e))
  {
    hide Inv;
    match e
    case Sent => SendKeeps(s);
    case Remembered(id) => RememberKeeps(s, id);
    case GaveUp(id) => GiveUpKeeps(s, id);
    case Received(m) => ReceiveKeeps(s, m);
  }

  lemma SendKeeps(s: State)
    requires Inv(s)
    ensures Inv(Send(s))
  {
  }

  lemma RememberKeeps(s: State, id: int)
    requires Inv(s)
    ensures Inv(Remember(s, id))
  {
  }

  lemma GiveUpKeeps(s: State, id: int)
    requires Inv(s)
    ensures Inv(TimeOut(s, id))
  {
  }

  lemma ReceiveKeeps(s: State, m: Message)
    requires Inv(s)
    ensures Inv(Receive(s, m))
  {
  }

  /** The number a message echoes: an integer is itself, true is 1 and false is 0. */
  predicate Echoes(echo: Echo, id: int)
  {
    echo == Number(id) || (echo == Flag(true) && id == 1) || (echo == Flag(false) && id == 0)
  }

  lemma KeyIsEcho(echo: Echo, id: int)
    ensures Key(echo) == Some(id) <==> Echoes(echo, id)
  {
  }

  /** An answer is accepted exactly when the request it echoes still waits, and then reaches that request alone.
      A second answer, an unasked one, one that comes before the handler remembers the request and one that
      comes after the time-out all end the receive loop, as do a message that is no text and one without an
      echo; a bad frame, bad JSON and an echo that is no number are passed over. */
  lemma {:induction false} AcceptedIfWaiting(events: seq<Event>, m: Message, id: int)
    requires Run(START, events).receiving && (m.Answer? && !m.echo.Other? ==> Echoes(m.echo, id))
    ensures var s, t := Run(START, events), Run(START, events + [Received(m)]);
            match m
            case NotText => !t.receiving && t.futures == s.futures
            case NoEcho => !t.receiving && t.futures == s.futures
            case BadFrame => t == s
            case BadJson => t == s
            case Answer(echo, data) =>
              if echo.Other? then t == s
              else
                && (t.receiving <==> id in s.futures && s.futures[id] == Waiting)
                && t.futures == if t.receiving then s.futures[id := Answered(data)] else s.futures
  {
    InvAlways(events);
    assert (events + [Received(m)])[..|events|] == events;
    if m.Answer? {
      KeyIsEcho(m.echo, id);
    }
  }

  /** After a time-out the entry stays, and the answer that comes too late ends the loop. */
  lemma {:induction false} LateAnswerEnds(events: seq<Event>, id: int, echo: Echo, data: string)
    requires Run(START, events).receiving && id in Run(START, events).futures && Run(START, events).futures[id] == Waiting
    requires Echoes(echo, id)
    ensures var s := Run(START, events + [GaveUp(id)] + [Received(Answer(echo, data))]);
            !s.receiving && id in s.futures && s.futures[id] == TimedOut
  {
    var late := events + [GaveUp(id)];
    assert late[..|events|] == events;
    AcceptedIfWaiting(late, Answer(echo, data), id);
  }

  /** Once the loop has ended no request gets an answer any more. */
  lemma {:induction false} EndedForGood(events: seq<Event>, more: seq<Event>)
    requires !Run(START, events).receiving
    ensures var s, t := Run(START, events), Run(START, events + more);
            && !t.receiving
            && forall id :: id in t.futures && t.futures[id].Answered? ==> id in s.futures && s.futures[id] == t.futures[id]
  {
    if more == [] {
      assert events + more == events;
    } else {
      hide Run, Inv;
      var front := more[..|more| - 1];
      EndedForGood(events, front);
      assert (events + more)[..|events + more| - 1] == events + front;
      RunStep(START, events + more);
      EndedStep(Run(START, events + front), more[|more| - 1]);
    }
  }

  lemma EndedStep(s: State, e: Event)
    requires !s.receiving
    ensures var t := Step(s, e);
            && !t.receiving
            && forall id :: id in t.futures && t.futures[id].Answered? ==> id in s.futures && s.futures[id] == t.futures[id]
  {
  }

  function CountSent(events: seq<Event>): nat
  {
    if events == [] then 0 else CountSent(events[..|events| - 1]) + (if events[|events| - 1].Sent? then 1 else 0)
  }

  /** Each request gets the next number: the first is 0, and no number is used twice. */
  lemma {:induction false} NumbersAreUsedOnce(events: seq<Event>)
    ensures Run(START, events).requestId == CountSent(events)
  {
    if events != [] {
      NumbersAreUsedOnce(events[..|events| - 1]);
    }
  }

  /** The receive loop is one message event after another. */
  lemma {:induction false} LoopIsRun(s: State, messages: seq<Message>)
    ensures ReceiveAll(s, messages) == Run(s, seq(|messages|, i requires 0 <= i < |messages| => Received(messages[i])))
  {
    if messages != [] {
      var front := messages[..|messages| - 1];
      LoopIsRun(s, front);
      var events := seq(|messages|, i requires 0 <= i < |messages| => Received(messages[i]));
      assert events[..|events| - 1] == seq(|front|, i requires 0 <= i < |front| => Received(front[i]));
    }
  }

  /** The data arrived in a message whose echo counts as the number. */
  ghost predicate Arrived(events: seq<Event>, id: int, data: string)
  {
    exists echo :: Echoes(echo, id) && Received(Answer(echo, data)) in events
  }

  /** Over any interleaving of requests, time-outs and messages, a request only ever gets the data of a
      message that echoes its own number: as that number, as true for request 1 or as false for request 0. */
  lemma {:induction false} AnswersCorrelate(events: seq<Event>, id: int)
    requires id in Run(START, events).futures && Run(START, events).futures[id].Answered?
    ensures Arrived(events, id, Run(START, events).futures[id].data)
    ensures id > 1 ==> Received(Answer(Number(id), Run(START, events).futures[id].data)) in events
  {
    if events == [] {
      assert false;
    }
    hide Run, Inv;
    var front, last := events[..|events| - 1], events[|events| - 1];
    var before := Run(START, front);
    assert Run(START, events) == Step(before, last) by { RunStep(START, events); }
    InvAlways(front);
    assert events == front + [last];
    if id in before.futures && before.futures[id].Answered? {
      AnswersCorrelate(front, id);
      KeepsAnswer(before, last, id);
    } else {
      GetsAnswer(before, last, id);
      KeyIsEcho(last.m.echo, id);
    }
  }

  /** A message with a JSON true for an echo answers request 1. */
  lemma TrueAnswersOne(data: string)
    ensures var events := [Sent, Sent, Remembered(1), Received(Answer(Flag(true), data))];
            1 in Run(START, events).futures && Run(START, events).futures[1] == Answered(data)
  {
    var events := [Sent, Sent, Remembered(1), Received(Answer(Flag(true), data))];
    assert events[..3] == [Sent, Sent, Remembered(1)] && events[..3][..2] == [Sent, Sent];
    assert [Sent, Sent][..1] == [Sent] && [Sent][..0] == [];
    assert Run(START, [Sent]) == Send(START);
    assert Run(START, [Sent, Sent]) == Send(Send(START));
    assert Run(START, events[..3]) == Remember(Send(Send(START)), 1);
  }

  lemma RunStep(s: State, events: seq<Event>)
    requires events != []
    ensures Run(s, events) == Step(Run(s, events[..|events| - 1]), events[|events| - 1])
  {
  }

  lemma KeepsAnswer(s: State, e: Event, id: int)
    requires Inv(s) && id in s.futures && s.futures[id] != Waiting
    ensures id in Step(s, e).futures && Step(s, e).futures[id] == s.futures[id]
  {
  }

  lemma GetsAnswer(s: State, e: Event, id: int)
    requires !(id in s.futures && s.futures[id].Answered?)
    requires id in Step(s, e).futures && Step(s, e).futures[id].Answered?
    ensures e.Received? && e.m.Answer? && Key(e.m.echo) == Some(id) && e.m.data == Step(s, e).futures[id].data
  {
  }

  /** What a request got is final: neither later messages nor its own time-out replace it. */
  lemma {:induction false} AnswersAreFinal(events: seq<Event>, more: seq<Event>, id: int)
    requires id in Run(START, events).futures && Run(START, events).futures[id] != Waiting
    ensures id in Run(START, events + more).futures
    ensures Run(START, events + more).futures[id] == Run(START, events).futures[id]
  {
    if more == [] {
      assert events + more == events;
    } else {
      hide Run, Step, Inv;
      var front := more[..|more| - 1];
      AnswersAreFinal(events, front, id);
      assert (events + more)[..|events + more| - 1] == events + front;
      InvAlways(events + front);
      RunStep(START, events + more);
      KeepsAnswer(Run(START, events + front), more[|more| - 1], id);
    }
  }
}
