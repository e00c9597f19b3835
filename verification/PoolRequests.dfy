/** What callers ask of the pool and what it takes in: every message that can be sent is
    accepted, every close request for a TCP node is handled, in the order of the calls. */
module PoolRequests {
  import opened Common
  import opened PoolModel
  import opened PoolHeap
  import opened PoolTables
  import opened PoolSteps
  import opened PoolFlow
  import opened PoolRuns
  import opened PoolTheorems
  import opened PoolAnswers

  // ------------------------------------------------------------------- sends

  datatype Sent = Sent(node: Node, autoConnect: bool)

  /** A message is not empty, and a datagram fits in one packet. */
  predicate CanBeSent(node: Node, length: nat) {
    length > 0 && (node.protocol == Udp ==> length < 65508)
  }

  function SentBy(ev: Event): seq<Sent> {
    if ev.CallSend? && CanBeSent(ev.sendNode, ev.length) then [Sent(ev.sendNode, ev.autoConnect)] else []
  }

  /** The sends of a run that are not ignored, in the order of the calls. */
  function AllSent(events: seq<Event>): seq<Sent>
    decreases |events|
  {
    if events == [] then [] else SentBy(events[0]) + AllSent(events[1..])
  }

  /** One new message for each of these sends, in order, numbered on from the last. */
  predicate Takes(before: seq<Message>, after: seq<Message>, sent: seq<Sent>) {
    && before <= after && |after| == |before| + |sent|
    && forall i :: 0 <= i < |sent| ==> after[|before| + i] == Message(|before| + i, sent[i].node, sent[i].autoConnect)
  }

  lemma StepTakes(s: Pool, ev: Event)
    requires Good(s) && Linked(s) && Enabled(s, ev)
    ensures Takes(s.q.accepted, Step(s, ev).q.accepted, SentBy(ev))
  {
    hide Inv, FlowInv, BindOne, SendOne, CloseOne, Exit;
    match ev
    case ReadFlag(order) => if s.p.wantExit { FlagQueues(s, order); }
    case TurnBind(_) => TurnQueues(s, ev);
    case TurnSend(_) => TurnQueues(s, ev);
    case TurnClose(_) => TurnQueues(s, ev);
    case OnNewConnection(_, _) => CallbackQueues(s, ev);
    case OnConnectDone(_, _) => CallbackQueues(s, ev);
    case OnWriteDone(_, _) => CallbackQueues(s, ev);
    case OnRead(_, _, _, _) => CallbackQueues(s, ev);
    case OnTimeout(_) => CallbackQueues(s, ev);
    case OnShutdownDone(_) => CallbackQueues(s, ev);
    case OnTcpClosed(_) => CallbackQueues(s, ev);
    case OnTimerClosed(_) => CallbackQueues(s, ev);
    case _ =>
  }

  lemma TakesMore(a: seq<Message>, b: seq<Message>, c: seq<Message>, x: seq<Sent>, y: seq<Sent>)
    requires Takes(a, b, x) && Takes(b, c, y)
    ensures Takes(a, c, x + y)
  {
  }

  /** Over every run: the messages accepted are exactly the sends that are neither empty
      nor datagrams too long for a packet, in the order of the calls, each for its own
      node and with its own wish to connect. */
  lemma {:induction false} SendsInOrder(s: Pool, events: seq<Event>)
    requires Good(s) && Legal(s, events)
    ensures Takes(s.q.accepted, After(s, events).q.accepted, AllSent(events))
    decreases |events|
  {
    hide Good, Step, Enabled, Linked, SentBy, Takes;
    GoodLinked(s);
    if events != [] {
      var t := Step(s, events[0]);
      StepGood(s, events[0]);
      StepTakes(s, events[0]);
      SendsInOrder(t, events[1..]);
      TakesMore(s.q.accepted, t.q.accepted, After(t, events[1..]).q.accepted, SentBy(events[0]), AllSent(events[1..]));
    } else {
      NothingTaken(s.q.accepted);
    }
  }

  lemma NothingTaken(a: seq<Message>)
    ensures Takes(a, a, [])
  {
  }

  // ------------------------------------------------------------------ closes

  /** Only TCP connections can be closed. */
  function ClosingBy(ev: Event): seq<CloseRequest> {
    if ev.CallClose? && ev.closeNode.protocol == Tcp then [CloseRequest(ev.closeNode, ev.force)] else []
  }

  /** The close requests of a run, in the order of the calls. */
  function AllClosing(events: seq<Event>): seq<CloseRequest>
    decreases |events|
  {
    if events == [] then [] else ClosingBy(events[0]) + AllClosing(events[1..])
  }

  /** The close requests a step is done with: a turn with the first one, the exit, which
      closes every connection, with all that were taken over. */
  function DoneBy(s: Pool, ev: Event): seq<CloseRequest> {
    if ev.TurnClose? then s.q.closeCopy[..Min(1, |s.q.closeCopy|)]
    else if Exits(s, ev) then s.q.closeCopy
    else []
  }

  ghost function AllDone(s: Pool, events: seq<Event>): seq<CloseRequest>
    requires Legal(s, events)
    decreases |events|
  {
    if events == [] || !Linked(s) then []
    else DoneBy(s, events[0]) + AllDone(Step(s, events[0]), events[1..])
  }

  /** The close requests still to be handled, in order. */
  function ToClose(q: Queues): seq<CloseRequest> {
    q.closeCopy + q.pendingClose
  }

  lemma StepCloses(s: Pool, ev: Event)
    requires Good(s) && Linked(s) && Enabled(s, ev)
    ensures DoneBy(s, ev) + ToClose(Step(s, ev).q) == ToClose(s.q) + ClosingBy(ev)
  {
    hide Inv, FlowInv, BindOne, SendOne, CloseOne, Exit;
    match ev
    case Wakeup =>
    case ReadFlag(order) => if s.p.wantExit { FlagQueues(s, order); }
    case TurnBind(_) => TurnQueues(s, ev);
    case TurnSend(_) => TurnQueues(s, ev);
    case TurnClose(_) => TurnQueues(s, ev);
    case OnNewConnection(_, _) => CallbackQueues(s, ev);
    case OnConnectDone(_, _) => CallbackQueues(s, ev);
    case OnWriteDone(_, _) => CallbackQueues(s, ev);
    case OnRead(_, _, _, _) => CallbackQueues(s, ev);
    case OnTimeout(_) => CallbackQueues(s, ev);
    case OnShutdownDone(_) => CallbackQueues(s, ev);
    case OnTcpClosed(_) => CallbackQueues(s, ev);
    case OnTimerClosed(_) => CallbackQueues(s, ev);
    case _ =>
  }

  /** Over every run: the close requests done with, in that order, followed by those still
      to be handled are those open at the start followed by those of the run for a TCP
      node. None is lost, repeated, overtaken or altered. */
  lemma {:induction false} ClosesInOrder(s: Pool, events: seq<Event>)
    requires Good(s) && Legal(s, events)
    ensures AllDone(s, events) + ToClose(After(s, events).q) == ToClose(s.q) + AllClosing(events)
    decreases |events|
  {
    hide Good, Step, Enabled, Linked, ClosingBy, DoneBy, ToClose;
    GoodLinked(s);
    if events != [] {
      var ev, rest := events[0], events[1..];
      var t := Step(s, ev);
      StepGood(s, ev);
      StepCloses(s, ev);
      ClosesInOrder(t, rest);
      Regroup(DoneBy(s, ev), AllDone(t, rest), ToClose(After(t, rest).q), ToClose(t.q), AllClosing(rest), ToClose(s.q), ClosingBy(ev));
    } else {
      assert [] + ToClose(s.q) == ToClose(s.q) + [];
    }
  }
}
