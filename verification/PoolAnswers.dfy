/** What becomes of bind requests: each one taken over is answered once and in order, and
    which ones are never answered. */
module PoolAnswers {
  import opened Common
  import opened PoolModel
  import opened PoolHeap
  import opened PoolTables
  import opened PoolSteps
  import opened PoolFlow
  import opened PoolRuns
  import opened PoolTheorems

  // ------------------------------------------------------------ notifications

  /** One bind notification is added, for this node. */
  predicate TellsOne(log: seq<Status>, later: seq<Status>, node: Node) {
    |later| == |log| + 1 && later[..|log|] == log && later[|log|].node == node
  }

  /** One notification for each request, in order. */
  predicate Tells(told: seq<Status>, asked: seq<BindRequest>) {
    |told| == |asked| && forall i :: 0 <= i < |told| ==> told[i].node == asked[i].node
  }

  lemma BindOneTells(s: Pool, r: BindRequest, e: BindEnv)
    requires Linked(s)
    ensures TellsOne(s.log.bound, BindOne(s, r, e).log.bound, r.node)
  {
    hide CloseConn, Listen;
  }

  lemma SendOneBound(s: Pool, m: Message, e: DeliverEnv)
    requires Linked(s)
    ensures SendOne(s, m, e).log.bound == s.log.bound
  {
    hide CloseConn, Connect;
  }

  lemma CloseOneBound(s: Pool, r: CloseRequest, e: CloseEnv)
    requires Linked(s)
    ensures CloseOne(s, r, e).log.bound == s.log.bound
  {
    hide CloseConn, ShutdownConn;
  }

  lemma StartupBound(s: Pool, id: nat, e: SendEnv)
    requires id in s.h.conns
    ensures Startup(s, id, e).log.bound == s.log.bound
  {
    hide CloseConn;
  }

  lemma NewConnectionBound(s: Pool, e: NewEnv)
    ensures NewConnection(s, e).log.bound == s.log.bound
  {
    hide CloseConn, Startup, Alloc;
    var (h1, made) := Alloc(s.h, true, e.alloc);
    if made.Some? && made.value in h1.conns {
      var c := h1.conns[made.value].(node := Node(Tcp, e.address), armed := true, reading := true);
      StartupBound(s.(h := SetConn(h1, made.value, c)), made.value, e.send);
    }
  }

  lemma ConnectDoneBound(s: Pool, id: nat, e: DoneEnv)
    requires id in s.h.conns
    ensures ConnectDone(s, id, e).log.bound == s.log.bound
  {
    hide CloseConn, Startup;
    var c := s.h.conns[id].(connectReq := false);
    var s1 := s.(t := s.t.(connecting := s.t.connecting - {id}), h := SetConn(s.h, id, c));
    StartupBound(s1.(h := SetConn(s1.h, id, c.(armed := true, reading := true))), id, e.send);
  }

  lemma CallbackBound(s: Pool, ev: Event)
    requires Linked(s) && Enabled(s, ev)
    requires ev.OnNewConnection? || ev.OnConnectDone? || ev.OnWriteDone? || ev.OnRead? || ev.OnTimeout?
      || ev.OnShutdownDone? || ev.OnTcpClosed? || ev.OnTimerClosed?
    ensures Step(s, ev).log.bound == s.log.bound
  {
    hide CloseConn, ShutdownConn, NewConnection, ConnectDone, TcpClosed, TimerClosed;
    match ev
    case OnNewConnection(_, e) => NewConnectionBound(s, e);
    case OnConnectDone(id, e) => ConnectDoneBound(s, id, e);
    case OnWriteDone(_, _) =>
    case OnRead(_, _, _, _) =>
    case OnTimeout(_) =>
    case OnShutdownDone(_) =>
    case OnTcpClosed(_) =>
    case OnTimerClosed(_) =>
  }

  /** The step is the exit. */
  predicate Exits(s: Pool, ev: Event) {
    ev.ReadFlag? && s.p.wantExit
  }

  /** The notifications of one step: a turn of the bind loop adds one for its request,
      the exit those for the servers it closes and then one for each request taken over,
      and nothing else adds any. */
  lemma StepTells(s: Pool, ev: Event)
    requires Linked(s) && Enabled(s, ev)
    ensures var r := Step(s, ev);
      if ev.TurnBind? then TellsOne(s.log.bound, r.log.bound, s.q.bindCopy[0].node)
      else if Exits(s, ev) then
        r.log.bound == s.log.bound + (AllDown(ev.order.servers) + AllDown(ev.order.udpServers)) + AllDown(RequestNodes(s.q.bindCopy))
      else r.log.bound == s.log.bound
  {
    hide BindOne, SendOne, CloseOne, NewConnection, ConnectDone, WriteDone, Read, Timeout, ShutdownDone, TcpClosed, TimerClosed, Exit;
    match ev
    case ReadFlag(order) => if s.p.wantExit { ExitTells(s, order); }
    case TurnBind(e) => BindOneTells(s.(q := s.q.(bindCopy := s.q.bindCopy[1..])), s.q.bindCopy[0], e);
    case TurnSend(e) => SendOneBound(s.(q := s.q.(sendCopy := s.q.sendCopy[1..])), s.q.sendCopy[0], e);
    case TurnClose(e) => CloseOneBound(s.(q := s.q.(closeCopy := s.q.closeCopy[1..])), s.q.closeCopy[0], e);
    case OnNewConnection(_, _) => CallbackBound(s, ev);
    case OnConnectDone(_, _) => CallbackBound(s, ev);
    case OnWriteDone(_, _) => CallbackBound(s, ev);
    case OnRead(_, _, _, _) => CallbackBound(s, ev);
    case OnTimeout(_) => CallbackBound(s, ev);
    case OnShutdownDone(_) => CallbackBound(s, ev);
    case OnTcpClosed(_) => CallbackBound(s, ev);
    case OnTimerClosed(_) => CallbackBound(s, ev);
    case _ =>
  }

  lemma ExitTells(s: Pool, e: ExitEnv)
    requires ExitOrder(s.t, e)
    ensures Exit(s, e).log.bound == s.log.bound + (AllDown(e.servers) + AllDown(e.udpServers)) + AllDown(RequestNodes(s.q.bindCopy))
  {
    hide CloseAll, Ids, WaitingFor;
  }

  // ---------------------------------------------------------------- requests

  function AskedBy(ev: Event): seq<BindRequest> {
    if ev.CallBind? then [BindRequest(ev.bindNode, ev.bind)] else []
  }

  /** The bind requests of a run, in the order of the calls. */
  function Asked(events: seq<Event>): seq<BindRequest>
    decreases |events|
  {
    if events == [] then [] else AskedBy(events[0]) + Asked(events[1..])
  }

  /** The requests a step answers. */
  function AnsweredBy(s: Pool, ev: Event): seq<BindRequest> {
    if ev.TurnBind? then s.q.bindCopy[..Min(1, |s.q.bindCopy|)]
    else if Exits(s, ev) then s.q.bindCopy
    else []
  }

  /** The requests a run answers. */
  ghost function Answered(s: Pool, events: seq<Event>): seq<BindRequest>
    requires Legal(s, events)
    decreases |events|
  {
    if events == [] || !Linked(s) then []
    else AnsweredBy(s, events[0]) + Answered(Step(s, events[0]), events[1..])
  }

  /** The requests not answered yet, in order. */
  function Open(q: Queues): seq<BindRequest> {
    q.bindCopy + q.pendingBind
  }

  lemma StepAnswers(s: Pool, ev: Event)
    requires Good(s) && Linked(s) && Enabled(s, ev)
    ensures AnsweredBy(s, ev) + Open(Step(s, ev).q) == Open(s.q) + AskedBy(ev)
  {
    hide Inv, FlowInv, BindOne, SendOne, CloseOne, Exit;
    match ev
    case Wakeup =>
    case ReadFlag(order) => if s.p.wantExit { FlagQueues(s, order); }
    case TurnBind(_) => TurnQueues(s, ev);
    case TurnSend(_) => TurnQueues(s, ev);
    case TurnClose(_) => TurnQueues(s, ev);
    case OnNewConnection(_, _) => CallbackQueues(s, ev);
    case OnConnectDone(_, _) => CallbackQueues(s, ev);
    case OnWriteDone(_, _) => CallbackQueues(s, ev);
    case OnRead(_, _, _, _) => CallbackQueues(s, ev);
    case OnTimeout(_) => CallbackQueues(s, ev);
    case OnShutdownDone(_) => CallbackQueues(s, ev);
    case OnTcpClosed(_) => CallbackQueues(s, ev);
    case OnTimerClosed(_) => CallbackQueues(s, ev);
    case _ =>
  }

  /** Over every run: the requests answered, in the order of their answers, followed by
      those not answered yet are those open at the start followed by those of the run.
      So each is answered at most once, none out of turn, and none is lost. */
  lemma {:induction false} BindsInOrder(s: Pool, events: seq<Event>)
    requires Good(s) && Legal(s, events)
    ensures Answered(s, events) + Open(After(s, events).q) == Open(s.q) + Asked(events)
    decreases |events|
  {
    hide Good, Step, Enabled, Linked, AskedBy, AnsweredBy, Open;
    GoodLinked(s);
    if events != [] {
      var ev, rest := events[0], events[1..];
      var t := Step(s, ev);
      StepGood(s, ev);
      StepAnswers(s, ev);
      BindsInOrder(t, rest);
      Regroup(AnsweredBy(s, ev), Answered(t, rest), Open(After(t, rest).q), Open(t.q), Asked(rest), Open(s.q), AskedBy(ev));
    } else {
      assert [] + Open(s.q) == Open(s.q) + [];
    }
  }

  lemma Associate<T>(a: seq<T>, b: seq<T>, c: seq<T>)
    ensures (a + b) + c == a + (b + c)
  {
  }

  lemma Regroup<T>(a: seq<T>, b: seq<T>, c: seq<T>, d: seq<T>, e: seq<T>, f: seq<T>, g: seq<T>)
    requires b + c == d + e && a + d == f + g
    ensures (a + b) + c == f + (g + e)
  {
    assert (a + b) + c == a + (b + c) == a + (d + e) == (a + d) + e == (f + g) + e == f + (g + e);
  }

  /** While the pool has not exited, the bind notifications are the answers: one for each
      request answered, in order. */
  lemma {:induction false} AnswersTold(s: Pool, events: seq<Event>, before: seq<BindRequest>)
    requires Good(s) && Legal(s, events) && Tells(s.log.bound, before) && !After(s, events).p.exited
    ensures Tells(After(s, events).log.bound, before + Answered(s, events))
    decreases |events|
  {
    if events == [] {
      assert before + [] == before;
      return;
    }
    GoodLinked(s);
    var ev, rest := events[0], events[1..];
    FirstAnswers(s, events);
    hide *;
    StepGood(s, ev);
    NotExited(s, ev, rest);
    TellsMore(s, ev, before);
    AnswersTold(Step(s, ev), rest, before + AnsweredBy(s, ev));
    Associate(before, AnsweredBy(s, ev), Answered(Step(s, ev), rest));
  }

  lemma FirstAnswers(s: Pool, events: seq<Event>)
    requires Linked(s) && Legal(s, events) && events != []
    ensures Enabled(s, events[0]) && Legal(Step(s, events[0]), events[1..])
    ensures After(s, events) == After(Step(s, events[0]), events[1..])
    ensures Answered(s, events) == AnsweredBy(s, events[0]) + Answered(Step(s, events[0]), events[1..])
  {
    hide Step, Enabled, Linked, AnsweredBy;
  }

  lemma NotExited(s: Pool, ev: Event, rest: seq<Event>)
    requires Good(s) && Linked(s) && Enabled(s, ev) && Legal(Step(s, ev), rest) && !After(Step(s, ev), rest).p.exited
    ensures !Exits(s, ev)
  {
    StepGood(s, ev);
    if Exits(s, ev) {
      FlagQueues(s, ev.order);
      hide Good, Step, Enabled, Linked;
      ExitedForGood(Step(s, ev), rest);
    }
  }

  lemma TellsMore(s: Pool, ev: Event, before: seq<BindRequest>)
    requires Linked(s) && Enabled(s, ev) && !Exits(s, ev) && Tells(s.log.bound, before)
    ensures Tells(Step(s, ev).log.bound, before + AnsweredBy(s, ev))
  {
    StepTells(s, ev);
    assert ev.TurnBind? ==> s.q.bindCopy != [];
    hide Step, Linked, Enabled;
    var later := Step(s, ev).log.bound;
    if ev.TurnBind? {
      var all := before + AnsweredBy(s, ev);
      assert AnsweredBy(s, ev) == [s.q.bindCopy[0]];
      forall i | 0 <= i < |later| ensures later[i].node == all[i].node {
        if i < |before| { assert later[i] == later[..|before|][i]; }
      }
    }
  }

  // -------------------------------------------------------------------- exit

  lemma {:induction false} BoundForGood(s: Pool, events: seq<Event>)
    requires Good(s) && s.p.exited && Legal(s, events)
    ensures After(s, events).log.bound == s.log.bound
    decreases |events|
  {
    GoodCopies(s);
    hide Good, Step, Linked;
    GoodLinked(s);
    if events != [] {
      StepTells(s, events[0]);
      StepGood(s, events[0]);
      PoolExitStays(s, events[0]);
      hide Enabled;
      BoundForGood(Step(s, events[0]), events[1..]);
    }
  }

  lemma PoolExitStays(s: Pool, ev: Event)
    requires Good(s) && Linked(s) && s.p.exited && Enabled(s, ev)
    ensures Step(s, ev).p.exited
  {
    assert NoTables(s.t);
    hide Inv, FlowInv, Step, Enabled, Linked;
    ExitedStaysQuiet(s, ev);
  }

  /** The answers to the bind requests of a whole run that exits: those told before the
      exit flag is read, then one for each request taken over by then. They answer the
      first requests in order, and every request if and only if none was pending at that
      moment; nothing later changes it. */
  lemma AllBindsAnsweredIff(before: seq<Event>, order: ExitEnv, later: seq<Event>)
    requires Legal(Init(), before)
    requires var s := After(Init(), before);
      Linked(s) && s.p.wantExit && Enabled(s, ReadFlag(order)) && Legal(Step(s, ReadFlag(order)), later)
    ensures var s := After(Init(), before); var r := After(Step(s, ReadFlag(order)), later);
      var last := AllDown(RequestNodes(s.q.bindCopy)); var asked := Asked(before);
      && r.log.bound == s.log.bound + (AllDown(order.servers) + AllDown(order.udpServers)) + last
      && |s.log.bound + last| <= |asked| && Tells(s.log.bound + last, asked[..|s.log.bound + last|])
      && (Tells(s.log.bound + last, asked) <==> s.q.pendingBind == [])
      && r.q.pendingBind == s.q.pendingBind == asked[|s.log.bound + last|..] && Asked(later) == []
  {
    var s := After(Init(), before);
    InitGood();
    hide Good, Linked, Enabled, Step, Legal, After, Answered, Asked, Tells, AllDown, RequestNodes, Init;
    RunGood(Init(), before);
    NothingYet();
    BindsInOrder(Init(), before);
    FlagFacts(s, order);
    AnswersTold(Init(), before, []);
    assert [] + Answered(Init(), before) == Answered(Init(), before);
    AnswersSplit(s, Answered(Init(), before), Asked(before));
    AfterFlag(s, order, later);
  }

  lemma NothingYet()
    ensures Init().log.bound == [] && Open(Init().q) == [] && Tells(Init().log.bound, [])
    ensures forall xs: seq<BindRequest> :: Open(Init().q) + xs == xs
  {
  }

  lemma FlagFacts(s: Pool, order: ExitEnv)
    requires Good(s) && Enabled(s, ReadFlag(order))
    ensures !s.p.exited
  {
  }

  /** What the exit tells, and that nothing is told or asked after it. */
  lemma AfterFlag(s: Pool, order: ExitEnv, later: seq<Event>)
    requires Good(s) && Linked(s) && s.p.wantExit && Enabled(s, ReadFlag(order)) && Legal(Step(s, ReadFlag(order)), later)
    ensures var r := After(Step(s, ReadFlag(order)), later);
      && r.log.bound == s.log.bound + (AllDown(order.servers) + AllDown(order.udpServers)) + AllDown(RequestNodes(s.q.bindCopy))
      && r.q.pendingBind == s.q.pendingBind && Asked(later) == []
  {
    var t := Step(s, ReadFlag(order));
    StepGood(s, ReadFlag(order));
    StepTells(s, ReadFlag(order));
    FlagQueues(s, order);
    hide Good, Step, Linked, Enabled, Legal, After, Asked;
    ExitedForGood(t, later);
    BoundForGood(t, later);
    NobodyAsks(t, later);
  }

  /** After the exit nobody calls any more. */
  lemma {:induction false} NobodyAsks(s: Pool, events: seq<Event>)
    requires Good(s) && s.p.exited && Legal(s, events)
    ensures Asked(events) == []
    decreases |events|
  {
    assert s.p.wantExit;
    hide Good, Step, Linked;
    GoodLinked(s);
    if events != [] {
      StepGood(s, events[0]);
      PoolExitStays(s, events[0]);
      assert !events[0].CallBind?;
      hide Enabled;
      NobodyAsks(Step(s, events[0]), events[1..]);
    }
  }

  lemma AnswersSplit(s: Pool, answered: seq<BindRequest>, asked: seq<BindRequest>)
    requires answered + Open(s.q) == asked && Tells(s.log.bound, answered)
    ensures var told := s.log.bound + AllDown(RequestNodes(s.q.bindCopy));
      && |told| <= |asked| && Tells(told, asked[..|told|]) && s.q.pendingBind == asked[|told|..]
      && (Tells(told, asked) <==> s.q.pendingBind == [])
  {
    var told := s.log.bound + AllDown(RequestNodes(s.q.bindCopy));
    assert asked[..|told|] == answered + s.q.bindCopy;
    assert s.q.pendingBind == [] ==> asked[..|told|] == asked;
  }
}
