/** The promises of the pool, read off the invariant for every run. */
module PoolTheorems {
  import opened Common
  import opened PoolModel
  import opened PoolHeap
  import opened PoolTables
  import opened PoolSteps
  import opened PoolFlow
  import opened PoolRuns

  // ------------------------------------------------------------ after exit

  /** Only downs are added to the notifications. */
  predicate OnlyDowns(log: seq<Status>, later: seq<Status>) {
    log <= later && forall i :: |log| <= i < |later| ==> !later[i].up
  }

  /** What any callback leaves of an exited pool. */
  ghost predicate Quiet(s: Pool, r: Pool) {
    r.q == s.q && r.p == s.p && NoTables(r.t) && OnlyDowns(s.log.status, r.log.status)
  }

  lemma ShutdownQuiet(s: Pool, id: nat, always: bool, graceful: bool, ok: bool)
    requires id in s.h.conns && NoTables(s.t)
    ensures Quiet(s, Shutdown(s, id, always, graceful, ok))
  {
    hide Shutdown, CloseConn, ShutdownConn;
    ShutdownIs(s, id, always, graceful, ok);
  }

  lemma ResetIdleQuiet(s: Pool, id: nat, queueEmpty: bool, timer: bool)
    requires id in s.h.conns && NoTables(s.t)
    ensures Quiet(s, ResetIdle(s, id, queueEmpty, timer))
  {
    hide Shutdown;
    ShutdownQuiet(s, id, false, false, false);
  }

  /** No listening and no connecting object is open once the tables are empty. */
  lemma NothingOpens(s: Pool, id: nat)
    requires Inv(s) && NoTables(s.t) && id in s.h.conns
    ensures s.h.conns[id].server || s.h.conns[id].connectReq ==> s.h.conns[id].closing
  {
  }

  /** After the exit step the tables stay empty, whatever still calls back, and no
      connection is ever reported up again. */
  lemma ExitedStaysQuiet(s: Pool, ev: Event)
    requires Good(s) && Linked(s) && s.p.exited && Enabled(s, ev)
    ensures Quiet(s, Step(s, ev)) || ev.CallSignal?
    ensures ev.CallSignal? ==> Step(s, ev) == s.(p := s.p.(signalled := true))
  {
    hide Inv, FlowInv, Shutdown, ResetIdle, Startup, CloseConn, TcpClosed, TimerClosed;
    match ev
    case CallSignal =>
    case OnNewConnection(id, _) => NothingOpens(s, id);
    case OnConnectDone(id, e) =>
      NothingOpens(s, id);
      var c := s.h.conns[id].(connectReq := false);
      var s1 := s.(t := s.t.(connecting := s.t.connecting - {id}), h := SetConn(s.h, id, c));
      assert s.t.connecting - {id} == {};
      ShutdownQuiet(s1, id, true, false, false);
    case OnWriteDone(k, e) =>
      var w := s.h.writes[k];
      var s1 := s.(h := WithoutWrite(s.h, k), log := s.log.(freed := s.log.freed + w.messages));
      ShutdownQuiet(s1.(log := s1.log.(dropped := s1.log.dropped + w.messages)), w.conn, false, false, false);
      ResetIdleQuiet(s1.(log := s1.log.(written := s1.log.written + w.messages)), w.conn, e.queueEmpty, e.timer);
    case OnRead(id, got, queueEmpty, timer) =>
      ResetIdleQuiet(s, id, queueEmpty, timer);
      ShutdownQuiet(s, id, false, false, false);
    case OnTimeout(id) =>
      ShutdownQuiet(s.(h := SetConn(s.h, id, s.h.conns[id].(armed := false))), id, false, false, false);
    case OnShutdownDone(id) =>
    case OnTcpClosed(id) =>
    case OnTimerClosed(id) =>
  }

  // -------------------------------------------------------------- the queues

  lemma StartupQueues(s: Pool, id: nat, e: SendEnv)
    requires id in s.h.conns
    ensures Startup(s, id, e).q == s.q && Startup(s, id, e).p == s.p
  {
    hide CloseConn, ShutdownConn;
  }

  lemma NewConnectionQueues(s: Pool, e: NewEnv)
    ensures NewConnection(s, e).q == s.q && NewConnection(s, e).p == s.p
  {
    hide CloseConn, Startup, Alloc;
    var (h1, made) := Alloc(s.h, true, e.alloc);
    if made.Some? && made.value in h1.conns {
      var c := h1.conns[made.value].(node := Node(Tcp, e.address), armed := true, reading := true);
      StartupQueues(s.(h := SetConn(h1, made.value, c)), made.value, e.send);
    }
  }

  lemma ConnectDoneQueues(s: Pool, id: nat, e: DoneEnv)
    requires id in s.h.conns
    ensures ConnectDone(s, id, e).q == s.q && ConnectDone(s, id, e).p == s.p
  {
    hide CloseConn, Startup;
    var c := s.h.conns[id].(connectReq := false);
    var s1 := s.(t := s.t.(connecting := s.t.connecting - {id}), h := SetConn(s.h, id, c));
    StartupQueues(s1.(h := SetConn(s1.h, id, c.(armed := true, reading := true))), id, e.send);
  }

  lemma CallbackQueues(s: Pool, ev: Event)
    requires Linked(s) && Enabled(s, ev)
    requires ev.OnNewConnection? || ev.OnConnectDone? || ev.OnWriteDone? || ev.OnRead? || ev.OnTimeout?
      || ev.OnShutdownDone? || ev.OnTcpClosed? || ev.OnTimerClosed?
    ensures Step(s, ev).q == s.q && Step(s, ev).p == s.p
  {
    hide CloseConn, ShutdownConn, NewConnection, ConnectDone, TcpClosed, TimerClosed;
    match ev
    case OnNewConnection(_, e) => NewConnectionQueues(s, e);
    case OnConnectDone(id, e) => ConnectDoneQueues(s, id, e);
    case OnWriteDone(_, _) =>
    case OnRead(_, _, _, _) =>
    case OnTimeout(_) =>
    case OnShutdownDone(_) =>
    case OnTcpClosed(_) =>
    case OnTimerClosed(_) =>
  }

  lemma TurnQueues(s: Pool, ev: Event)
    requires Linked(s) && Enabled(s, ev) && (ev.TurnBind? || ev.TurnSend? || ev.TurnClose?)
    ensures Step(s, ev).p == s.p
    ensures ev.TurnBind? ==> Step(s, ev).q == s.q.(bindCopy := s.q.bindCopy[1..])
    ensures ev.TurnSend? ==> Step(s, ev).q == s.q.(sendCopy := s.q.sendCopy[1..])
    ensures ev.TurnClose? ==> Step(s, ev).q == s.q.(closeCopy := s.q.closeCopy[1..])
  {
    hide CloseConn, ShutdownConn, Connect, Listen;
  }

  lemma StepQueues(s: Pool, ev: Event)
    requires Good(s) && Linked(s) && Enabled(s, ev)
    ensures QueuesOk(Step(s, ev))
  {
    hide Inv, FlowInv, Exit;
    if s.p.exited {
      hide Step;
      ExitedStaysQuiet(s, ev);
    } else {
      match ev
      case CallBind(_, _) =>
      case CallSend(node, length, autoConnect) => EnqueueQueues(s.q, s.p.seen, node, length, autoConnect);
      case CallClose(_, _) =>
      case CallDestroy =>
      case CallSignal =>
      case Wakeup =>
      case ReadFlag(order) => if s.p.wantExit { ExitQueues(s, order); }
      case TurnBind(_) => TurnQueues(s, ev);
      case TurnSend(_) => TurnQueues(s, ev);
      case TurnClose(_) => TurnQueues(s, ev);
      case WakeupEnd =>
      case OnNewConnection(_, _) => CallbackQueues(s, ev);
      case OnConnectDone(_, _) => CallbackQueues(s, ev);
      case OnWriteDone(_, _) => CallbackQueues(s, ev);
      case OnRead(_, _, _, _) => CallbackQueues(s, ev);
      case OnTimeout(_) => CallbackQueues(s, ev);
      case OnShutdownDone(_) => CallbackQueues(s, ev);
      case OnTcpClosed(_) => CallbackQueues(s, ev);
      case OnTimerClosed(_) => CallbackQueues(s, ev);
    }
  }

  lemma ExitQueues(s: Pool, e: ExitEnv)
    requires ExitOrder(s.t, e) && s.p.wantExit && QueuesOk(s)
    ensures QueuesOk(Exit(s, e))
  {
  }

  lemma EnqueueQueues(q: Queues, seen: nat, node: Node, length: nat, autoConnect: bool)
    requires seen <= |q.accepted| && q.pendingSend == q.accepted[seen..]
    ensures var r := Enqueue(q, node, length, autoConnect); seen <= |r.accepted| && r.pendingSend == r.accepted[seen..]
  {
    var m := Message(|q.accepted|, node, autoConnect);
    assert (q.accepted + [m])[seen..] == q.accepted[seen..] + [m];
  }

  // -------------------------------------------------------------------- runs

  /** Each event is one the environment may produce at that point. Steps need the
      objects they touch to exist; the run theorem shows that they always do. */
  ghost predicate Legal(s: Pool, events: seq<Event>)
    decreases |events|
  {
    events == [] || (Enabled(s, events[0]) && (Linked(s) ==> Legal(Step(s, events[0]), events[1..])))
  }

  ghost function After(s: Pool, events: seq<Event>): Pool
    requires Legal(s, events)
    decreases |events|
  {
    if events == [] || !Linked(s) then s else After(Step(s, events[0]), events[1..])
  }

  lemma InitGood()
    ensures Good(Init())
  {
    var f := FlowOf(Init());
    forall m ensures Places(f, m) == if IsAccepted(f, m) then 1 else 0 {}
  }

  lemma StepGood(s: Pool, ev: Event)
    requires Good(s) && Enabled(s, ev)
    ensures Linked(s) && Good(Step(s, ev))
  {
    hide Inv, FlowInv, QueuesOk, Step;
    InvLinked(s);
    StepInv(s, ev);
    StepFlow(s, ev);
    StepQueues(s, ev);
  }

  /** Every state of every run is good, and no step of it touches an object that does
      not exist: connection objects reached through a table or a pending request are
      never deleted ones. */
  lemma {:induction false} RunGood(s: Pool, events: seq<Event>)
    requires Good(s) && Legal(s, events)
    ensures Good(After(s, events)) && Linked(After(s, events))
    decreases |events|
  {
    hide Good, Step, Enabled, Linked;
    GoodLinked(s);
    if events != [] {
      StepGood(s, events[0]);
      RunGood(Step(s, events[0]), events[1..]);
    }
  }

  lemma GoodLinked(s: Pool)
    requires Good(s)
    ensures Linked(s)
  {
    InvLinked(s);
  }

  lemma RunStart(s: Pool, ev: Event)
    requires Good(s) && Enabled(s, ev)
    ensures Legal(s, [ev]) && Linked(s) && After(s, [ev]) == Step(s, ev)
  {
    hide Good, Enabled, Step;
    StepGood(s, ev);
    assert [ev][1..] == [];
    assert Legal(Step(s, ev), []);
  }

  /** A run goes on with one more event. */
  lemma {:induction false} RunSnoc(s: Pool, events: seq<Event>, ev: Event)
    requires Good(s) && Legal(s, events) && Enabled(After(s, events), ev)
    ensures Legal(s, events + [ev]) && Linked(After(s, events)) && After(s, events + [ev]) == Step(After(s, events), ev)
    decreases |events|
  {
    hide Good, Enabled, Step, Linked;
    GoodLinked(s);
    if events == [] {
      assert events + [ev] == [ev];
      RunStart(s, ev);
    } else {
      StepGood(s, events[0]);
      RunSnoc(Step(s, events[0]), events[1..], ev);
      assert (events + [ev])[1..] == events[1..] + [ev];
    }
  }

  /** Between calls of `on_wakeup` no copies are left. */
  lemma GoodCopies(s: Pool)
    requires Good(s)
    ensures !s.p.awake ==> !s.p.testing && s.q.bindCopy == [] && s.q.sendCopy == [] && s.q.closeCopy == []
    ensures s.p.exited ==> !s.p.awake
  {
  }

  ghost predicate Reachable(s: Pool) {
    exists events :: Legal(Init(), events) && After(Init(), events) == s
  }

  lemma ReachableGood(s: Pool)
    requires Reachable(s)
    ensures Good(s) && Linked(s)
  {
    hide Good, Legal, After, Linked;
    var events :| Legal(Init(), events) && After(Init(), events) == s;
    InitGood();
    RunGood(Init(), events);
  }

  /** Once the pool has exited its tables are empty for good, and no run after that
      ever reports a connection up again. */
  lemma {:induction false} ExitedForGood(s: Pool, events: seq<Event>)
    requires Good(s) && s.p.exited && Legal(s, events)
    ensures var r := After(s, events);
      r.p.exited && r.q == s.q && NoTables(r.t) && OnlyDowns(s.log.status, r.log.status)
    decreases |events|
  {
    assert NoTables(s.t);
    hide Inv, FlowInv, Step, Enabled, Linked;
    GoodLinked(s);
    if events != [] {
      StepGood(s, events[0]);
      ExitedStaysQuiet(s, events[0]);
      ExitedForGood(Step(s, events[0]), events[1..]);
    }
  }

  lemma ReachableStep(s: Pool, ev: Event)
    requires Reachable(s) && Enabled(s, ev)
    ensures Linked(s) && Reachable(Step(s, ev))
  {
    hide Good, Linked, Legal, After, Enabled, Step;
    var events :| Legal(Init(), events) && After(Init(), events) == s;
    InitGood();
    RunSnoc(Init(), events, ev);
  }

  lemma StartReachable()
    ensures Reachable(Init())
  {
    assert Legal(Init(), []) && After(Init(), []) == Init();
  }

  // ---------------------------------------------------------------- promises

  /** Each accepted message is in exactly one of: pending, taken over, waiting, in
      flight, written, dropped, sent as a datagram; so it is dropped at most once,
      and its block is freed exactly once when it is at the end of its way and not
      before. */
  lemma MessagesConserved(s: Pool, i: nat)
    requires Reachable(s) && i < |s.q.accepted|
    ensures var m := s.q.accepted[i]; var f := FlowOf(s);
      && m.serial == i
      && Places(f, m) == 1
      && Count(s.log.dropped, m) <= 1
      && Count(s.log.freed, m) == Count(s.log.written, m) + Count(s.log.dropped, m) + Count(s.log.udp, m) <= 1
  {
    ReachableGood(s);
    assert IsAccepted(FlowOf(s), s.q.accepted[i]);
  }

  /** Nothing appears from nowhere. */
  lemma NothingInvented(s: Pool, m: Message)
    requires Reachable(s) && Places(FlowOf(s), m) > 0
    ensures m.serial < |s.q.accepted| && s.q.accepted[m.serial] == m
  {
    ReachableGood(s);
    assert IsAccepted(FlowOf(s), m);
  }

  /** An open object that libuv is connecting to `n`, with its timer running. */
  predicate Coming(s: Pool, n: Node, id: nat) {
    && id in s.t.connecting && id in s.h.conns
    && s.h.conns[id].node == n && !s.h.conns[id].closing && s.h.conns[id].connectReq && s.h.conns[id].armed
  }

  /** Messages wait only where somebody is coming for them. */
  lemma NothingStranded(s: Pool, n: Node)
    requires Reachable(s) && n in s.t.waiting
    ensures n !in s.t.stream && s.t.waiting[n] != []
    ensures exists id :: Coming(s, n, id)
  {
    ReachableGood(s);
    var id :| Dialing(s.t, s.h, n, id);
    assert ConnOk(s.h.conns[id]);
    assert Coming(s, n, id);
  }

  /** For each node, what was handed to `uv_write` over all its connections is a
      subsequence of what `send` accepted: a later hand-over has a later position in
      the accepted messages. What waits comes after that and before what is pending. */
  lemma FifoPerNode(s: Pool, i: nat, j: nat)
    requires Reachable(s) && i < j < |s.log.handed| && s.log.handed[i].node == s.log.handed[j].node
    ensures var a, b := s.log.handed[i].serial, s.log.handed[j].serial;
      a < b < |s.q.accepted|
  {
    ReachableGood(s);
  }

  lemma WaitingInBetween(s: Pool, n: Node, k: nat)
    requires Reachable(s) && n in s.t.waiting && k < |s.t.waiting[n]|
    ensures forall i :: 0 <= i < |s.log.handed| && s.log.handed[i].node == n ==> s.log.handed[i].serial < s.t.waiting[n][k].serial
    ensures forall i :: 0 <= i < |s.q.sendCopy| ==> s.t.waiting[n][k].serial < s.q.sendCopy[i].serial
    ensures forall i :: 0 <= i < |s.q.pendingSend| ==> s.t.waiting[n][k].serial < s.q.pendingSend[i].serial
  {
    ReachableGood(s);
    assert WaitOrdered(FlowOf(s), n, s.t.waiting[n]);
  }

  /** The table of established connections and the notifications agree, up is only
      reported for an absent node, and each entry is an open object of its node. */
  lemma TableAgreement(s: Pool, n: Node)
    requires Reachable(s)
    ensures Up(s.log.status, n) <==> n in s.t.stream
    ensures Alternates(s.log.status)
    ensures n in s.t.stream ==> s.t.stream[n] in s.h.conns && Established(s.h.conns[s.t.stream[n]], n)
    ensures Up(s.log.bound, n) <==> n in s.t.servers || n in s.t.udpServers
    ensures n in s.t.servers ==> s.t.servers[n] in s.h.conns && Listening(s.h.conns[s.t.servers[n]], n)
  {
    ReachableGood(s);
  }

  /** In every state each handle has been closed at most once, every object was
      deleted at most once, and one that was is gone. */
  lemma ObjectsClosedOnce(s: Pool)
    requires Reachable(s)
    ensures forall id :: id in s.h.conns ==> s.h.conns[id].tcpCloses <= 1 && s.h.conns[id].timerCloses <= 1
    ensures forall i, j :: 0 <= i < j < |s.h.deleted| ==> s.h.deleted[i] != s.h.deleted[j]
    ensures forall i :: 0 <= i < |s.h.deleted| ==> s.h.deleted[i] !in s.h.conns
    ensures forall id :: 0 <= id < s.h.next ==> id in s.h.conns || id in s.h.deleted
  {
    ReachableGood(s);
    forall id | id in s.h.conns ensures s.h.conns[id].tcpCloses <= 1 && s.h.conns[id].timerCloses <= 1 {
      assert ConnOk(s.h.conns[id]);
    }
  }

  /** An open connection always has a running timer, and when it fires the object is
      put into closing: no connection lives for ever unattended. */
  lemma BoundedLifetime(s: Pool, id: nat)
    requires Reachable(s) && id in s.h.conns && !s.h.conns[id].server && !s.h.conns[id].closing
    ensures s.h.conns[id].armed
    ensures Linked(s) && (!s.p.awake ==>
      && Enabled(s, OnTimeout(id))
      && var r := Step(s, OnTimeout(id)); id in r.h.conns && r.h.conns[id].closing)
  {
    hide FlowInv, QueuesOk, TablesInv, StatusOk, BoundOk, Alternates, Shutdown;
    ReachableGood(s);
    assert ConnOk(s.h.conns[id]);
    if !s.p.awake {
      TimeoutIs(s, id);
      ShutdownIs(s, id, false, false, false);
    }
  }

  /** An event of the loop thread that has to happen before the loop can end. */
  predicate Callback(ev: Event) {
    ev.OnConnectDone? || ev.OnWriteDone? || ev.OnTimeout? || ev.OnShutdownDone? || ev.OnTcpClosed? || ev.OnTimerClosed?
  }

  const SOME_SEND := SendEnv(false, false, false)

  /** A callback that is due for this object. */
  ghost predicate Owed(s: Pool, id: nat) {
    || Enabled(s, OnConnectDone(id, DoneEnv(true, true, true, SOME_SEND)))
    || Enabled(s, OnShutdownDone(id)) || Enabled(s, OnTimeout(id))
    || Enabled(s, OnTcpClosed(id)) || Enabled(s, OnTimerClosed(id))
  }

  /** No deadlock: for every object that is not a listening server libuv owes the pool
      a callback, so each one is on its way to being deleted. */
  lemma AlwaysOwed(s: Pool, id: nat)
    requires Good(s) && !s.p.awake && id in s.h.conns && (s.h.conns[id].server ==> s.h.conns[id].closing)
    ensures Owed(s, id) || !NoWrites(s.h, id)
  {
    assert ConnOk(s.h.conns[id]);
    hide Inv, FlowInv, NoWrites;
  }

  lemma NoObjectLeft(s: Pool, id: nat)
    requires Good(s) && s.p.exited && s.h.writes == []
    requires forall ev :: Callback(ev) ==> !Enabled(s, ev)
    ensures id !in s.h.conns
  {
    if id in s.h.conns {
      hide Inv, FlowInv, Enabled;
      assert NoTables(s.t) && !s.p.awake;
      NothingOpens(s, id);
      AlwaysOwed(s, id);
    }
  }

  /** How often the way of a message has ended. */
  function Ended(s: Pool, m: Message): nat {
    Count(s.log.written, m) + Count(s.log.dropped, m) + Count(s.log.udp, m)
  }

  /** When the pool has exited and libuv owes it nothing more, every object it ever made
      is deleted, and what became of a message depends on when it was accepted. Before
      the last take-over of the queues: written, dropped or sent as a datagram, exactly
      one of them, and freed once. After it: none of them, left in the pending queue. */
  lemma NothingLeft(s: Pool)
    requires Reachable(s) && s.p.exited
    requires forall ev :: Callback(ev) ==> !Enabled(s, ev)
    ensures s.h.conns == map[] && s.h.writes == []
    ensures forall id :: 0 <= id < s.h.next ==> id in s.h.deleted
    ensures s.p.seen <= |s.q.accepted| && s.q.pendingSend == s.q.accepted[s.p.seen..]
    ensures forall i :: 0 <= i < |s.q.accepted| ==>
      var m := s.q.accepted[i];
      Ended(s, m) == Count(s.log.freed, m) == if i < s.p.seen then 1 else 0
  {
    ReachableGood(s);
    NoWriteLeft(s);
    forall id: nat ensures id !in s.h.conns {
      NoObjectLeft(s, id);
    }
    assert s.h.conns.Keys == {};
    assert DeletedOk(s.h);
    hide Reachable, Inv, FlowInv, Places, Ended;
    forall i | 0 <= i < |s.q.accepted|
      ensures var m := s.q.accepted[i]; Ended(s, m) == Count(s.log.freed, m) == if i < s.p.seen then 1 else 0
    {
      MessageAtEnd(s, i);
    }
  }

  lemma {:induction false} ReachableRun(s: Pool, events: seq<Event>)
    requires Reachable(s) && Legal(s, events)
    ensures Reachable(After(s, events))
    decreases |events|
  {
    hide Reachable, Enabled, Step, Linked;
    if events != [] {
      ReachableStep(s, events[0]);
      ReachableRun(Step(s, events[0]), events[1..]);
    } else {
      assert After(s, events) == s;
    }
  }

  lemma EndedIffNonePending(s: Pool)
    requires Reachable(s) && s.p.exited
    requires forall ev :: Callback(ev) ==> !Enabled(s, ev)
    ensures (forall i :: 0 <= i < |s.q.accepted| ==> Ended(s, s.q.accepted[i]) == 1) <==> s.q.pendingSend == []
  {
    NothingLeft(s);
    hide Reachable, Ended;
    if s.q.pendingSend != [] {
      assert Ended(s, s.q.accepted[s.p.seen]) == 0;
    }
  }

  /** So when the exit flag is read and found set, it is decided which messages are lost:
      in every run after it that ends with nothing due, all accepted messages came to
      their end if and only if none was pending at that moment. */
  lemma AllEndedIff(s: Pool, order: ExitEnv, events: seq<Event>)
    requires Reachable(s) && Linked(s) && s.p.wantExit && Enabled(s, ReadFlag(order))
    requires Legal(Step(s, ReadFlag(order)), events)
    requires forall ev :: Callback(ev) ==> !Enabled(After(Step(s, ReadFlag(order)), events), ev)
    ensures var r := After(Step(s, ReadFlag(order)), events);
      && r.q.accepted == s.q.accepted
      && ((forall i :: 0 <= i < |s.q.accepted| ==> Ended(r, s.q.accepted[i]) == 1) <==> s.q.pendingSend == [])
  {
    var t := Step(s, ReadFlag(order));
    FlagQueues(s, order);
    ReachableStep(s, ReadFlag(order));
    ReachableGood(t);
    hide Reachable, Good, Enabled, Step, Linked, Ended, Callback;
    ExitedForGood(t, events);
    ReachableRun(t, events);
    EndedIffNonePending(After(t, events));
  }

  /** What the exit leaves of the queues. */
  lemma FlagQueues(s: Pool, order: ExitEnv)
    requires Linked(s) && s.p.wantExit && Enabled(s, ReadFlag(order))
    ensures var t := Step(s, ReadFlag(order));
      t.p.exited && t.q == s.q.(bindCopy := [], sendCopy := [], closeCopy := [])
  {
    hide CloseAll, Ids, WaitingFor;
  }

  lemma NoWriteLeft(s: Pool)
    requires Good(s) && s.p.exited
    requires forall ev :: Callback(ev) ==> !Enabled(s, ev)
    ensures s.h.writes == []
  {
    hide Inv, FlowInv;
    var ev := OnWriteDone(0, WriteEnv(true, true, true));
    assert Callback(ev) && !Enabled(s, ev);
  }

  /** The pending messages are those accepted since the last take-over. */
  lemma PendingIs(s: Pool, i: nat)
    requires Good(s) && i < |s.q.accepted|
    ensures Count(s.q.pendingSend, s.q.accepted[i]) == if i < s.p.seen then 0 else 1
  {
    var m := s.q.accepted[i];
    var f := FlowOf(s);
    assert IsAccepted(f, m) && Places(f, m) == 1;
    if i < s.p.seen {
      forall k | 0 <= k < |s.q.pendingSend| ensures s.q.pendingSend[k] != m {
        assert s.q.pendingSend[k] == s.q.accepted[s.p.seen + k];
        assert s.q.accepted[s.p.seen + k].serial == s.p.seen + k;
      }
      assert m !in s.q.pendingSend;
    } else {
      assert s.q.pendingSend[i - s.p.seen] == m;
      assert m in s.q.pendingSend;
    }
  }

  lemma MessageAtEnd(s: Pool, i: nat)
    requires Reachable(s) && s.p.exited && s.h.writes == [] && i < |s.q.accepted|
    ensures var m := s.q.accepted[i]; Ended(s, m) == Count(s.log.freed, m) == if i < s.p.seen then 1 else 0
  {
    MessagesConserved(s, i);
    ReachableGood(s);
    PendingIs(s, i);
    hide Reachable, Inv, FlowInv;
  }

  /** Only the take-over moves the boundary between the two kinds of message. */
  lemma SeenMoves(s: Pool, ev: Event)
    requires Good(s) && Linked(s) && Enabled(s, ev)
    ensures Step(s, ev).p.seen == if ev.Wakeup? then |s.q.accepted| else s.p.seen
  {
    hide Inv, FlowInv, Exit, BindOne, SendOne, CloseOne, NewConnection, ConnectDone, WriteDone, Read, Timeout, CloseConn;
    match ev
    case ReadFlag(order) => if s.p.wantExit { ExitPhase(s, order); }
    case TurnBind(_) => TurnQueues(s, ev);
    case TurnSend(_) => TurnQueues(s, ev);
    case TurnClose(_) => TurnQueues(s, ev);
    case OnNewConnection(_, _) => CallbackQueues(s, ev);
    case OnConnectDone(_, _) => CallbackQueues(s, ev);
    case OnWriteDone(_, _) => CallbackQueues(s, ev);
    case OnRead(_, _, _, _) => CallbackQueues(s, ev);
    case OnTimeout(_) => CallbackQueues(s, ev);
    case OnShutdownDone(_) => CallbackQueues(s, ev);
    case OnTcpClosed(_) => CallbackQueues(s, ev);
    case OnTimerClosed(_) => CallbackQueues(s, ev);
    case _ =>
  }

  lemma ExitPhase(s: Pool, e: ExitEnv)
    requires ExitOrder(s.t, e)
    ensures Exit(s, e).p == s.p.(exited := true, awake := false, testing := false)
  {
    hide CloseAll, Ids;
  }

  // ------------------------------------------------------ objects and steps

  lemma ClosedKeeps(h: Heap, id: nat)
    requires HeapInv(h) && id in h.conns
    ensures CloseConn(h, id).conns.Keys == h.conns.Keys
  {
    hide HeapInv, CloseConn;
    CloseConnInv(h, id);
  }

  lemma ShutdownKeeps(s: Pool, id: nat, always: bool, graceful: bool, ok: bool)
    requires HeapInv(s.h) && id in s.h.conns
    ensures Shutdown(s, id, always, graceful, ok).h.conns.Keys == s.h.conns.Keys
  {
    hide HeapInv, CloseConn, Shutdown;
    ShutdownIs(s, id, always, graceful, ok);
    ClosedKeeps(s.h, id);
  }

  lemma SendOnKeeps(s: Pool, id: nat, messages: seq<Message>, e: SendEnv)
    requires HeapInv(s.h) && id in s.h.conns
    ensures SendOn(s, id, messages, e).h.conns.Keys == s.h.conns.Keys
  {
    hide HeapInv, Shutdown;
    ShutdownKeeps(Drop(s, messages), id, false, false, false);
  }

  lemma StartupKeeps(s: Pool, id: nat, e: SendEnv)
    requires HeapInv(s.h) && id in s.h.conns
    ensures Startup(s, id, e).h.conns.Keys == s.h.conns.Keys
  {
    hide HeapInv, SendOn, CloseConn;
    var node := s.h.conns[id].node;
    ClosedKeeps(s.h, id);
    if node.address.Ip? && node !in s.t.stream {
      StartupIs(s, id, e);
      if node in s.t.waiting { SendOnKeeps(Risen(s, id), id, s.t.waiting[node], e); }
    }
  }

  lemma AllocKeeps(h: Heap, timer: bool, e: AllocEnv)
    requires HeapInv(h)
    ensures h.conns.Keys <= Alloc(h, timer, e).0.conns.Keys
  {
    hide HeapInv, Alloc;
    AllocInv(h, timer, e);
  }

  lemma ConnectKeeps(h: Heap, node: Node, e: ConnectEnv)
    requires HeapInv(h)
    ensures h.conns.Keys <= Connect(h, node, e).0.conns.Keys
  {
    hide HeapInv, Connect;
    ConnectIs(h, node, e);
  }

  lemma ListenKeeps(h: Heap, node: Node, e: BindEnv)
    requires HeapInv(h)
    ensures h.conns.Keys <= Listen(h, node, e).0.conns.Keys
  {
    hide HeapInv, Listen;
    ListenIs(h, node, e);
  }

  lemma ResetIdleKeeps(s: Pool, id: nat, queueEmpty: bool, timer: bool)
    requires HeapInv(s.h) && id in s.h.conns
    ensures ResetIdle(s, id, queueEmpty, timer).h.conns.Keys == s.h.conns.Keys
  {
    hide HeapInv, Shutdown;
    ShutdownKeeps(s, id, false, false, false);
  }

  lemma SendOneKeeps(s: Pool, m: Message, e: DeliverEnv)
    requires Inv(s) && Linked(s)
    ensures s.h.conns.Keys <= SendOne(s, m, e).h.conns.Keys
  {
    hide HeapInv, Connect, SendOn;
    ConnectKeeps(s.h, m.node, e.connect);
    if m.node in s.t.stream { SendOnKeeps(s, s.t.stream[m.node], [m], e.send); }
  }

  lemma ConnectDoneKeeps(s: Pool, id: nat, e: DoneEnv)
    requires Inv(s) && id in s.h.conns && s.h.conns[id].connectReq
    ensures ConnectDone(s, id, e).h.conns.Keys == s.h.conns.Keys
  {
    hide HeapInv, Startup, Shutdown;
    DialFacts(s, id);
    var c := s.h.conns[id].(connectReq := false);
    var s1 := s.(t := s.t.(connecting := s.t.connecting - {id}), h := SetConn(s.h, id, c));
    SetConnInv(s.h, id, c);
    ShutdownKeeps(s1, id, true, false, false);
    if e.status && !c.closing && e.timer {
      var a, b := c.(armed := true), c.(armed := true, reading := true);
      SetConnInv(s1.h, id, a);
      SetConnInv(s1.h, id, b);
      ShutdownKeeps(s1.(h := SetConn(s1.h, id, a)), id, true, false, false);
      StartupKeeps(s1.(h := SetConn(s1.h, id, b)), id, e.send);
    }
  }

  lemma AcceptedKeeps(s: Pool, c: Conn, e: SendEnv)
    requires Inv(s) && c == NewConn(true, c.node).(armed := true, reading := true)
    ensures s.h.conns.Keys <= Startup(s.(h := SetConn(s.h.(next := s.h.next + 1), s.h.next, c)), s.h.next, e).h.conns.Keys
  {
    hide HeapInv, Startup, TablesInv;
    AcceptedInv(s, c);
    StartupKeeps(s.(h := SetConn(s.h.(next := s.h.next + 1), s.h.next, c)), s.h.next, e);
  }

  lemma NewConnectionKeeps(s: Pool, e: NewEnv)
    requires Inv(s)
    ensures s.h.conns.Keys <= NewConnection(s, e).h.conns.Keys
  {
    hide HeapInv, TablesInv, StatusOk, BoundOk, Alternates, Startup, Alloc, CloseConn, Closed;
    AllocInv(s.h, true, e.alloc);
    AllocKeeps(s.h, true, e.alloc);
    var (h1, made) := Alloc(s.h, true, e.alloc);
    if e.status && made.Some? {
      var id, born := s.h.next, s.h.(next := s.h.next + 1);
      var blank, c := NewConn(true, NO_NODE), NewConn(true, Node(Tcp, e.address));
      SetTwice(born, id, blank, c);
      SetTwice(born, id, blank, c.(armed := true));
      SetTwice(born, id, blank, c.(armed := true, reading := true));
      CloseFresh(s.h, blank);
      CloseFresh(s.h, c);
      CloseFresh(s.h, c.(armed := true));
      AcceptedKeeps(s, c.(armed := true, reading := true), e.send);
    }
  }

  lemma BindOneKeeps(s: Pool, r: BindRequest, e: BindEnv)
    requires HeapInv(s.h) && Linked(s)
    ensures s.h.conns.Keys <= BindOne(s, r, e).h.conns.Keys
  {
    hide HeapInv, CloseConn, Listen;
    ListenKeeps(s.h, r.node, e);
    if r.node in s.t.servers { ClosedKeeps(s.h, s.t.servers[r.node]); }
  }

  lemma CloseOneKeeps(s: Pool, r: CloseRequest, e: CloseEnv)
    requires Inv(s) && Linked(s)
    ensures s.h.conns.Keys <= CloseOne(s, r, e).h.conns.Keys
  {
    hide HeapInv, Shutdown, TablesInv;
    if r.node in s.t.stream {
      var i := s.t.stream[r.node];
      StreamFacts(s, r.node);
      ArmInv(s, i);
      ShutdownKeeps(s, i, false, false, false);
      ShutdownKeeps(s.(h := SetConn(s.h, i, s.h.conns[i].(armed := true))), i, false, true, e.shutdown);
    }
  }

  lemma WriteDoneKeeps(s: Pool, k: nat, e: WriteEnv)
    requires HeapInv(s.h) && k < |s.h.writes| && s.h.writes[k].conn in s.h.conns
    ensures WriteDone(s, k, e).h.conns.Keys == s.h.conns.Keys
  {
    hide HeapInv, Shutdown, ResetIdle;
    var w := s.h.writes[k];
    var s1 := s.(h := WithoutWrite(s.h, k), log := s.log.(freed := s.log.freed + w.messages));
    WithoutWriteInv(s.h, k);
    ShutdownKeeps(s1.(log := s1.log.(dropped := s1.log.dropped + w.messages)), w.conn, false, false, false);
    ResetIdleKeeps(s1.(log := s1.log.(written := s1.log.written + w.messages)), w.conn, e.queueEmpty, e.timer);
  }

  /** No step but a close callback removes an object. */
  lemma StepKeepsObject(s: Pool, ev: Event, id: nat)
    requires Good(s) && Linked(s) && Enabled(s, ev) && id in s.h.conns
    requires ev != OnTcpClosed(id) && ev != OnTimerClosed(id)
    ensures id in Step(s, ev).h.conns
  {
    hide FlowInv, HeapInv, BindOne, SendOne, CloseOne, NewConnection, ConnectDone, WriteDone, Shutdown, ResetIdle, CloseConn, ConnOk;
    match ev
    case CallBind(_, _) =>
    case CallSend(_, _, _) =>
    case CallClose(_, _) =>
    case CallDestroy =>
    case CallSignal =>
    case Wakeup =>
    case ReadFlag(order) => if s.p.wantExit { ExitKeeps(s, order); }
    case TurnBind(e) => BindOneKeeps(s.(q := s.q.(bindCopy := s.q.bindCopy[1..])), s.q.bindCopy[0], e);
    case TurnSend(e) =>
      QueuesInv(s, s.q.(sendCopy := s.q.sendCopy[1..]));
      SendOneKeeps(s.(q := s.q.(sendCopy := s.q.sendCopy[1..])), s.q.sendCopy[0], e);
    case TurnClose(e) =>
      QueuesInv(s, s.q.(closeCopy := s.q.closeCopy[1..]));
      CloseOneKeeps(s.(q := s.q.(closeCopy := s.q.closeCopy[1..])), s.q.closeCopy[0], e);
    case WakeupEnd =>
    case OnNewConnection(_, e) => NewConnectionKeeps(s, e);
    case OnConnectDone(i, e) => ConnectDoneKeeps(s, i, e);
    case OnWriteDone(k, e) => WriteDoneKeeps(s, k, e);
    case OnRead(i, got, queueEmpty, timer) =>
      ResetIdleKeeps(s, i, queueEmpty, timer);
      ShutdownKeeps(s, i, false, false, false);
    case OnTimeout(i) =>
      TimeoutKeeps(s, i);
    case OnShutdownDone(i) =>
      ShutFacts(s, i);
      SetConnInv(s.h, i, s.h.conns[i].(shutdownReq := false));
      ClosedKeeps(SetConn(s.h, i, s.h.conns[i].(shutdownReq := false)), i);
    case OnTcpClosed(_) =>
    case OnTimerClosed(_) =>
  }

  lemma TimeoutKeeps(s: Pool, id: nat)
    requires Inv(s) && id in s.h.conns && s.h.conns[id].armed
    ensures Timeout(s, id).h.conns.Keys == s.h.conns.Keys
  {
    assert ConnOk(s.h.conns[id]);
    hide Inv, Shutdown, Timeout;
    TimeoutIs(s, id);
    ShutdownKeeps(s, id, false, false, false);
  }

  lemma ExitKeeps(s: Pool, e: ExitEnv)
    requires Inv(s) && ExitOrder(s.t, e)
    ensures Exit(s, e).h.conns.Keys == s.h.conns.Keys
  {
    hide HeapInv, TablesInv, StatusOk, BoundOk, Alternates, CloseAll;
    var h1 := CloseAll(s.h, Ids(s.t.servers, e.servers));
    var h2 := CloseAll(h1, Ids(s.t.stream, e.streams));
    CloseAllIs(s.h, Ids(s.t.servers, e.servers));
    CloseAllIs(h1, Ids(s.t.stream, e.streams));
    CloseAllIs(h2, e.dials);
  }

  /** An object goes only with its last close callback, and libuv owes it nothing by
      then: no request, no write, no running timer, no reading. */
  lemma DeletedAfterLastClose(s: Pool, ev: Event, id: nat)
    requires Reachable(s) && Linked(s) && Enabled(s, ev) && id in s.h.conns && id !in Step(s, ev).h.conns
    ensures ev == OnTcpClosed(id) || ev == OnTimerClosed(id)
    ensures var c := s.h.conns[id];
      && c.closing && !c.connectReq && !c.shutdownReq && !c.armed && !c.reading && NoWrites(s.h, id)
      && (ev == OnTcpClosed(id) ==> c.tcpInited && !c.timerInited)
      && (ev == OnTimerClosed(id) ==> c.timerInited && !c.tcpInited)
    ensures id in Step(s, ev).h.deleted
  {
    ReachableGood(s);
    if ev != OnTcpClosed(id) && ev != OnTimerClosed(id) {
      StepKeepsObject(s, ev, id);
    } else {
      assert ConnOk(s.h.conns[id]);
      forall k | 0 <= k < |s.h.writes| ensures s.h.writes[k].conn != id {
        assert WriteOk(s.h, s.h.writes[k]);
      }
    }
  }
}
