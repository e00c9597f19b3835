/** The pool over whole runs: safety of every reachable state, and what is left when
    the pool has exited. */
module PoolRuns {
  import opened Common
  import opened PoolModel
  import opened PoolHeap
  import opened PoolTables
  import opened PoolSteps
  import opened PoolFlow

  // --------------------------------------------------------- the flow of steps

  /** The messages after `shutdownTcpConnection`. */
  lemma ShutdownFlow(s: Pool, id: nat, always: bool, graceful: bool, ok: bool)
    requires id in s.h.conns
    ensures FlowOf(Shutdown(s, id, always, graceful, ok)) == DroppedWaiting(FlowOf(s), s.h.conns[id].node)
  {
  }

  lemma SendOnFlow(s: Pool, id: nat, messages: seq<Message>, e: SendEnv)
    requires id in s.h.conns
    ensures FlowOf(SendOn(s, id, messages, e)) ==
      if e.timer && e.write then
        FlowOf(s).(writes := s.h.writes + [Write(id, messages)], handed := s.log.handed + messages)
      else
        DroppedWaiting(FlowOf(s).(dropped := s.log.dropped + messages, freed := s.log.freed + messages), s.h.conns[id].node)
  {
    hide Shutdown, DroppedWaiting;
    ShutdownFlow(Drop(s, messages), id, false, false, false);
  }

  /** The messages after a connection came up, or was turned away. */
  lemma StartupFlow(s: Pool, id: nat, e: SendEnv)
    requires id in s.h.conns
    ensures var node := s.h.conns[id].node;
      FlowOf(Startup(s, id, e)) ==
        if node.address.Invalid? || node in s.t.stream || node !in s.t.waiting then FlowOf(s)
        else if e.memory && e.timer && e.write then WrittenWaiting(FlowOf(s), node, id)
        else DroppedWaiting(FlowOf(s), node)
  {
    hide SendOn;
    var node := s.h.conns[id].node;
    if node.address.Ip? && node !in s.t.stream {
      StartupIs(s, id, e);
      if node in s.t.waiting && e.memory {
        SendOnFlow(Risen(s, id), id, s.t.waiting[node], e);
      }
    }
  }

  lemma AllocWrites(h: Heap, timer: bool, e: AllocEnv)
    ensures Alloc(h, timer, e).0.writes == h.writes
  {
  }

  lemma ConnectWrites(h: Heap, node: Node, e: ConnectEnv)
    ensures Connect(h, node, e).0.writes == h.writes
  {
    AllocWrites(h, true, e.alloc);
  }

  lemma ListenWrites(h: Heap, node: Node, e: BindEnv)
    ensures Listen(h, node, e).0.writes == h.writes
  {
    AllocWrites(h, false, e.alloc);
  }

  lemma BindOneFlow(s: Pool, r: BindRequest, e: BindEnv)
    requires Linked(s)
    ensures FlowOf(BindOne(s, r, e)) == FlowOf(s)
  {
    ListenWrites(s.h, r.node, e);
  }

  /** The head of the copy has just been taken out of `s`, and `f` is the flow before
      that. */
  lemma SendAwayFlow(s: Pool, m: Message, e: DeliverEnv, f: Flow)
    requires f.copy != [] && f.copy[0] == m && FlowOf(s) == f.(copy := f.copy[1..])
    ensures var g := FlowOf(SendAway(s, m, e)); g == HeadWaits(f) || g == HeadDropped(f)
  {
    hide Connect;
    if m.node !in s.t.waiting && m.autoConnect {
      ConnectWrites(s.h, m.node, e.connect);
      DialFailed(s, m, Connect(s.h, m.node, e.connect).0);
    }
  }

  lemma SendOneFlow(s: Pool, m: Message, e: DeliverEnv, f: Flow)
    requires Inv(s) && Linked(s) && f.copy != [] && f.copy[0] == m && FlowOf(s) == f.(copy := f.copy[1..])
    requires FlowInv(f)
    ensures FlowInv(FlowOf(SendOne(s, m, e)))
  {
    hide Inv, FlowInv, SendAway, SendOn, HeadWaits, DroppedWaiting;
    HeadDroppedInv(f);
    HeadToUdpInv(f);
    if m.node.protocol == Tcp {
      if m.node !in s.t.stream {
        SendAwayFlow(s, m, e, f);
        HeadWaitsInv(f);
      } else if e.send.memory {
        var id := s.t.stream[m.node];
        SendOnFlow(s, id, [m], e.send);
        StreamFacts(s, m.node);
        StreamNotWaiting(s, m.node);
        HeadWrittenInv(f, id);
        DroppedWaitingInv(HeadDropped(f), s.h.conns[id].node);
      }
    }
  }

  lemma StreamNotWaiting(s: Pool, node: Node)
    requires Inv(s) && node in s.t.stream
    ensures node !in s.t.waiting
  {
  }

  lemma CloseOneFlow(s: Pool, r: CloseRequest, e: CloseEnv)
    requires Linked(s) && FlowInv(FlowOf(s))
    ensures FlowInv(FlowOf(CloseOne(s, r, e)))
  {
    hide FlowInv, Shutdown, DroppedWaiting;
    if r.node in s.t.stream {
      var id := s.t.stream[r.node];
      var armed := s.(h := SetConn(s.h, id, s.h.conns[id].(armed := true)));
      ShutdownFlow(s, id, false, false, false);
      ShutdownFlow(armed, id, false, true, e.shutdown);
      DroppedWaitingInv(FlowOf(s), s.h.conns[id].node);
    }
  }

  lemma StartupFlowInv(s: Pool, id: nat, e: SendEnv)
    requires id in s.h.conns && FlowInv(FlowOf(s))
    ensures FlowInv(FlowOf(Startup(s, id, e)))
  {
    hide FlowInv, Startup, DroppedWaiting;
    var node := s.h.conns[id].node;
    StartupFlow(s, id, e);
    DroppedWaitingInv(FlowOf(s), node);
    if node in s.t.waiting {
      WrittenWaitingInv(FlowOf(s), node, id);
    }
  }

  lemma NewConnectionFlow(s: Pool, e: NewEnv)
    requires FlowInv(FlowOf(s))
    ensures FlowInv(FlowOf(NewConnection(s, e)))
  {
    hide FlowInv, Startup, Alloc;
    AllocWrites(s.h, true, e.alloc);
    var (h1, made) := Alloc(s.h, true, e.alloc);
    if made.Some? && made.value in h1.conns {
      var id := made.value;
      var c := h1.conns[id].(node := Node(Tcp, e.address), armed := true, reading := true);
      var s1 := s.(h := SetConn(h1, id, c));
      assert FlowOf(s1) == FlowOf(s);
      StartupFlowInv(s1, id, e.send);
    }
  }

  lemma ConnectDoneFlow(s: Pool, id: nat, e: DoneEnv)
    requires id in s.h.conns && FlowInv(FlowOf(s))
    ensures FlowInv(FlowOf(ConnectDone(s, id, e)))
  {
    hide FlowInv, Startup, Shutdown, DroppedWaiting;
    var c := s.h.conns[id].(connectReq := false);
    var s1 := s.(t := s.t.(connecting := s.t.connecting - {id}), h := SetConn(s.h, id, c));
    var s2 := s1.(h := SetConn(s1.h, id, c.(armed := true)));
    var s3 := s1.(h := SetConn(s1.h, id, c.(armed := true, reading := true)));
    assert FlowOf(s1) == FlowOf(s) && FlowOf(s2) == FlowOf(s) && FlowOf(s3) == FlowOf(s);
    ShutdownFlow(s1, id, true, false, false);
    ShutdownFlow(s2, id, true, false, false);
    DroppedWaitingInv(FlowOf(s), c.node);
    StartupFlowInv(s3, id, e.send);
  }

  lemma ResetIdleFlow(s: Pool, id: nat, queueEmpty: bool, timer: bool)
    requires id in s.h.conns && FlowInv(FlowOf(s))
    ensures FlowInv(FlowOf(ResetIdle(s, id, queueEmpty, timer)))
  {
    hide FlowInv, Shutdown, DroppedWaiting;
    ShutdownFlow(s, id, false, false, false);
    DroppedWaitingInv(FlowOf(s), s.h.conns[id].node);
    if queueEmpty && timer {
      assert FlowOf(s.(h := SetConn(s.h, id, s.h.conns[id].(armed := true)))) == FlowOf(s);
    }
  }

  lemma WriteDoneFlow(s: Pool, k: nat, e: WriteEnv)
    requires k < |s.h.writes| && s.h.writes[k].conn in s.h.conns && FlowInv(FlowOf(s))
    ensures FlowInv(FlowOf(WriteDone(s, k, e)))
  {
    hide FlowInv, Shutdown, ResetIdle, DroppedWaiting;
    var w := s.h.writes[k];
    var s1 := s.(h := WithoutWrite(s.h, k), log := s.log.(freed := s.log.freed + w.messages));
    AnsweredInv(FlowOf(s), k, e.status);
    if !e.status {
      var s2 := s1.(log := s1.log.(dropped := s1.log.dropped + w.messages));
      assert FlowOf(s2) == Answered(FlowOf(s), k, false);
      ShutdownFlow(s2, w.conn, false, false, false);
      DroppedWaitingInv(FlowOf(s2), s.h.conns[w.conn].node);
    } else {
      var s2 := s1.(log := s1.log.(written := s1.log.written + w.messages));
      assert FlowOf(s2) == Answered(FlowOf(s), k, true);
      ResetIdleFlow(s2, w.conn, e.queueEmpty, e.timer);
    }
  }

  lemma ReadFlow(s: Pool, id: nat, got: ReadResult, queueEmpty: bool, timer: bool)
    requires id in s.h.conns && FlowInv(FlowOf(s))
    ensures FlowInv(FlowOf(Read(s, id, got, queueEmpty, timer)))
  {
    hide FlowInv, Shutdown, ResetIdle, DroppedWaiting;
    ResetIdleFlow(s, id, queueEmpty, timer);
    ShutdownFlow(s, id, false, false, false);
    DroppedWaitingInv(FlowOf(s), s.h.conns[id].node);
  }

  lemma TimeoutFlow(s: Pool, id: nat)
    requires id in s.h.conns && FlowInv(FlowOf(s))
    ensures FlowInv(FlowOf(Timeout(s, id)))
  {
    hide FlowInv, Shutdown, DroppedWaiting;
    var s1 := s.(h := SetConn(s.h, id, s.h.conns[id].(armed := false)));
    assert FlowOf(s1) == FlowOf(s);
    ShutdownFlow(s1, id, false, false, false);
    DroppedWaitingInv(FlowOf(s), s.h.conns[id].node);
  }

  // -------------------------------------------------------------------- exit

  lemma {:induction false} CloseAllWrites(h: Heap, ids: seq<nat>)
    ensures CloseAll(h, ids).writes == h.writes
    decreases |ids|
  {
    if ids != [] {
      CloseAllWrites(if ids[0] in h.conns then CloseConn(h, ids[0]) else h, ids[1..]);
    }
  }

  /** Closing several objects closes those and leaves the others alone. */
  lemma {:induction false} CloseAllIs(h: Heap, ids: seq<nat>)
    requires HeapInv(h)
    ensures var g := CloseAll(h, ids);
      && HeapInv(g) && g.next == h.next && g.deleted == h.deleted && g.conns.Keys == h.conns.Keys
      && forall id :: id in h.conns ==>
           g.conns[id] == if id in ids && !h.conns[id].closing then Closed(h.conns[id]) else h.conns[id]
    decreases |ids|
  {
    hide HeapInv, CloseConn;
    if ids != [] {
      var h1 := h;
      if ids[0] in h.conns {
        CloseConnInv(h, ids[0]);
        h1 := CloseConn(h, ids[0]);
      }
      CloseAllIs(h1, ids[1..]);
    }
  }

  /** After the exit step every listening and every connecting object is closing. */
  lemma ExitHeap(s: Pool, e: ExitEnv)
    requires Inv(s) && ExitOrder(s.t, e)
    ensures HeapInv(Exit(s, e).h) && TablesInv(Exit(s, e).t, Exit(s, e).h)
  {
    hide HeapInv, CloseAll, StreamOk, ServersOk, ConnectingOk, WaitingOk, StatusOk, BoundOk, Alternates;
    var servers, streams := Ids(s.t.servers, e.servers), Ids(s.t.stream, e.streams);
    var h1 := CloseAll(s.h, servers);
    var h2 := CloseAll(h1, streams);
    var h3 := CloseAll(h2, e.dials);
    CloseAllIs(s.h, servers);
    CloseAllIs(h1, streams);
    CloseAllIs(h2, e.dials);
    ExitRoles(s, e, h3, servers);
  }

  lemma ExitRoles(s: Pool, e: ExitEnv, g: Heap, servers: seq<nat>)
    requires ServersOk(s.t, s.h) && ConnectingOk(s.t, s.h) && ExitOrder(s.t, e) && servers == Ids(s.t.servers, e.servers)
    requires g.conns.Keys == s.h.conns.Keys
    requires forall id :: id in g.conns ==>
      && g.conns[id].server == s.h.conns[id].server && g.conns[id].connectReq == s.h.conns[id].connectReq
      && (s.h.conns[id].closing ==> g.conns[id].closing)
      && (id in servers || id in e.dials ==> g.conns[id].closing)
    ensures TablesInv(Tables(map[], {}, map[], {}, map[]), g)
  {
    forall id | id in g.conns && g.conns[id].server ensures g.conns[id].closing {
      if !s.h.conns[id].closing {
        var n := s.h.conns[id].node;
        assert n in s.t.servers && s.t.servers[n] == id;
        assert n in e.servers;
        var i :| 0 <= i < |e.servers| && e.servers[i] == n;
        assert servers[i] == id;
      }
    }
  }

  lemma {:induction false} UpDowns(log: seq<Status>, nodes: seq<Node>, n: Node)
    ensures Up(log + AllDown(nodes), n) <==> Up(log, n) && n !in nodes
    decreases |nodes|
  {
    if nodes == [] {
      assert log + AllDown(nodes) == log;
    } else {
      var front, last := nodes[..|nodes| - 1], nodes[|nodes| - 1];
      UpDowns(log, front, n);
      UpSnoc(log + AllDown(front), Status(last, false), n);
      assert log + AllDown(nodes) == log + AllDown(front) + [Status(last, false)];
    }
  }

  lemma {:induction false} AlternatesDowns(log: seq<Status>, nodes: seq<Node>)
    requires Alternates(log)
    ensures Alternates(log + AllDown(nodes))
    decreases |nodes|
  {
    if nodes == [] {
      assert log + AllDown(nodes) == log;
    } else {
      var front := nodes[..|nodes| - 1];
      AlternatesDowns(log, front);
      var all := log + AllDown(nodes);
      assert all[..|all| - 1] == log + AllDown(front);
    }
  }

  lemma AllDownAppend(a: seq<Node>, b: seq<Node>)
    ensures AllDown(a) + AllDown(b) == AllDown(a + b)
  {
  }

  lemma ExitStatus(s: Pool, e: ExitEnv)
    requires Inv(s) && ExitOrder(s.t, e)
    ensures StatusOk(Exit(s, e).log.status, map[]) && Alternates(Exit(s, e).log.status)
  {
    var nodes := e.streams + NodesOf(s.h, e.dials);
    AllDownAppend(e.streams, NodesOf(s.h, e.dials));
    AlternatesDowns(s.log.status, nodes);
    forall n ensures !Up(s.log.status + AllDown(nodes), n) {
      UpDowns(s.log.status, nodes, n);
      if n in s.t.stream { assert n in e.streams; }
    }
  }

  lemma ExitBound(s: Pool, e: ExitEnv)
    requires Inv(s) && ExitOrder(s.t, e)
    ensures BoundOk(Exit(s, e).log.bound, Exit(s, e).t)
  {
    var requests := RequestNodes(s.q.bindCopy);
    var nodes := e.servers + e.udpServers + requests;
    AllDownAppend(e.servers, e.udpServers);
    AllDownAppend(e.servers + e.udpServers, requests);
    forall n ensures !Up(s.log.bound + AllDown(nodes), n) {
      UpDowns(s.log.bound, nodes, n);
      if n in s.t.servers { assert n in e.servers; }
      if n in s.t.udpServers { assert n in e.udpServers; }
    }
  }

  lemma ExitInv(s: Pool, e: ExitEnv)
    requires Inv(s) && ExitOrder(s.t, e)
    ensures Inv(Exit(s, e))
  {
    ExitHeap(s, e);
    ExitStatus(s, e);
    ExitBound(s, e);
  }

  lemma ExitFlow(s: Pool, e: ExitEnv)
    requires FlowInv(FlowOf(s)) && ExitOrder(s.t, e)
    ensures FlowInv(FlowOf(Exit(s, e)))
  {
    hide FlowInv;
    var f := FlowOf(s);
    DroppedEachIs(f, e.waits);
    DroppedEachInv(f, e.waits);
    var g := DroppedEach(f, e.waits);
    CopyDroppedInv(g);
    var all := WaitingFor(s.t.waiting, e.waits);
    assert f.dropped + all + f.copy == f.dropped + (all + f.copy);
    assert f.freed + all + f.copy == f.freed + (all + f.copy);
    assert (set n | n in e.waits) == s.t.waiting.Keys;
    assert s.t.waiting - s.t.waiting.Keys == map[];
    var servers, streams := Ids(s.t.servers, e.servers), Ids(s.t.stream, e.streams);
    CloseAllWrites(s.h, servers);
    CloseAllWrites(CloseAll(s.h, servers), streams);
    CloseAllWrites(CloseAll(CloseAll(s.h, servers), streams), e.dials);
    assert FlowOf(Exit(s, e)) == CopyDropped(g);
  }

  // ------------------------------------------------------------------- steps

  /** The copies belong to one call of `on_wakeup`; after the exit branch nothing is in
      the tables; what is pending was accepted since the last take-over. */
  ghost predicate QueuesOk(s: Pool) {
    && (!s.p.awake ==> !s.p.testing && s.q.bindCopy == [] && s.q.sendCopy == [] && s.q.closeCopy == [])
    && (s.p.exited ==> s.p.wantExit && !s.p.awake && NoTables(s.t))
    && s.p.seen <= |s.q.accepted| && s.q.pendingSend == s.q.accepted[s.p.seen..]
  }

  /** Everything that holds between any two steps. */
  ghost predicate Good(s: Pool) {
    Inv(s) && FlowInv(FlowOf(s)) && QueuesOk(s)
  }

  lemma StepInv(s: Pool, ev: Event)
    requires Inv(s) && Linked(s) && Enabled(s, ev)
    ensures Inv(Step(s, ev))
  {
    hide Inv, BindOne, SendOne, CloseOne, NewConnection, ConnectDone, WriteDone, Read, Timeout, ShutdownDone, TcpClosed, TimerClosed, Exit;
    match ev
    case CallBind(_, _) => QueuesInv(s, Step(s, ev).q);
    case CallSend(_, _, _) => QueuesInv(s, Step(s, ev).q);
    case CallClose(_, _) => QueuesInv(s, Step(s, ev).q);
    case CallDestroy => PhaseInv(s, Step(s, ev).p, s.q);
    case CallSignal => PhaseInv(s, Step(s, ev).p, s.q);
    case Wakeup => PhaseInv(s, Step(s, ev).p, Step(s, ev).q);
    case ReadFlag(order) => if s.p.wantExit { ExitInv(s, order); } else { PhaseInv(s, Step(s, ev).p, s.q); }
    case TurnBind(e) =>
      QueuesInv(s, s.q.(bindCopy := s.q.bindCopy[1..]));
      BindOneInv(s.(q := s.q.(bindCopy := s.q.bindCopy[1..])), s.q.bindCopy[0], e);
    case TurnSend(e) =>
      QueuesInv(s, s.q.(sendCopy := s.q.sendCopy[1..]));
      SendOneInv(s.(q := s.q.(sendCopy := s.q.sendCopy[1..])), s.q.sendCopy[0], e);
    case TurnClose(e) =>
      QueuesInv(s, s.q.(closeCopy := s.q.closeCopy[1..]));
      CloseOneInv(s.(q := s.q.(closeCopy := s.q.closeCopy[1..])), s.q.closeCopy[0], e);
    case WakeupEnd => PhaseInv(s, Step(s, ev).p, s.q);
    case OnNewConnection(_, e) => NewConnectionInv(s, e);
    case OnConnectDone(id, e) => ConnectDoneInv(s, id, e);
    case OnWriteDone(k, e) => WriteDoneInv(s, k, e);
    case OnRead(id, got, queueEmpty, timer) => ReadInv(s, id, got, queueEmpty, timer);
    case OnTimeout(id) => TimeoutInv(s, id);
    case OnShutdownDone(id) => ShutdownDoneInv(s, id);
    case OnTcpClosed(id) => TcpClosedStepInv(s, id);
    case OnTimerClosed(id) => TimerClosedStepInv(s, id);
  }

  lemma StepFlow(s: Pool, ev: Event)
    requires Good(s) && Linked(s) && Enabled(s, ev)
    ensures FlowInv(FlowOf(Step(s, ev)))
  {
    hide Inv, FlowInv, BindOne, SendOne, CloseOne, NewConnection, ConnectDone, WriteDone, Read, Timeout, Exit;
    var f := FlowOf(s);
    match ev
    case CallBind(_, _) => assert FlowOf(Step(s, ev)) == f;
    case CallSend(node, length, autoConnect) => EnqueuedInv(f, node, autoConnect);
    case CallClose(_, _) => assert FlowOf(Step(s, ev)) == f;
    case CallDestroy => assert FlowOf(Step(s, ev)) == f;
    case CallSignal => assert FlowOf(Step(s, ev)) == f;
    case Wakeup =>
      TakenOverInv(f);
      assert FlowOf(Step(s, ev)) == TakenOver(f);
    case ReadFlag(order) => if s.p.wantExit { ExitFlow(s, order); } else { assert FlowOf(Step(s, ev)) == f; }
    case TurnBind(e) =>
      var s1 := s.(q := s.q.(bindCopy := s.q.bindCopy[1..]));
      BindOneFlow(s1, s.q.bindCopy[0], e);
    case TurnSend(e) =>
      QueuesInv(s, s.q.(sendCopy := s.q.sendCopy[1..]));
      SendOneFlow(s.(q := s.q.(sendCopy := s.q.sendCopy[1..])), s.q.sendCopy[0], e, f);
    case TurnClose(e) =>
      var s1 := s.(q := s.q.(closeCopy := s.q.closeCopy[1..]));
      assert FlowOf(s1) == f;
      CloseOneFlow(s1, s.q.closeCopy[0], e);
    case WakeupEnd => assert FlowOf(Step(s, ev)) == f;
    case OnNewConnection(_, e) => NewConnectionFlow(s, e);
    case OnConnectDone(id, e) => ConnectDoneFlow(s, id, e);
    case OnWriteDone(k, e) => WriteDoneFlow(s, k, e);
    case OnRead(id, got, queueEmpty, timer) => ReadFlow(s, id, got, queueEmpty, timer);
    case OnTimeout(id) => TimeoutFlow(s, id);
    case OnShutdownDone(id) => assert FlowOf(Step(s, ev)) == f;
    case OnTcpClosed(id) => assert FlowOf(Step(s, ev)) == f;
    case OnTimerClosed(id) => assert FlowOf(Step(s, ev)) == f;
  }
}
