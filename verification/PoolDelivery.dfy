/** What the pool does when nothing goes wrong, and the only reasons for a message to
    be dropped. The invariant alone would also hold of a pool that drops everything. */
module PoolDelivery {
  import opened Common
  import opened PoolModel
  import opened PoolHeap
  import opened PoolTables
  import opened PoolSteps
  import opened PoolFlow
  import opened PoolRuns
  import opened PoolTheorems

  predicate SendFails(e: SendEnv) {
    !e.memory || !e.timer || !e.write
  }

  predicate AllocFails(timer: bool, e: AllocEnv) {
    !e.memory || !e.tcpInit || (timer && !e.timerInit) || !e.options
  }

  predicate DialFails(node: Node, e: ConnectEnv) {
    !e.memory || AllocFails(true, e.alloc) || !e.timer || !e.connect || node.address.Invalid?
  }

  /** The connect itself failed, or the object cannot be taken into service. */
  predicate ConnectFails(c: Conn, e: DoneEnv) {
    !e.status || c.closing || !e.timer || !e.read
  }

  /** A call failed, a peer is gone or too slow, the caller asked for no connection, or
      the pool exits. */
  predicate Cause(s: Pool, ev: Event) {
    match ev
    case ReadFlag(_) => s.p.wantExit
    case TurnSend(e) =>
      s.q.sendCopy != [] &&
      var m := s.q.sendCopy[0];
      (match m.node.protocol
       case Tcp =>
         if m.node in s.t.stream then SendFails(e.send)
         else m.node !in s.t.waiting && (!m.autoConnect || DialFails(m.node, e.connect))
       case Udp => false
       case Unknown => true)
    case OnNewConnection(_, e) => SendFails(e.send)
    case OnConnectDone(id, e) => id in s.h.conns && (ConnectFails(s.h.conns[id], e) || SendFails(e.send))
    case OnWriteDone(_, e) => !e.status || (e.queueEmpty && !e.timer)
    case OnRead(_, got, queueEmpty, timer) => got.Failed? || (got.Data? && queueEmpty && !timer)
    case OnTimeout(_) => true
    case _ => false
  }

  // ---------------------------------------------------------------- dropping

  lemma ShutdownDrops(s: Pool, id: nat, always: bool, graceful: bool, ok: bool)
    requires id in s.h.conns && s.h.conns[id].node !in s.t.waiting
    ensures Shutdown(s, id, always, graceful, ok).log.dropped == s.log.dropped
  {
    hide CloseConn, ShutdownConn;
  }

  lemma StartupDrops(s: Pool, id: nat, e: SendEnv)
    requires id in s.h.conns && !SendFails(e)
    ensures Startup(s, id, e).log.dropped == s.log.dropped
  {
    hide CloseConn, Shutdown;
  }

  lemma AllocSucceeds(h: Heap, timer: bool, e: AllocEnv)
    ensures Alloc(h, timer, e).1.None? <==> AllocFails(timer, e)
    ensures Alloc(h, timer, e).1.Some? ==> Alloc(h, timer, e).1.value in Alloc(h, timer, e).0.conns
  {
    hide CloseConn;
  }

  /** A dial fails at once for exactly these reasons. */
  lemma ConnectSucceeds(h: Heap, node: Node, e: ConnectEnv)
    ensures Connect(h, node, e).1.None? <==> DialFails(node, e)
  {
    hide CloseConn, Alloc;
    AllocSucceeds(h, true, e.alloc);
  }

  lemma SendOneDrops(s: Pool, m: Message, e: DeliverEnv)
    requires Inv(s) && Linked(s)
    requires match m.node.protocol
      case Tcp =>
        if m.node in s.t.stream then !SendFails(e.send)
        else m.node in s.t.waiting || (m.autoConnect && !DialFails(m.node, e.connect))
      case Udp => true
      case Unknown => false
    ensures SendOne(s, m, e).log.dropped == s.log.dropped
  {
    hide Inv, Connect, Shutdown, DialFails;
    ConnectSucceeds(s.h, m.node, e.connect);
  }

  lemma CloseOneDrops(s: Pool, r: CloseRequest, e: CloseEnv)
    requires Inv(s) && Linked(s)
    ensures CloseOne(s, r, e).log.dropped == s.log.dropped
  {
    if r.node in s.t.stream {
      StreamFacts(s, r.node);
      StreamNotWaiting(s, r.node);
      hide Inv, Shutdown;
      var id := s.t.stream[r.node];
      ShutdownDrops(s, id, false, false, false);
      ShutdownDrops(s.(h := SetConn(s.h, id, s.h.conns[id].(armed := true))), id, false, true, e.shutdown);
    }
  }

  lemma NewConnectionDrops(s: Pool, e: NewEnv)
    requires !SendFails(e.send)
    ensures NewConnection(s, e).log.dropped == s.log.dropped
  {
    hide CloseConn, Alloc, Startup;
    var (h1, made) := Alloc(s.h, true, e.alloc);
    if made.Some? && made.value in h1.conns {
      var c := h1.conns[made.value].(node := Node(Tcp, e.address), armed := true, reading := true);
      StartupDrops(s.(h := SetConn(h1, made.value, c)), made.value, e.send);
    }
  }

  lemma ConnectDoneDrops(s: Pool, id: nat, e: DoneEnv)
    requires id in s.h.conns && !ConnectFails(s.h.conns[id], e) && !SendFails(e.send)
    ensures ConnectDone(s, id, e).log.dropped == s.log.dropped
  {
    hide CloseConn, Startup, Shutdown;
    var c := s.h.conns[id].(connectReq := false);
    var s1 := s.(t := s.t.(connecting := s.t.connecting - {id}), h := SetConn(s.h, id, c));
    StartupDrops(s1.(h := SetConn(s1.h, id, c.(armed := true, reading := true))), id, e.send);
  }

  /** No message is dropped without a cause. */
  lemma NoDropWithoutCause(s: Pool, ev: Event)
    requires Good(s) && Linked(s) && Enabled(s, ev) && !Cause(s, ev)
    ensures Step(s, ev).log.dropped == s.log.dropped
  {
    hide FlowInv, Inv, BindOne, SendOne, CloseOne, NewConnection, ConnectDone, Shutdown, SendFails, DialFails, ConnectFails;
    match ev
    case TurnBind(e) => BindOneDrops(s.(q := s.q.(bindCopy := s.q.bindCopy[1..])), s.q.bindCopy[0], e);
    case TurnSend(e) =>
      QueuesInv(s, s.q.(sendCopy := s.q.sendCopy[1..]));
      SendOneDrops(s.(q := s.q.(sendCopy := s.q.sendCopy[1..])), s.q.sendCopy[0], e);
    case TurnClose(e) =>
      QueuesInv(s, s.q.(closeCopy := s.q.closeCopy[1..]));
      CloseOneDrops(s.(q := s.q.(closeCopy := s.q.closeCopy[1..])), s.q.closeCopy[0], e);
    case OnNewConnection(_, e) => NewConnectionDrops(s, e);
    case OnConnectDone(id, e) => ConnectDoneDrops(s, id, e);
    case _ =>
  }

  lemma BindOneDrops(s: Pool, r: BindRequest, e: BindEnv)
    requires Linked(s)
    ensures BindOne(s, r, e).log.dropped == s.log.dropped
  {
    hide CloseConn, Listen;
  }

  // ---------------------------------------------------------------- delivery

  /** The messages went to libuv on this connection. */
  predicate HandedOver(s: Pool, r: Pool, id: nat, messages: seq<Message>) {
    r.log.handed == s.log.handed + messages && r.h.writes == s.h.writes + [Write(id, messages)] && r.log.dropped == s.log.dropped
  }

  /** A message whose turn comes is written at once on the stream of its node, or waits
      last in line for a connection attempt, an existing one or a new one. */
  lemma TurnForwards(s: Pool, e: DeliverEnv)
    requires Good(s) && Linked(s) && Enabled(s, TurnSend(e)) && !Cause(s, TurnSend(e))
    requires s.q.sendCopy[0].node.protocol == Tcp
    ensures var m := s.q.sendCopy[0]; var r := Step(s, TurnSend(e));
      if m.node in s.t.stream then HandedOver(s, r, s.t.stream[m.node], [m]) && r.t == s.t
      else
        && m.node in r.t.waiting
        && r.t.waiting[m.node] == (if m.node in s.t.waiting then s.t.waiting[m.node] else []) + [m]
        && (exists id :: Dialing(r.t, r.h, m.node, id))
        && r.log.dropped == s.log.dropped && r.log.handed == s.log.handed
  {
    StepGood(s, TurnSend(e));
    var m, r := s.q.sendCopy[0], Step(s, TurnSend(e));
    TurnForwardsTables(s, e);
    if m.node !in s.t.stream {
      WaitingDialed(r, m.node);
    }
  }

  lemma WaitingDialed(s: Pool, n: Node)
    requires Good(s) && n in s.t.waiting
    ensures exists id :: Dialing(s.t, s.h, n, id)
  {
  }

  lemma TurnForwardsTables(s: Pool, e: DeliverEnv)
    requires Linked(s) && Enabled(s, TurnSend(e)) && !Cause(s, TurnSend(e))
    requires s.q.sendCopy[0].node.protocol == Tcp
    ensures var m := s.q.sendCopy[0]; var r := Step(s, TurnSend(e));
      if m.node in s.t.stream then HandedOver(s, r, s.t.stream[m.node], [m]) && r.t == s.t
      else
        && m.node in r.t.waiting
        && r.t.waiting[m.node] == (if m.node in s.t.waiting then s.t.waiting[m.node] else []) + [m]
        && r.log.dropped == s.log.dropped && r.log.handed == s.log.handed
  {
    hide Connect, Shutdown, DialFails;
    ConnectSucceeds(s.h, s.q.sendCopy[0].node, e.connect);
  }

  /** What becomes of an object that is ready for its node. */
  lemma StartupDelivers(s: Pool, id: nat, e: SendEnv)
    requires id in s.h.conns && !SendFails(e) && s.h.conns[id].node.address.Ip? && s.h.conns[id].node !in s.t.stream
    ensures var n := s.h.conns[id].node; var r := Startup(s, id, e);
      && n in r.t.stream && r.t.stream[n] == id && n !in r.t.waiting
      && r.log.status == s.log.status + [Status(n, true)]
      && (if n in s.t.waiting then HandedOver(s, r, id, s.t.waiting[n]) else r.log.handed == s.log.handed && r.h.writes == s.h.writes)
  {
    hide CloseConn, Shutdown;
  }

  /** A connect that succeeds makes the object the stream of its node and writes
      everything that waited, in one write, unless the node got a stream meanwhile. */
  lemma ConnectDelivers(s: Pool, id: nat, e: DoneEnv)
    requires Good(s) && Enabled(s, OnConnectDone(id, e)) && !ConnectFails(s.h.conns[id], e) && !SendFails(e.send)
    requires s.h.conns[id].node !in s.t.stream
    ensures Linked(s)
    ensures var n := s.h.conns[id].node; var r := Step(s, OnConnectDone(id, e));
      && n in r.t.stream && r.t.stream[n] == id && n !in r.t.waiting
      && r.log.status == s.log.status + [Status(n, true)]
      && (n in s.t.waiting ==> HandedOver(s, r, id, s.t.waiting[n]))
  {
    GoodLinked(s);
    DialFacts(s, id);
    hide Inv, FlowInv, Startup, Shutdown, SendFails;
    var c := s.h.conns[id].(connectReq := false);
    var s1 := s.(t := s.t.(connecting := s.t.connecting - {id}), h := SetConn(s.h, id, c));
    StartupDelivers(s1.(h := SetConn(s1.h, id, c.(armed := true, reading := true))), id, e.send);
  }

  /** An accepted connection from a peer does the same for its node. */
  lemma AcceptDelivers(s: Pool, server: nat, e: NewEnv)
    requires Good(s) && Enabled(s, OnNewConnection(server, e))
    requires e.status && !AllocFails(true, e.alloc) && e.accept && e.peer && e.timer && e.read && !SendFails(e.send)
    requires e.address.Ip? && Node(Tcp, e.address) !in s.t.stream
    ensures Linked(s)
    ensures var n := Node(Tcp, e.address); var r := Step(s, OnNewConnection(server, e));
      && n in r.t.stream && r.t.stream[n] == s.h.next && n !in r.t.waiting
      && r.log.status == s.log.status + [Status(n, true)]
      && (n in s.t.waiting ==> HandedOver(s, r, s.h.next, s.t.waiting[n]))
  {
    GoodLinked(s);
    AllocInv(s.h, true, e.alloc);
    AllocSucceeds(s.h, true, e.alloc);
    hide Inv, FlowInv, Startup, Alloc, CloseConn, SendFails, AllocFails;
    var (h1, made) := Alloc(s.h, true, e.alloc);
    var c := h1.conns[made.value].(node := Node(Tcp, e.address), armed := true, reading := true);
    StartupDelivers(s.(h := SetConn(h1, made.value, c)), made.value, e.send);
  }

  // --------------------------------------------------------------------- exit

  /** The exit closes every server, stream and connection attempt, and nothing else. */
  lemma ExitCloses(s: Pool, e: ExitEnv, id: nat)
    requires Inv(s) && ExitOrder(s.t, e) && id in s.h.conns
    ensures var r := Exit(s, e);
      var filed := id in s.t.connecting || (exists n :: n in s.t.stream && s.t.stream[n] == id) || (exists n :: n in s.t.servers && s.t.servers[n] == id);
      && id in r.h.conns
      && (filed ==> r.h.conns[id].closing) && (!filed ==> r.h.conns[id] == s.h.conns[id])
  {
    hide HeapInv, TablesInv, StatusOk, BoundOk, Alternates, CloseAll;
    var servers, streams := Ids(s.t.servers, e.servers), Ids(s.t.stream, e.streams);
    var h1 := CloseAll(s.h, servers);
    var h2 := CloseAll(h1, streams);
    CloseAllIs(s.h, servers);
    CloseAllIs(h1, streams);
    CloseAllIs(h2, e.dials);
    IdsOf(s.t.servers, e.servers, id);
    IdsOf(s.t.stream, e.streams, id);
  }

  lemma IdsOf(m: map<Node, nat>, nodes: seq<Node>, id: nat)
    requires Enumerates(nodes, m.Keys)
    ensures (forall n :: n in nodes ==> n in m) && (id in Ids(m, nodes) <==> exists n :: n in m && m[n] == id)
  {
    var ids := Ids(m, nodes);
    if id in ids {
      var i :| 0 <= i < |ids| && ids[i] == id;
      assert nodes[i] in m && m[nodes[i]] == id;
    }
    if n :| n in m && m[n] == id {
      assert n in nodes;
      var i :| 0 <= i < |nodes| && nodes[i] == n;
      assert ids[i] == id;
    }
  }
}
