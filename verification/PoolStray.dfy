/** Which open connections the table of streams leads to. The table is erased by node
    and not by object, so a connection that goes down can take another one's entry
    with it: not every open stream stays filed, and this is exactly when. */
module PoolStray {
  import opened Common
  import opened PoolModel
  import opened PoolHeap
  import opened PoolTables
  import opened PoolSteps
  import opened PoolFlow
  import opened PoolRuns
  import opened PoolTheorems

  /** Open and past its connect: between two callbacks such an object has been made
      the stream of its node. */
  predicate Streaming(c: Conn) {
    !c.closing && !c.shutdown && !c.server && !c.connectReq
  }

  predicate Filed(stream: map<Node, nat>, c: Conn, id: nat) {
    c.node in stream && stream[c.node] == id
  }

  ghost predicate FiledBut(stream: map<Node, nat>, h: Heap, but: Option<nat>) {
    forall id :: id in h.conns && Some(id) != but && Streaming(h.conns[id]) ==> Filed(stream, h.conns[id], id)
  }

  /** Every open stream is in the table, under its node. */
  ghost predicate AllFiled(s: Pool) {
    FiledBut(s.t.stream, s.h, None)
  }

  /** This step gives up the connection `id`: its connect failed, a write or a read
      failed, or its time is over. */
  predicate GivesUp(s: Pool, ev: Event, id: nat)
    requires Linked(s)
  {
    match ev
    case OnConnectDone(dial, e) =>
      id == dial && id in s.h.conns && (!e.status || s.h.conns[id].closing || !e.timer || !e.read)
    case OnWriteDone(k, e) => k < |s.h.writes| && id == s.h.writes[k].conn && !e.status
    case OnRead(reader, got, _, _) => id == reader && got.Failed?
    case OnTimeout(timer) => id == timer
    case _ => false
  }

  /** The node of `id` has no stream, or `id` is that stream. */
  predicate OwnEntry(s: Pool, id: nat) {
    id in s.h.conns && (s.h.conns[id].node in s.t.stream ==> s.t.stream[s.h.conns[id].node] == id)
  }

  // -------------------------------------------------------------- operations

  lemma GoneQuiet(h: Heap, id: nat, graceful: bool, ok: bool)
    requires HeapInv(h) && id in h.conns
    ensures var g := if graceful then ShutdownConn(h, id, ok) else CloseConn(h, id);
      && g.conns.Keys == h.conns.Keys && !Streaming(g.conns[id])
      && forall k :: k in h.conns && k != id ==> g.conns[k] == h.conns[k]
  {
    CloseConnInv(h, id);
  }

  /** Giving up a connection keeps all other streams filed exactly if the entry it
      erases is its own. */
  lemma ShutdownFiled(s: Pool, id: nat, always: bool, graceful: bool, ok: bool)
    requires HeapInv(s.h) && StreamOk(s.t, s.h) && id in s.h.conns && FiledBut(s.t.stream, s.h, Some(id))
    ensures AllFiled(Shutdown(s, id, always, graceful, ok)) <==> OwnEntry(s, id)
  {
    hide HeapInv, Shutdown, CloseConn, ShutdownConn;
    ShutdownIs(s, id, always, graceful, ok);
    GoneQuiet(s.h, id, graceful, ok);
    var r := Shutdown(s, id, always, graceful, ok);
    if !OwnEntry(s, id) {
      var j := s.t.stream[s.h.conns[id].node];
      assert Streaming(r.h.conns[j]) && !Filed(r.t.stream, r.h.conns[j], j);
    }
  }

  lemma OwnShutdownFiled(s: Pool, id: nat, always: bool, graceful: bool, ok: bool)
    requires HeapInv(s.h) && StreamOk(s.t, s.h) && id in s.h.conns && FiledBut(s.t.stream, s.h, Some(id)) && OwnEntry(s, id)
    ensures AllFiled(Shutdown(s, id, always, graceful, ok))
  {
    ShutdownFiled(s, id, always, graceful, ok);
  }

  lemma SendOnFiled(s: Pool, id: nat, messages: seq<Message>, e: SendEnv)
    requires HeapInv(s.h) && StreamOk(s.t, s.h) && AllFiled(s) && id in s.h.conns && Streaming(s.h.conns[id])
    ensures AllFiled(SendOn(s, id, messages, e))
  {
    hide HeapInv, Shutdown;
    OwnShutdownFiled(Drop(s, messages), id, false, false, false);
  }

  lemma StartupFiled(s: Pool, id: nat, e: SendEnv)
    requires HeapInv(s.h) && StreamOk(s.t, s.h) && id in s.h.conns && Ripe(s.h.conns[id]) && FiledBut(s.t.stream, s.h, Some(id))
    ensures AllFiled(Startup(s, id, e))
  {
    hide HeapInv, CloseConn, SendOn, Startup;
    var node := s.h.conns[id].node;
    if node.address.Invalid? || node in s.t.stream {
      GoneQuiet(s.h, id, false, false);
      StartupCloses(s, id, e);
    } else {
      var up := Risen(s, id);
      StartupIs(s, id, e);
      assert AllFiled(up) && StreamOk(up.t, up.h);
      if node in s.t.waiting { SendOnFiled(up, id, s.t.waiting[node], e); }
    }
  }

  lemma StartupCloses(s: Pool, id: nat, e: SendEnv)
    requires id in s.h.conns && (s.h.conns[id].node.address.Invalid? || s.h.conns[id].node in s.t.stream)
    ensures Startup(s, id, e) == s.(h := CloseConn(s.h, id))
  {
    hide CloseConn, SendOn;
  }

  /** A heap with at most one new object, which is on its way out. */
  lemma GrownFiled(stream: map<Node, nat>, h: Heap, g: Heap)
    requires FiledBut(stream, h, None) && Grown(h, g) && (h.next in g.conns && h.next !in h.conns ==> g.conns[h.next].closing)
    ensures FiledBut(stream, g, None)
  {
  }

  lemma BindOneFiled(s: Pool, r: BindRequest, e: BindEnv)
    requires Inv(s) && Linked(s) && AllFiled(s)
    ensures AllFiled(BindOne(s, r, e))
  {
    hide HeapInv, TablesInv, StatusOk, BoundOk, Alternates, Listen, CloseConn;
    NextIsNew(s.h);
    ListenIs(s.h, r.node, e);
    var (g, made) := Listen(s.h, r.node, e);
    if made.None? { GrownFiled(s.t.stream, s.h, g); }
    if r.node in s.t.servers { GoneQuiet(s.h, s.t.servers[r.node], false, false); }
  }

  lemma SendAwayFiled(s: Pool, m: Message, e: DeliverEnv)
    requires Inv(s) && AllFiled(s)
    ensures AllFiled(SendAway(s, m, e))
  {
    hide HeapInv, TablesInv, StatusOk, BoundOk, Alternates, Connect;
    NextIsNew(s.h);
    ConnectIs(s.h, m.node, e.connect);
    var (g, made) := Connect(s.h, m.node, e.connect);
    if made.None? { GrownFiled(s.t.stream, s.h, g); }
  }

  lemma SendOneFiled(s: Pool, m: Message, e: DeliverEnv)
    requires Inv(s) && Linked(s) && AllFiled(s)
    ensures AllFiled(SendOne(s, m, e))
  {
    hide HeapInv, SendAway, SendOn, StatusOk, BoundOk, Alternates;
    if m.node !in s.t.stream {
      SendAwayFiled(s, m, e);
    } else {
      StreamFacts(s, m.node);
      SendOnFiled(s, s.t.stream[m.node], [m], e.send);
    }
  }

  lemma CloseOneFiled(s: Pool, r: CloseRequest, e: CloseEnv)
    requires Inv(s) && Linked(s) && AllFiled(s)
    ensures AllFiled(CloseOne(s, r, e))
  {
    hide HeapInv, Shutdown, StatusOk, BoundOk, Alternates;
    if r.node in s.t.stream {
      StreamFacts(s, r.node);
      var id := s.t.stream[r.node];
      ArmInv(s, id);
      OwnShutdownFiled(s, id, false, false, false);
      OwnShutdownFiled(s.(h := SetConn(s.h, id, s.h.conns[id].(armed := true))), id, false, true, e.shutdown);
    }
  }

  lemma ExitFiled(s: Pool, e: ExitEnv)
    requires Inv(s) && ExitOrder(s.t, e) && AllFiled(s)
    ensures AllFiled(Exit(s, e))
  {
    hide HeapInv, TablesInv, StatusOk, BoundOk, Alternates, CloseAll;
    var servers, streams := Ids(s.t.servers, e.servers), Ids(s.t.stream, e.streams);
    var h1 := CloseAll(s.h, servers);
    var h2 := CloseAll(h1, streams);
    CloseAllIs(s.h, servers);
    CloseAllIs(h1, streams);
    CloseAllIs(h2, e.dials);
    forall id | id in s.h.conns && Streaming(s.h.conns[id]) ensures id in streams {
      var n := s.h.conns[id].node;
      assert Filed(s.t.stream, s.h.conns[id], id) && n in e.streams;
      var i :| 0 <= i < |e.streams| && e.streams[i] == n;
      assert streams[i] == id;
    }
  }

  lemma NewConnectionFiled(s: Pool, e: NewEnv)
    requires Inv(s) && AllFiled(s)
    ensures AllFiled(NewConnection(s, e))
  {
    hide HeapInv, TablesInv, StatusOk, BoundOk, Alternates, CloseConn, Alloc, Startup, Closed, StreamOk;
    NextIsNew(s.h);
    AllocInv(s.h, true, e.alloc);
    var (h1, made) := Alloc(s.h, true, e.alloc);
    if made.None? {
      GrownFiled(s.t.stream, s.h, h1);
    } else {
      var id, born := s.h.next, s.h.(next := s.h.next + 1);
      var blank, c := NewConn(true, NO_NODE), NewConn(true, Node(Tcp, e.address));
      SetTwice(born, id, blank, c);
      SetTwice(born, id, blank, c.(armed := true));
      SetTwice(born, id, blank, c.(armed := true, reading := true));
      ClosedFreshFiled(s, blank);
      ClosedFreshFiled(s, c);
      ClosedFreshFiled(s, c.(armed := true));
      AcceptedFiled(s, c.(armed := true, reading := true), e.send);
    }
  }

  lemma ClosedFreshFiled(s: Pool, c: Conn)
    requires Inv(s) && AllFiled(s) && c == NewConn(true, c.node).(armed := c.armed)
    ensures FiledBut(s.t.stream, CloseConn(SetConn(s.h.(next := s.h.next + 1), s.h.next, c), s.h.next), None)
  {
    hide HeapInv, TablesInv, CloseConn, Closed;
    NextIsNew(s.h);
    CloseFresh(s.h, c);
    GrownFiled(s.t.stream, s.h, CloseConn(SetConn(s.h.(next := s.h.next + 1), s.h.next, c), s.h.next));
  }

  lemma AcceptedFiled(s: Pool, c: Conn, e: SendEnv)
    requires Inv(s) && AllFiled(s) && c == NewConn(true, Node(Tcp, c.node.address)).(armed := true, reading := true)
    ensures AllFiled(Startup(s.(h := SetConn(s.h.(next := s.h.next + 1), s.h.next, c)), s.h.next, e))
  {
    hide HeapInv, StatusOk, BoundOk, Alternates, Startup;
    AcceptedInv(s, c);
    StartupFiled(s.(h := SetConn(s.h.(next := s.h.next + 1), s.h.next, c)), s.h.next, e);
  }

  // -------------------------------------------------------------- callbacks

  /** The object after its connect request, whatever was started on it meanwhile. */
  lemma DialFiled(s: Pool, id: nat, c: Conn)
    requires Inv(s) && AllFiled(s) && id in s.h.conns && s.h.conns[id].connectReq
    requires c.node == s.h.conns[id].node && c.server == s.h.conns[id].server && c.tcpInited == s.h.conns[id].tcpInited
      && !c.connectReq && ConnOk(c)
    ensures var s1 := s.(t := s.t.(connecting := s.t.connecting - {id}), h := SetConn(s.h, id, c));
      HeapInv(s1.h) && StreamOk(s1.t, s1.h) && FiledBut(s1.t.stream, s1.h, Some(id)) && (OwnEntry(s1, id) <==> OwnEntry(s, id))
  {
    SetConnInv(s.h, id, c);
    assert forall n :: n in s.t.stream ==> s.t.stream[n] != id;
  }

  lemma ConnectDoneFiled(s: Pool, id: nat, e: DoneEnv)
    requires Inv(s) && AllFiled(s) && id in s.h.conns && s.h.conns[id].connectReq
    ensures AllFiled(ConnectDone(s, id, e)) <==>
      (!e.status || s.h.conns[id].closing || !e.timer || !e.read ==> OwnEntry(s, id))
  {
    hide HeapInv, TablesInv, StreamOk, StatusOk, BoundOk, Alternates, Shutdown, Startup, OwnEntry, FiledBut;
    DialFacts(s, id);
    var c := s.h.conns[id].(connectReq := false);
    var s1 := s.(t := s.t.(connecting := s.t.connecting - {id}), h := SetConn(s.h, id, c));
    if !e.status || c.closing || !e.timer {
      DialFiled(s, id, c);
      ShutdownFiled(s1, id, true, false, false);
    } else {
      var d := if e.read then c.(armed := true, reading := true) else c.(armed := true);
      SetTwice(s.h, id, c, d);
      OpenFacts(s.h.conns[id], d);
      DialFiled(s, id, d);
      if e.read {
        StartupFiled(s1.(h := SetConn(s.h, id, d)), id, e.send);
      } else {
        ShutdownFiled(s1.(h := SetConn(s.h, id, d)), id, true, false, false);
      }
    }
  }

  lemma OpenFacts(c: Conn, d: Conn)
    requires ConnOk(c) && !c.closing && !c.server && (d == c.(connectReq := false, armed := true) || d == c.(connectReq := false, armed := true, reading := true))
    ensures ConnOk(d)
  {
  }

  lemma ResetIdleFiled(s: Pool, id: nat, queueEmpty: bool, timer: bool)
    requires HeapInv(s.h) && StreamOk(s.t, s.h) && AllFiled(s) && id in s.h.conns
    requires !s.h.conns[id].closing && !s.h.conns[id].shutdown && !s.h.conns[id].server && !s.h.conns[id].connectReq
    ensures AllFiled(ResetIdle(s, id, queueEmpty, timer))
  {
    hide HeapInv, Shutdown;
    OwnShutdownFiled(s, id, false, false, false);
  }

  lemma WriteDoneFiled(s: Pool, k: nat, e: WriteEnv)
    requires Inv(s) && AllFiled(s) && k < |s.h.writes|
    ensures Linked(s) && (AllFiled(WriteDone(s, k, e)) <==> (e.status || OwnEntry(s, s.h.writes[k].conn)))
  {
    hide HeapInv, StatusOk, BoundOk, Alternates, Shutdown, ResetIdle;
    InvLinked(s);
    WriteFacts(s, k);
    WithoutWriteInv(s.h, k);
    var w := s.h.writes[k];
    var s1 := s.(h := WithoutWrite(s.h, k), log := s.log.(freed := s.log.freed + w.messages));
    var lost := s1.(log := s1.log.(dropped := s1.log.dropped + w.messages));
    var done := s1.(log := s1.log.(written := s1.log.written + w.messages));
    if !e.status {
      ShutdownFiled(lost, w.conn, false, false, false);
    } else if !s.h.conns[w.conn].closing && !s.h.conns[w.conn].shutdown {
      ResetIdleFiled(done, w.conn, e.queueEmpty, e.timer);
    }
  }

  lemma ReadFiled(s: Pool, id: nat, got: ReadResult, queueEmpty: bool, timer: bool)
    requires Inv(s) && AllFiled(s) && id in s.h.conns && s.h.conns[id].reading
    ensures AllFiled(Read(s, id, got, queueEmpty, timer)) <==> (got.Failed? ==> OwnEntry(s, id))
  {
    assert ConnOk(s.h.conns[id]);
    hide HeapInv, StatusOk, BoundOk, Alternates, Shutdown, ResetIdle;
    if got.Failed? {
      ShutdownFiled(s, id, false, false, false);
    } else if !s.h.conns[id].closing && !s.h.conns[id].shutdown {
      ResetIdleFiled(s, id, queueEmpty, timer);
    }
  }

  lemma TimeoutFiled(s: Pool, id: nat)
    requires Inv(s) && AllFiled(s) && id in s.h.conns && s.h.conns[id].armed
    ensures AllFiled(Timeout(s, id)) <==> OwnEntry(s, id)
  {
    assert ConnOk(s.h.conns[id]);
    hide HeapInv, StatusOk, BoundOk, Alternates, Shutdown, Timeout;
    TimeoutIs(s, id);
    ShutdownFiled(s, id, false, false, false);
  }

  /** The callbacks of a closing or shut down object. */
  lemma OutgoingFiled(s: Pool, ev: Event)
    requires Inv(s) && Linked(s) && AllFiled(s) && Enabled(s, ev) && (ev.OnShutdownDone? || ev.OnTcpClosed? || ev.OnTimerClosed?)
    ensures AllFiled(Step(s, ev))
  {
    hide TablesInv, StatusOk, BoundOk, Alternates, WritesOk, DeletedOk, NoWrites;
    match ev
    case OnShutdownDone(id) =>
      assert ConnOk(s.h.conns[id]);
    case OnTcpClosed(id) =>
      assert ConnOk(s.h.conns[id]);
    case OnTimerClosed(id) =>
      assert ConnOk(s.h.conns[id]);
  }

  // ------------------------------------------------------------- the theorem

  /** As long as every open stream is filed, a step keeps it so if and only if each
      connection it gives up is the one its node maps to, or its node maps to none. */
  lemma StepFiled(s: Pool, ev: Event)
    requires Good(s) && Linked(s) && Enabled(s, ev) && AllFiled(s)
    ensures AllFiled(Step(s, ev)) <==> forall id: nat :: GivesUp(s, ev, id) ==> OwnEntry(s, id)
  {
    hide Inv, FlowInv, AllFiled, OwnEntry, BindOne, SendOne, CloseOne, NewConnection, ConnectDone, WriteDone, Read, Timeout, Exit;
    match ev
    case CallBind(_, _) => SameFiled(s, Step(s, ev));
    case CallSend(_, _, _) => SameFiled(s, Step(s, ev));
    case CallClose(_, _) => SameFiled(s, Step(s, ev));
    case CallDestroy => SameFiled(s, Step(s, ev));
    case CallSignal => SameFiled(s, Step(s, ev));
    case Wakeup => SameFiled(s, Step(s, ev));
    case ReadFlag(order) => if s.p.wantExit { ExitFiled(s, order); } else { SameFiled(s, Step(s, ev)); }
    case TurnBind(e) =>
      var s1 := s.(q := s.q.(bindCopy := s.q.bindCopy[1..]));
      QueuesInv(s, s1.q);
      SameFiled(s, s1);
      BindOneFiled(s1, s.q.bindCopy[0], e);
    case TurnSend(e) =>
      var s1 := s.(q := s.q.(sendCopy := s.q.sendCopy[1..]));
      QueuesInv(s, s1.q);
      SameFiled(s, s1);
      SendOneFiled(s1, s.q.sendCopy[0], e);
    case TurnClose(e) =>
      var s1 := s.(q := s.q.(closeCopy := s.q.closeCopy[1..]));
      QueuesInv(s, s1.q);
      SameFiled(s, s1);
      CloseOneFiled(s1, s.q.closeCopy[0], e);
    case WakeupEnd => SameFiled(s, Step(s, ev));
    case OnNewConnection(_, e) => NewConnectionFiled(s, e);
    case OnConnectDone(id, e) => ConnectDoneFiled(s, id, e);
    case OnWriteDone(k, e) => WriteDoneFiled(s, k, e);
    case OnRead(id, got, queueEmpty, timer) => ReadFiled(s, id, got, queueEmpty, timer);
    case OnTimeout(id) => TimeoutFiled(s, id);
    case OnShutdownDone(_) => OutgoingFiled(s, ev);
    case OnTcpClosed(_) => OutgoingFiled(s, ev);
    case OnTimerClosed(_) => OutgoingFiled(s, ev);
  }

  lemma SameFiled(s: Pool, r: Pool)
    requires r.t == s.t && r.h == s.h
    ensures AllFiled(r) == AllFiled(s)
  {
  }

  // --------------------------------------------------------- a stray stream

  const PEER := Node(Tcp, Ip(7))
  const HERE := Node(Tcp, Ip(8))
  const MADE := AllocEnv(true, true, true, true)
  const SENT := SendEnv(true, true, true)

  /** A dial to the peer is under way when the peer connects by itself; then the dial
      fails. */
  const LISTEN := CallBind(HERE, true)
  const GREET := CallSend(PEER, 1, true)
  const READ_FLAG := ReadFlag(ExitEnv([], [], [], [], []))
  const BIND_TURN := TurnBind(BindEnv(MADE, true, true, true))
  const SEND_TURN := TurnSend(DeliverEnv(SENT, ConnectEnv(true, MADE, true, true)))
  const INCOMING := OnNewConnection(0, NewEnv(true, MADE, true, true, Ip(7), true, true, SENT))
  const REFUSED := OnConnectDone(1, DoneEnv(false, true, true, SENT))

  const M0 := Message(0, PEER, true)
  const SERVER := NewConn(false, HERE).(server := true)
  const DIAL := NewConn(true, PEER).(armed := true, connectReq := true)
  const CALLER := NewConn(true, PEER).(armed := true, reading := true)

  /** Both requests are queued. */
  function Asked(): Pool {
    var q := Queues([M0], [BindRequest(HERE, true)], [M0], [], [], [], []);
    Init().(q := q)
  }

  /** The server listens, the message is next. */
  function Bound(): Pool {
    Pool(Phase(false, false, true, false, false, 1), Queues([M0], [], [], [], [], [M0], []),
         Tables(map[HERE := 0], {}, map[], {}, map[]),
         Heap(map[0 := SERVER], 1, [], []),
         Log([], [Status(HERE, true)], [], [], [], [], []))
  }

  /** After both requests were handled: a server, and a dial with one message waiting. */
  function Dialled(): Pool {
    Pool(Phase(false, false, false, false, false, 1), Queues([M0], [], [], [], [], [], []),
         Tables(map[HERE := 0], {}, map[], {1}, map[PEER := [M0]]),
         Heap(map[0 := SERVER, 1 := DIAL], 2, [], []),
         Log([], [Status(HERE, true)], [], [], [], [], []))
  }

  /** The peer's own connection took the message. */
  function Joined(): Pool {
    Pool(Phase(false, false, false, false, false, 1), Queues([M0], [], [], [], [], [], []),
         Tables(map[HERE := 0], {}, map[PEER := 2], {1}, map[]),
         Heap(map[0 := SERVER, 1 := DIAL, 2 := CALLER], 3, [], [Write(2, [M0])]),
         Log([Status(PEER, true)], [Status(HERE, true)], [M0], [], [], [], []))
  }

  lemma AskedIs()
    ensures Linked(Init()) && Enabled(Init(), LISTEN)
    ensures var s1 := Step(Init(), LISTEN); Linked(s1) && Enabled(s1, GREET) && Step(s1, GREET) == Asked()
  {
  }

  lemma BoundIs()
    ensures Linked(Asked()) && Enabled(Asked(), Wakeup)
    ensures Linked(Step(Asked(), Wakeup)) && Enabled(Step(Asked(), Wakeup), READ_FLAG)
    ensures var s2 := Step(Step(Asked(), Wakeup), READ_FLAG); Linked(s2) && Enabled(s2, BIND_TURN) && Step(s2, BIND_TURN) == Bound()
  {
  }

  lemma DialledIs()
    ensures Linked(Bound()) && Enabled(Bound(), SEND_TURN)
    ensures var s1 := Step(Bound(), SEND_TURN); Linked(s1) && Enabled(s1, WakeupEnd) && Step(s1, WakeupEnd) == Dialled()
  {
    var s1 := Step(Bound(), SEND_TURN);
    assert [] + [M0] == [M0];
    assert s1.t == Dialled().t;
    SetTwice(Bound().h.(next := 2), 1, NewConn(true, NO_NODE), DIAL);
    assert s1.h == Dialled().h;
  }

  lemma JoinedIs()
    ensures Linked(Dialled()) && Enabled(Dialled(), INCOMING) && Step(Dialled(), INCOMING) == Joined()
  {
  }

  /** The dial has failed and has taken the entry of the other connection with it. */
  function Strayed(): Pool {
    Joined().(t := Tables(map[HERE := 0], {}, map[], {}, map[]),
              h := Heap(map[0 := SERVER, 1 := Closed(DIAL.(connectReq := false)), 2 := CALLER], 3, [], [Write(2, [M0])]),
              log := Joined().log.(status := [Status(PEER, true), Status(PEER, false)]))
  }

  lemma StrayIs()
    ensures Linked(Joined()) && Enabled(Joined(), REFUSED) && Step(Joined(), REFUSED) == Strayed()
    ensures !AllFiled(Strayed())
  {
    var r := Step(Joined(), REFUSED);
    assert r.t == Strayed().t && r.log == Strayed().log;
    assert r.h == Strayed().h;
    assert !Filed(r.t.stream, r.h.conns[2], 2);
  }

  lemma StrayReachable()
    ensures Reachable(Strayed())
  {
    hide Reachable, Linked, Enabled, Step, AllFiled, Init, Asked, Bound, Dialled, Joined, Strayed;
    StartReachable();
    AskedIs();
    ReachableStep(Init(), LISTEN);
    ReachableStep(Step(Init(), LISTEN), GREET);
    BoundIs();
    ReachableStep(Asked(), Wakeup);
    var taken := Step(Asked(), Wakeup);
    ReachableStep(taken, READ_FLAG);
    ReachableStep(Step(taken, READ_FLAG), BIND_TURN);
    DialledIs();
    ReachableStep(Bound(), SEND_TURN);
    ReachableStep(Step(Bound(), SEND_TURN), WakeupEnd);
    JoinedIs();
    ReachableStep(Dialled(), INCOMING);
    StrayIs();
    ReachableStep(Joined(), REFUSED);
  }

  /** Some run leaves an open stream the table does not lead to. */
  lemma StrayStream()
    ensures exists s :: Reachable(s) && !AllFiled(s)
  {
    hide Reachable, Strayed, AllFiled;
    StrayReachable();
    StrayIs();
  }
}
