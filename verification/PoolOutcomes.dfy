/** What each request and each callback of the pool comes to, in terms of the tables, the
    objects and the notifications, for every answer libuv may give. */
module PoolOutcomes {
  import opened Common
  import opened PoolModel
  import opened PoolHeap
  import opened PoolTables
  import opened PoolSteps
  import opened PoolFlow
  import opened PoolRuns
  import opened PoolTheorems
  import opened PoolDelivery
  import PoolExit
  import PoolStray

  /** No object other than `id` has changed, come or gone. */
  ghost predicate OthersSame(h: Heap, g: Heap, id: nat) {
    forall k :: k != id ==> (k in h.conns <==> k in g.conns) && (k in h.conns ==> g.conns[k] == h.conns[k])
  }

  /** Both handles are given to `uv_close`, once; nothing more is read, no timer runs. */
  predicate GoingDown(c: Conn) {
    c.closing && !c.armed && !c.reading && (c.tcpInited ==> c.tcpCloses == 1) && (c.timerInited ==> c.timerCloses == 1)
  }

  /** The object is still open, but its shutdown is under way and its timer runs. */
  predicate Draining(c: Conn) {
    !c.closing && c.shutdown && c.shutdownReq && c.armed
  }

  /** Its node is out of the tables, reported down if it was up or `always`; what waited
      for it is dropped after `lost`, and freed. */
  ghost predicate Forgotten(s: Pool, r: Pool, n: Node, lost: seq<Message>, always: bool) {
    var waited := if n in s.t.waiting then s.t.waiting[n] else [];
    && r.t.stream == s.t.stream - {n} && r.t.waiting == s.t.waiting - {n}
    && r.t.servers == s.t.servers && r.t.udpServers == s.t.udpServers
    && r.log.status == s.log.status + (if n in s.t.stream || always then [Status(n, false)] else [])
    && r.log.dropped == s.log.dropped + (lost + waited)
  }

  lemma ShutdownForgets(s: Pool, id: nat, always: bool, graceful: bool, ok: bool)
    requires id in s.h.conns
    ensures Forgotten(s, Shutdown(s, id, always, graceful, ok), s.h.conns[id].node, [], always)
    ensures Shutdown(s, id, always, graceful, ok).t.connecting == s.t.connecting
  {
    hide CloseConn, ShutdownConn;
    var node := s.h.conns[id].node;
    assert node !in s.t.waiting ==> s.t.waiting - {node} == s.t.waiting;
    assert [] + (if node in s.t.waiting then s.t.waiting[node] else []) == if node in s.t.waiting then s.t.waiting[node] else [];
  }

  /** What closing leaves of a good object. */
  lemma ClosedDown(h: Heap, id: nat)
    requires HeapInv(h) && id in h.conns
    ensures var g := CloseConn(h, id); id in g.conns && GoingDown(g.conns[id]) && OthersSame(h, g, id) && g.writes == h.writes
  {
    assert ConnOk(h.conns[id]);
    CloseConnInv(h, id);
    hide HeapInv, CloseConn;
  }

  // ---------------------------------------------------------- close requests

  /** A close request for a node with a stream takes it out of the table and reports it
      down, once. Forced, or when the timer or the shutdown is refused, the object goes
      down; otherwise it stays open until what is in flight has gone out. For a node
      without a stream nothing happens. */
  lemma CloseTurn(s: Pool, e: CloseEnv)
    requires Good(s) && Linked(s) && Enabled(s, TurnClose(e))
    ensures var c := s.q.closeCopy[0]; var n := c.node; var r := Step(s, TurnClose(e));
      if n in s.t.stream then
        var id := s.t.stream[n];
        && n !in r.t.stream && (forall k :: k != n ==> (k in r.t.stream <==> k in s.t.stream) && (k in s.t.stream ==> r.t.stream[k] == s.t.stream[k]))
        && r.t == s.t.(stream := r.t.stream) && r.log == s.log.(status := s.log.status + [Status(n, false)])
        && id in s.h.conns && id in r.h.conns && OthersSame(s.h, r.h, id) && r.h.writes == s.h.writes
        && (if c.force || !e.timer || !e.shutdown then GoingDown(r.h.conns[id]) else Draining(r.h.conns[id]))
      else r.t == s.t && r.h == s.h && r.log == s.log
  {
    var s1 := s.(q := s.q.(closeCopy := s.q.closeCopy[1..]));
    QueuesInv(s, s1.q);
    TurnCloseIs(s, e);
    hide Good, Linked, Enabled, Step, Inv, CloseOne;
    if s.q.closeCopy[0].node in s.t.stream {
      CloseActs(s1, s.q.closeCopy[0], e);
    } else {
      CloseMisses(s1, s.q.closeCopy[0], e);
    }
  }

  lemma TurnCloseIs(s: Pool, e: CloseEnv)
    requires Linked(s) && Enabled(s, TurnClose(e))
    ensures s.q.closeCopy != [] && (forall n :: n in s.t.stream ==> s.t.stream[n] in s.h.conns)
    ensures Step(s, TurnClose(e)) == CloseOne(s.(q := s.q.(closeCopy := s.q.closeCopy[1..])), s.q.closeCopy[0], e)
  {
    hide CloseOne;
  }

  lemma CloseMisses(s: Pool, r: CloseRequest, e: CloseEnv)
    requires (forall n :: n in s.t.stream ==> s.t.stream[n] in s.h.conns) && r.node !in s.t.stream
    ensures CloseOne(s, r, e) == s
  {
  }

  lemma CloseActs(s: Pool, c: CloseRequest, e: CloseEnv)
    requires Inv(s) && (forall n :: n in s.t.stream ==> s.t.stream[n] in s.h.conns) && c.node in s.t.stream
    ensures var n := c.node; var r := CloseOne(s, c, e); var id := s.t.stream[n];
      && r.t == s.t.(stream := s.t.stream - {n}) && r.log == s.log.(status := s.log.status + [Status(n, false)])
      && id in r.h.conns && OthersSame(s.h, r.h, id) && r.h.writes == s.h.writes
      && (if c.force || !e.timer || !e.shutdown then GoingDown(r.h.conns[id]) else Draining(r.h.conns[id]))
  {
    var id := s.t.stream[c.node];
    StreamFacts(s, c.node);
    StreamNotWaiting(s, c.node);
    if c.force || !e.timer {
      ClosedDown(s.h, id);
      hide Inv, HeapInv, CloseConn, Shutdown;
      NoOneWaits(s, id, false, false);
    } else {
      DrainActs(s, id, e.shutdown);
      hide Inv, HeapInv, CloseConn, ShutdownConn, Shutdown;
      NoOneWaits(s.(h := SetConn(s.h, id, s.h.conns[id].(armed := true))), id, true, e.shutdown);
    }
  }

  /** The graceful close of an open stream. */
  lemma DrainActs(s: Pool, id: nat, ok: bool)
    requires Inv(s) && id in s.h.conns && Established(s.h.conns[id], s.h.conns[id].node)
    ensures var h := SetConn(s.h, id, s.h.conns[id].(armed := true)); var g := ShutdownConn(h, id, ok);
      && id in g.conns && OthersSame(s.h, g, id) && g.writes == s.h.writes
      && (if ok then Draining(g.conns[id]) else GoingDown(g.conns[id]))
  {
    ArmInv(s, id);
    var h := SetConn(s.h, id, s.h.conns[id].(armed := true));
    assert ConnOk(h.conns[id]);
    hide Inv, HeapInv;
    ClosedDown(h, id);
    ShutdownConnInv(h, id, ok);
  }

  lemma NoOneWaits(s: Pool, id: nat, graceful: bool, ok: bool)
    requires id in s.h.conns && s.h.conns[id].node in s.t.stream && s.h.conns[id].node !in s.t.waiting
    ensures var n := s.h.conns[id].node; var r := Shutdown(s, id, false, graceful, ok);
      && r.t == s.t.(stream := s.t.stream - {n}) && r.log == s.log.(status := s.log.status + [Status(n, false)])
      && r.h == if graceful then ShutdownConn(s.h, id, ok) else CloseConn(s.h, id)
  {
    hide CloseConn, ShutdownConn;
  }

  // ----------------------------------------------------------- bind requests

  /** Every call of the bind succeeds. */
  predicate BindSucceeds(e: BindEnv) {
    !AllocFails(false, e.alloc) && e.bind && e.listen
  }

  /** What the request should leave: the node bound or not. */
  predicate ShouldBeBound(s: Pool, b: BindRequest, e: BindEnv) {
    match b.node.protocol
    case Tcp => b.bind && (b.node in s.t.servers || BindSucceeds(e))
    case Udp => b.bind && (b.node in s.t.udpServers || e.udp)
    case Unknown => false
  }

  /** The entries of all other nodes are as they were, and so are all other tables. */
  ghost predicate OtherServersSame(t: Tables, later: Tables, n: Node) {
    && (forall k :: k != n ==> (k in later.servers <==> k in t.servers) && (k in t.servers ==> later.servers[k] == t.servers[k]))
    && (forall k :: k != n ==> (k in later.udpServers <==> k in t.udpServers))
    && later.stream == t.stream && later.connecting == t.connecting && later.waiting == t.waiting
  }

  /** The objects of before are as they were, except this one, and nothing new is open but
      this one. */
  ghost predicate OnlyTouches(h: Heap, g: Heap, id: nat) {
    && (forall k :: k in h.conns && k != id ==> k in g.conns && g.conns[k] == h.conns[k])
    && (forall k :: k in g.conns && k !in h.conns && k != id ==> g.conns[k].closing)
    && g.writes == h.writes
  }

  /** Afterwards the node is in the table of its protocol exactly if the notification, the
      only one, says so: after an unbind it is in none, after a bind it is there if it was
      bound before or every call succeeded. A server listens under its own node; one that
      was unbound goes down. */
  ghost predicate BindOutcome(s: Pool, b: BindRequest, e: BindEnv, t: Tables, h: Heap, log: Log) {
    var n, up := b.node, ShouldBeBound(s, b, e);
    && log == s.log.(bound := s.log.bound + [Status(n, up)]) && OtherServersSame(s.t, t, n)
    && (n in t.servers <==> n.protocol == Tcp && up) && (n in t.udpServers <==> n.protocol == Udp && up)
    && (n in s.t.servers && b.bind ==> n in t.servers && t.servers[n] == s.t.servers[n] && h == s.h)
    && (n in s.t.servers && !b.bind ==>
          s.t.servers[n] in h.conns && GoingDown(h.conns[s.t.servers[n]]) && OnlyTouches(s.h, h, s.t.servers[n]))
    && (n !in s.t.servers ==> OnlyTouches(s.h, h, if n in t.servers then t.servers[n] else s.h.next))
    && (n !in s.t.servers && n !in t.servers && s.h.next in h.conns ==> h.conns[s.h.next].closing)
    && (n in t.servers ==> t.servers[n] in h.conns && Listening(h.conns[t.servers[n]], n))
  }

  lemma BindTurn(s: Pool, e: BindEnv)
    requires Good(s) && Linked(s) && Enabled(s, TurnBind(e))
    ensures s.q.bindCopy != []
    ensures var r := Step(s, TurnBind(e)); BindOutcome(s, s.q.bindCopy[0], e, r.t, r.h, r.log)
  {
    var s1 := s.(q := s.q.(bindCopy := s.q.bindCopy[1..]));
    QueuesInv(s, s1.q);
    TurnBindIs(s, e);
    hide Good, Linked, Enabled, Step, Inv, BindOne, ShouldBeBound, OtherServersSame, OnlyTouches, GoingDown;
    BindOneOutcome(s1, s.q.bindCopy[0], e);
    SameShould(s, s1, s.q.bindCopy[0], e);
  }

  lemma SameShould(s: Pool, s1: Pool, b: BindRequest, e: BindEnv)
    requires s1.t == s.t
    ensures ShouldBeBound(s1, b, e) == ShouldBeBound(s, b, e)
  {
  }

  lemma BindOneOutcome(s: Pool, b: BindRequest, e: BindEnv)
    requires Inv(s) && (forall n :: n in s.t.servers ==> s.t.servers[n] in s.h.conns)
    ensures var r := BindOne(s, b, e); BindOutcome(s, b, e, r.t, r.h, r.log)
  {
    hide Inv, BindTcp, BindUdp, BindOutcome;
    match b.node.protocol
    case Tcp => TcpOutcome(s, b, e);
    case Udp => UdpOutcome(s, b, e);
    case Unknown => UnknownOutcome(s, b, e);
  }

  lemma TcpOutcome(s: Pool, b: BindRequest, e: BindEnv)
    requires Inv(s) && (forall n :: n in s.t.servers ==> s.t.servers[n] in s.h.conns) && b.node.protocol == Tcp
    ensures var r := BindTcp(s, b, e); BindOutcome(s, b, e, r.t, r.h, r.log)
  {
    hide Inv, BindTcp, BindOutcome;
    if b.node in s.t.servers { BoundOutcome(s, b, e); } else { UnboundOutcome(s, b, e); }
  }

  lemma BoundOutcome(s: Pool, b: BindRequest, e: BindEnv)
    requires Inv(s) && (forall n :: n in s.t.servers ==> s.t.servers[n] in s.h.conns) && b.node.protocol == Tcp && b.node in s.t.servers
    ensures var r := BindTcp(s, b, e); BindOutcome(s, b, e, r.t, r.h, r.log)
  {
    NoTcpServer(s, b.node);
    BoundBefore(s, b, e);
    hide Inv, BindTcp, GoingDown, BindSucceeds;
  }

  lemma UnboundOutcome(s: Pool, b: BindRequest, e: BindEnv)
    requires Inv(s) && (forall n :: n in s.t.servers ==> s.t.servers[n] in s.h.conns) && b.node.protocol == Tcp && b.node !in s.t.servers
    ensures var r := BindTcp(s, b, e); BindOutcome(s, b, e, r.t, r.h, r.log)
  {
    NoTcpServer(s, b.node);
    if b.bind { BindNew(s, b, e); } else { UnbindMisses(s, b, e); }
    hide Inv, BindTcp, GoingDown, BindSucceeds;
  }

  lemma UdpOutcome(s: Pool, b: BindRequest, e: BindEnv)
    requires Inv(s) && b.node.protocol == Udp
    ensures var r := BindUdp(s, b, e); BindOutcome(s, b, e, r.t, r.h, r.log)
  {
    NoTcpServer(s, b.node);
    BindDatagrams(s, b, e);
    hide Inv, BindUdp, GoingDown, BindSucceeds;
  }

  lemma UnknownOutcome(s: Pool, b: BindRequest, e: BindEnv)
    requires Inv(s) && b.node.protocol == Unknown
    ensures var r := ReportBind(s, b.node, false); BindOutcome(s, b, e, r.t, r.h, r.log)
  {
    NoTcpServer(s, b.node);
    hide Inv, GoingDown, BindSucceeds;
  }

  lemma TurnBindIs(s: Pool, e: BindEnv)
    requires Linked(s) && Enabled(s, TurnBind(e))
    ensures s.q.bindCopy != [] && (forall n :: n in s.t.servers ==> s.t.servers[n] in s.h.conns)
    ensures Step(s, TurnBind(e)) == BindOne(s.(q := s.q.(bindCopy := s.q.bindCopy[1..])), s.q.bindCopy[0], e)
  {
    hide BindOne;
  }

  lemma BoundBefore(s: Pool, b: BindRequest, e: BindEnv)
    requires Inv(s) && (forall n :: n in s.t.servers ==> s.t.servers[n] in s.h.conns) && b.node in s.t.servers
    ensures var n := b.node; var r := BindTcp(s, b, e); var id := s.t.servers[n];
      && Listening(s.h.conns[id], n)
      && r.log == s.log.(bound := s.log.bound + [Status(n, b.bind)])
      && if b.bind then r.t == s.t && r.h == s.h
         else
           && r.t == s.t.(servers := s.t.servers - {n})
           && id in r.h.conns && GoingDown(r.h.conns[id]) && OnlyTouches(s.h, r.h, id)
  {
    ClosedDown(s.h, s.t.servers[b.node]);
    hide HeapInv, CloseConn, StatusOk, BoundOk, Alternates;
  }

  lemma UnbindMisses(s: Pool, b: BindRequest, e: BindEnv)
    requires (forall n :: n in s.t.servers ==> s.t.servers[n] in s.h.conns) && b.node !in s.t.servers && !b.bind
    ensures BindTcp(s, b, e) == s.(log := s.log.(bound := s.log.bound + [Status(b.node, false)]))
  {
  }

  lemma BindNew(s: Pool, b: BindRequest, e: BindEnv)
    requires Inv(s) && (forall n :: n in s.t.servers ==> s.t.servers[n] in s.h.conns) && b.node !in s.t.servers && b.bind
    ensures var n := b.node; var r := BindTcp(s, b, e); var id := s.h.next;
      && id !in s.h.conns
      && r.log == s.log.(bound := s.log.bound + [Status(n, BindSucceeds(e))])
      && r.t == (if BindSucceeds(e) then s.t.(servers := s.t.servers[n := id]) else s.t)
      && OnlyTouches(s.h, r.h, id)
      && (if BindSucceeds(e) then id in r.h.conns && r.h.conns[id].server && !r.h.conns[id].closing && r.h.conns[id].node == n
          else id in r.h.conns ==> r.h.conns[id].closing)
  {
    ListenSucceeds(s.h, b.node, e);
    ListenIs(s.h, b.node, e);
    NextIsNew(s.h);
    hide Inv, HeapInv, Listen, AllocFails;
  }

  lemma ListenSucceeds(h: Heap, node: Node, e: BindEnv)
    ensures Listen(h, node, e).1.Some? <==> BindSucceeds(e)
  {
    AllocSucceeds(h, false, e.alloc);
    hide CloseConn, Alloc, AllocFails;
  }

  lemma BindDatagrams(s: Pool, b: BindRequest, e: BindEnv)
    ensures var n := b.node; var r := BindUdp(s, b, e); var up := b.bind && (n in s.t.udpServers || e.udp);
      && r.log == s.log.(bound := s.log.bound + [Status(n, up)]) && r.h == s.h
      && r.t == s.t.(udpServers := if up then s.t.udpServers + {n} else s.t.udpServers - {n})
  {
    var n := b.node;
    assert n in s.t.udpServers ==> s.t.udpServers + {n} == s.t.udpServers;
    assert n !in s.t.udpServers ==> s.t.udpServers - {n} == s.t.udpServers;
  }

  // ---------------------------------------------------------- send requests

  /** What becomes of a message whose turn has come. */
  ghost predicate SendOutcome(s: Pool, m: Message, e: DeliverEnv, t: Tables, h: Heap, log: Log) {
    var dropped := s.log.(dropped := s.log.dropped + [m], freed := s.log.freed + [m]);
    var down := [Status(m.node, false)];
    match m.node.protocol
    case Udp => t == s.t && h == s.h && log == s.log.(udp := s.log.udp + [m], freed := s.log.freed + [m])
    case Unknown => t == s.t && h == s.h && log == dropped.(status := s.log.status + if m.autoConnect then down else [])
    case Tcp =>
      if m.node in s.t.stream then
        var id := s.t.stream[m.node];
        && id in h.conns && OthersSame(s.h, h, id)
        && if !e.send.memory then t == s.t && h == s.h && log == dropped
           else if e.send.timer && e.send.write then
             && t == s.t && !h.conns[id].closing && h.conns[id].armed
             && h.writes == s.h.writes + [Write(id, [m])] && log == s.log.(handed := s.log.handed + [m])
           else
             && t == s.t.(stream := s.t.stream - {m.node}) && GoingDown(h.conns[id]) && h.writes == s.h.writes
             && log == dropped.(status := s.log.status + down)
      else if m.node in s.t.waiting then
        t == s.t.(waiting := s.t.waiting[m.node := s.t.waiting[m.node] + [m]]) && h == s.h && log == s.log
      else if !m.autoConnect then t == s.t && h == s.h && log == dropped
      else
        var id := s.h.next;
        && OnlyTouches(s.h, h, id)
        && if DialFails(m.node, e.connect) then
             t == s.t && (id in h.conns ==> h.conns[id].closing) && log == dropped.(status := s.log.status + down)
           else
             && t == s.t.(waiting := s.t.waiting[m.node := [m]], connecting := s.t.connecting + {id}) && log == s.log
             && id in h.conns && h.conns[id].node == m.node && h.conns[id].connectReq && h.conns[id].armed
             && !h.conns[id].closing && !h.conns[id].server
  }

  /** On its node's stream a message is written, or lost with it; without a stream it waits
      last in line or has its node dialled, if it asks for that; a dial that fails at once
      is reported down and loses its message alone. A datagram counts as sent, and what has
      no known protocol is dropped, reported down if it asked for a connection. */
  lemma SendTurn(s: Pool, e: DeliverEnv)
    requires Good(s) && Linked(s) && Enabled(s, TurnSend(e))
    ensures s.q.sendCopy != []
    ensures var r := Step(s, TurnSend(e)); SendOutcome(s, s.q.sendCopy[0], e, r.t, r.h, r.log)
  {
    var s1 := s.(q := s.q.(sendCopy := s.q.sendCopy[1..]));
    QueuesInv(s, s1.q);
    TurnSendIs(s, e);
    hide Good, Linked, Enabled, Step, Inv, SendOne, OthersSame, OnlyTouches, GoingDown, DialFails;
    SendOneOutcome(s1, s.q.sendCopy[0], e);
  }

  lemma TurnSendIs(s: Pool, e: DeliverEnv)
    requires Linked(s) && Enabled(s, TurnSend(e))
    ensures s.q.sendCopy != [] && (forall n :: n in s.t.stream ==> s.t.stream[n] in s.h.conns)
    ensures Step(s, TurnSend(e)) == SendOne(s.(q := s.q.(sendCopy := s.q.sendCopy[1..])), s.q.sendCopy[0], e)
  {
    hide SendOne;
  }

  lemma SendOneOutcome(s: Pool, m: Message, e: DeliverEnv)
    requires Inv(s) && (forall n :: n in s.t.stream ==> s.t.stream[n] in s.h.conns)
    ensures var r := SendOne(s, m, e); SendOutcome(s, m, e, r.t, r.h, r.log)
  {
    hide Inv, SendOne, SendOutcome;
    if m.node.protocol != Tcp {
      NotTcpOutcome(s, m, e);
    } else if m.node in s.t.stream {
      StreamOutcome(s, m, e);
    } else {
      AwayOutcome(s, m, e);
    }
  }

  lemma NotTcpOutcome(s: Pool, m: Message, e: DeliverEnv)
    requires (forall n :: n in s.t.stream ==> s.t.stream[n] in s.h.conns) && m.node.protocol != Tcp
    ensures var r := SendOne(s, m, e); SendOutcome(s, m, e, r.t, r.h, r.log)
  {
    assert s.log.status + [] == s.log.status;
  }

  lemma StreamOutcome(s: Pool, m: Message, e: DeliverEnv)
    requires Inv(s) && (forall n :: n in s.t.stream ==> s.t.stream[n] in s.h.conns) && m.node.protocol == Tcp && m.node in s.t.stream
    ensures var r := SendOne(s, m, e); SendOutcome(s, m, e, r.t, r.h, r.log)
  {
    var id := s.t.stream[m.node];
    StreamFacts(s, m.node);
    StreamNotWaiting(s, m.node);
    ClosedDown(s.h, id);
    NoOneWaits(Drop(s, [m]), id, false, false);
    hide Inv, HeapInv, CloseConn, Shutdown, GoingDown;
  }

  lemma AwayOutcome(s: Pool, m: Message, e: DeliverEnv)
    requires Inv(s) && (forall n :: n in s.t.stream ==> s.t.stream[n] in s.h.conns) && m.node.protocol == Tcp && m.node !in s.t.stream
    ensures var r := SendOne(s, m, e); SendOutcome(s, m, e, r.t, r.h, r.log)
  {
    if m.node !in s.t.waiting && m.autoConnect {
      DialOutcome(s, m, e);
      hide SendOutcome;
    } else {
      hide Inv, Connect, DialFails;
    }
  }

  lemma DialOutcome(s: Pool, m: Message, e: DeliverEnv)
    requires Inv(s) && m.node.protocol == Tcp && m.node !in s.t.stream && m.node !in s.t.waiting && m.autoConnect
    requires forall n :: n in s.t.stream ==> s.t.stream[n] in s.h.conns
    ensures var r := SendOne(s, m, e); SendOutcome(s, m, e, r.t, r.h, r.log)
  {
    NextIsNew(s.h);
    ConnectIs(s.h, m.node, e.connect);
    ConnectSucceeds(s.h, m.node, e.connect);
    DialFailed(s, m, Connect(s.h, m.node, e.connect).0);
    assert [] + [m] == [m];
    hide Inv, HeapInv, Connect, DialFails;
  }

  // ------------------------------------------------------- new connections

  /** What becomes of an object ready to be the stream of its node: it is, and is reported
      up, and what waited is written on it, dropped for want of memory, or lost with the
      object when libuv refuses. */
  ghost predicate UpOutcome(s: Pool, n: Node, id: nat, e: SendEnv, r: Pool) {
    var up := s.log.status + [Status(n, true)];
    && r.t.connecting == s.t.connecting - {id} && r.t.servers == s.t.servers && r.t.udpServers == s.t.udpServers
    && r.t.waiting == s.t.waiting - {n} && id in r.h.conns
    && if n !in s.t.waiting || SendAccepted(e) || !e.memory then
         && r.t.stream == s.t.stream[n := id]
         && Established(r.h.conns[id], n) && r.h.conns[id].reading && r.h.conns[id].armed
         && if n !in s.t.waiting then r.h.writes == s.h.writes && r.log == s.log.(status := up)
            else if SendAccepted(e) then
              r.h.writes == s.h.writes + [Write(id, s.t.waiting[n])] && r.log == s.log.(status := up, handed := s.log.handed + s.t.waiting[n])
            else
              && r.h.writes == s.h.writes
              && r.log == s.log.(status := up, dropped := s.log.dropped + s.t.waiting[n], freed := s.log.freed + s.t.waiting[n])
       else
         && r.t.stream == s.t.stream && GoingDown(r.h.conns[id]) && r.h.writes == s.h.writes
         && r.log == s.log.(status := up + [Status(n, false)], dropped := s.log.dropped + s.t.waiting[n], freed := s.log.freed + s.t.waiting[n])
  }

  predicate SendAccepted(e: SendEnv) {
    e.memory && e.timer && e.write
  }

  lemma StartupOutcome(s: Pool, id: nat, e: SendEnv)
    requires HeapInv(s.h) && id in s.h.conns && Ripe(s.h.conns[id]) && s.h.conns[id].reading && s.h.conns[id].armed
    requires s.h.conns[id].node.address.Ip? && s.h.conns[id].node !in s.t.stream && id !in s.t.connecting
    ensures UpOutcome(s, s.h.conns[id].node, id, e, Startup(s, id, e)) && OthersSame(s.h, Startup(s, id, e).h, id)
  {
    var n := s.h.conns[id].node;
    StartupIs(s, id, e);
    ClosedDown(s.h, id);
    assert s.t.connecting - {id} == s.t.connecting;
    assert s.t.stream[n := id] - {n} == s.t.stream;
    if n in s.t.waiting {
      NoOneWaits(Drop(Risen(s, id), s.t.waiting[n]), id, false, false);
    } else {
      assert s.t.waiting - {n} == s.t.waiting;
    }
    hide HeapInv, CloseConn, Shutdown, Startup, GoingDown;
  }

  /** Some call failed, or there is nobody to talk to. */
  predicate AcceptFails(s: Pool, e: NewEnv) {
    || !e.status || AllocFails(true, e.alloc) || !e.accept || !e.peer
    || e.address.Invalid? || Node(Tcp, e.address) in s.t.stream || !e.timer || !e.read
  }

  /** An incoming connection becomes the stream of its peer's node; if a call fails or the
      node has a stream, nothing is told and nothing is left but an object going down. */
  lemma NewConnectionOutcome(s: Pool, server: nat, e: NewEnv)
    requires Good(s) && Linked(s) && Enabled(s, OnNewConnection(server, e))
    ensures var r := Step(s, OnNewConnection(server, e)); var id := s.h.next;
      && id !in s.h.conns && OthersSame(s.h, r.h, id)
      && if AcceptFails(s, e) then
           r.t == s.t && r.log == s.log && r.h.writes == s.h.writes && (id in r.h.conns ==> r.h.conns[id].closing)
         else UpOutcome(s, Node(Tcp, e.address), id, e.send, r)
  {
    hide Inv, FlowInv, NewConnection, OthersSame, AcceptFails, UpOutcome;
    if AcceptFails(s, e) { NotAccepted(s, e); } else { AcceptedUp(s, e); }
  }

  lemma NotAccepted(s: Pool, e: NewEnv)
    requires Inv(s) && AcceptFails(s, e)
    ensures var r := NewConnection(s, e); var id := s.h.next;
      && id !in s.h.conns && OthersSame(s.h, r.h, id)
      && r.t == s.t && r.log == s.log && r.h.writes == s.h.writes && (id in r.h.conns ==> r.h.conns[id].closing)
  {
    NextIsNew(s.h);
    AllocInv(s.h, true, e.alloc);
    AllocSucceeds(s.h, true, e.alloc);
    var (h1, made) := Alloc(s.h, true, e.alloc);
    hide Inv, HeapInv, CloseConn, Alloc, Closed, AllocFails, Startup;
    if made.Some? {
      var id, born := s.h.next, s.h.(next := s.h.next + 1);
      var blank, c := NewConn(true, NO_NODE), NewConn(true, Node(Tcp, e.address));
      SetTwice(born, id, blank, c);
      SetTwice(born, id, blank, c.(armed := true));
      FreshDown(s.h, blank);
      FreshDown(s.h, c);
      FreshDown(s.h, c.(armed := true));
    }
  }

  lemma AcceptedUp(s: Pool, e: NewEnv)
    requires Inv(s) && !AcceptFails(s, e)
    ensures var r := NewConnection(s, e); var id := s.h.next;
      id !in s.h.conns && OthersSame(s.h, r.h, id) && UpOutcome(s, Node(Tcp, e.address), id, e.send, r)
  {
    NextIsNew(s.h);
    AllocInv(s.h, true, e.alloc);
    AllocSucceeds(s.h, true, e.alloc);
    var c := NewConn(true, Node(Tcp, e.address)).(armed := true, reading := true);
    SetTwice(s.h.(next := s.h.next + 1), s.h.next, NewConn(true, NO_NODE), c);
    FreshUp(s, c, e.send);
    hide Inv, HeapInv, CloseConn, Alloc, AllocFails, Startup, OthersSame, UpOutcome;
  }

  lemma NotDialled(s: Pool)
    requires Inv(s)
    ensures s.h.next !in s.t.connecting
  {
  }

  lemma FreshDown(h: Heap, c: Conn)
    requires HeapInv(h) && c == NewConn(true, c.node).(armed := c.armed)
    ensures var g := CloseConn(SetConn(h.(next := h.next + 1), h.next, c), h.next);
      OthersSame(h, g, h.next) && g.writes == h.writes && h.next in g.conns && g.conns[h.next].closing
  {
    NextIsNew(h);
    CloseFresh(h, c);
    hide HeapInv, CloseConn;
  }

  lemma FreshUp(s: Pool, c: Conn, e: SendEnv)
    requires Inv(s) && c == NewConn(true, c.node).(armed := true, reading := true) && c.node.protocol == Tcp
    requires c.node.address.Ip? && c.node !in s.t.stream
    ensures var id := s.h.next; var r := Startup(s.(h := SetConn(s.h.(next := id + 1), id, c)), id, e);
      UpOutcome(s, c.node, id, e, r) && OthersSame(s.h, r.h, id)
  {
    NotDialled(s);
    BornInv(s.h, c);
    var id := s.h.next;
    var s1 := s.(h := SetConn(s.h.(next := id + 1), id, c));
    assert OthersSame(s.h, s1.h, id);
    hide Inv, HeapInv, Startup, UpOutcome, OthersSame;
    StartupOutcome(s1, id, e);
    SameUp(s, s1, c.node, id, e, Startup(s1, id, e));
    SameTwice(s.h, s1.h, Startup(s1, id, e).h, id);
  }

  lemma SameUp(s: Pool, s1: Pool, n: Node, id: nat, e: SendEnv, r: Pool)
    requires UpOutcome(s1, n, id, e, r) && s1.log == s.log && s1.h.writes == s.h.writes
    requires s1.t == s.t.(connecting := s1.t.connecting) && s1.t.connecting - {id} == s.t.connecting - {id}
    ensures UpOutcome(s, n, id, e, r)
  {
    hide GoingDown, Established;
  }

  lemma SameTwice(h: Heap, g: Heap, f: Heap, id: nat)
    requires OthersSame(h, g, id) && OthersSame(g, f, id)
    ensures OthersSame(h, f, id)
  {
  }

  // ---------------------------------------------------------------- connects

  lemma DownOutcome(s: Pool, id: nat, lost: seq<Message>, always: bool)
    requires HeapInv(s.h) && id in s.h.conns
    ensures var r := Shutdown(s, id, always, false, false);
      && Forgotten(s, r, s.h.conns[id].node, [], always) && r.t.connecting == s.t.connecting
      && id in r.h.conns && GoingDown(r.h.conns[id]) && OthersSame(s.h, r.h, id) && r.h.writes == s.h.writes
  {
    ClosedDown(s.h, id);
    hide HeapInv, CloseConn, Shutdown, Forgotten, GoingDown, OthersSame;
    ShutdownForgets(s, id, always, false, false);
    ShutdownIs(s, id, always, false, false);
  }

  /** The end of a connect. If it failed, or the object cannot be taken into service, its
      node is reported down, whether it was up or not, everything waiting for it is dropped
      and the object goes down. If the node got a stream meanwhile, only the object goes
      down. Otherwise it is the stream of its node from now on. */
  lemma ConnectOutcome(s: Pool, id: nat, e: DoneEnv)
    requires Good(s) && Linked(s) && Enabled(s, OnConnectDone(id, e))
    ensures var n := s.h.conns[id].node; var r := Step(s, OnConnectDone(id, e));
      && OthersSame(s.h, r.h, id)
      && if ConnectFails(s.h.conns[id], e) then
           && Forgotten(s, r, n, [], true) && r.t.connecting == s.t.connecting - {id}
           && id in r.h.conns && GoingDown(r.h.conns[id]) && r.h.writes == s.h.writes
         else if n in s.t.stream then
           && r.t == s.t.(connecting := s.t.connecting - {id}) && r.log == s.log
           && id in r.h.conns && GoingDown(r.h.conns[id]) && r.h.writes == s.h.writes
         else UpOutcome(s, n, id, e.send, r)
  {
    DialFacts(s, id);
    var c := s.h.conns[id].(connectReq := false);
    var d := if e.read then c.(armed := true, reading := true) else c.(armed := true);
    var t := s.t.(connecting := s.t.connecting - {id});
    SetConnInv(s.h, id, c);
    if !c.closing { PoolStray.OpenFacts(s.h.conns[id], d); }
    if !c.closing { SetConnInv(s.h, id, d); }
    SetTwice(s.h, id, c, d);
    hide Inv, FlowInv, HeapInv, Shutdown, Startup, CloseConn, UpOutcome, OthersSame, Forgotten, GoingDown;
    if !e.status || c.closing || !e.timer {
      DialDown(s, s.(t := t, h := SetConn(s.h, id, c)), id);
    } else if !e.read {
      DialDown(s, s.(t := t, h := SetConn(s.h, id, d)), id);
    } else {
      DialUp(s, s.(t := t, h := SetConn(s.h, id, d)), id, e.send);
    }
  }

  lemma DialDown(s: Pool, s1: Pool, id: nat)
    requires HeapInv(s1.h) && id in s.h.conns && id in s1.h.conns && s1.h == SetConn(s.h, id, s1.h.conns[id])
    requires s1.h.conns[id].node == s.h.conns[id].node && s1.log == s.log && s1.t == s.t.(connecting := s.t.connecting - {id})
    ensures var n := s.h.conns[id].node; var r := Shutdown(s1, id, true, false, false);
      && Forgotten(s, r, n, [], true) && r.t.connecting == s.t.connecting - {id}
      && id in r.h.conns && GoingDown(r.h.conns[id]) && OthersSame(s.h, r.h, id) && r.h.writes == s.h.writes
  {
    DownOutcome(s1, id, [], true);
    assert OthersSame(s.h, s1.h, id);
    hide HeapInv, Shutdown, GoingDown, OthersSame;
    SameTwice(s.h, s1.h, Shutdown(s1, id, true, false, false).h, id);
  }

  lemma DialUp(s: Pool, s1: Pool, id: nat, e: SendEnv)
    requires HeapInv(s1.h) && id in s.h.conns && id in s1.h.conns && s1.h == SetConn(s.h, id, s1.h.conns[id])
    requires s1.h.conns[id].node == s.h.conns[id].node && s1.log == s.log && s1.t == s.t.(connecting := s.t.connecting - {id})
    requires Ripe(s1.h.conns[id]) && s1.h.conns[id].reading && s1.h.conns[id].armed && s1.h.conns[id].node.address.Ip?
    ensures var n := s.h.conns[id].node; var r := Startup(s1, id, e);
      && OthersSame(s.h, r.h, id)
      && if n in s.t.stream then
           r.t == s1.t && r.log == s.log && id in r.h.conns && GoingDown(r.h.conns[id]) && r.h.writes == s.h.writes
         else UpOutcome(s, n, id, e, r)
  {
    assert OthersSame(s.h, s1.h, id);
    hide HeapInv, Startup, UpOutcome, OthersSame, GoingDown, CloseConn;
    if s.h.conns[id].node in s.t.stream {
      PoolStray.StartupCloses(s1, id, e);
      ClosedDown(s1.h, id);
    } else {
      StartupOutcome(s1, id, e);
      SameUp(s, s1, s.h.conns[id].node, id, e, Startup(s1, id, e));
    }
    SameTwice(s.h, s1.h, Startup(s1, id, e).h, id);
  }

  // --------------------------------------------------------- other callbacks

  /** The answer to a write: its messages are written or, if it failed, dropped, and freed
      in any case. After a failure, or when the timer of an idle connection cannot be
      started again, the connection is given up. */
  lemma WriteOutcome(s: Pool, k: nat, e: WriteEnv)
    requires Good(s) && Linked(s) && Enabled(s, OnWriteDone(k, e))
    ensures var w := s.h.writes[k]; var r := Step(s, OnWriteDone(k, e)); var c := s.h.conns[w.conn];
      && r.h.writes == s.h.writes[..k] + s.h.writes[k + 1..] && OthersSame(s.h, r.h, w.conn) && w.conn in r.h.conns
      && r.log.written == s.log.written + (if e.status then w.messages else [])
      && if !e.status || (!c.closing && !c.shutdown && e.queueEmpty && !e.timer) then
           GoingDown(r.h.conns[w.conn]) && Forgotten(s, r, c.node, if e.status then [] else w.messages, false)
         else r.t == s.t && r.log.dropped == s.log.dropped && r.log.status == s.log.status && r.h.conns == s.h.conns
  {
    WriteFacts(s, k);
    WithoutWriteInv(s.h, k);
    var w := s.h.writes[k];
    var s1 := s.(h := WithoutWrite(s.h, k), log := s.log.(freed := s.log.freed + w.messages));
    var lost := s1.(log := s1.log.(dropped := s1.log.dropped + w.messages));
    var done := s1.(log := s1.log.(written := s1.log.written + w.messages));
    assert s.log.written + [] == s.log.written;
    hide FlowInv, Shutdown, Forgotten, GoingDown;
    if !e.status {
      DownOutcome(lost, w.conn, [], false);
      Lost(s, lost, Shutdown(lost, w.conn, false, false, false), s.h.conns[w.conn].node, w.messages);
      ShutdownWritten(lost, w.conn);
    } else if !s.h.conns[w.conn].closing && !s.h.conns[w.conn].shutdown && e.queueEmpty {
      if e.timer {
        PoolExit.SameTimer(s1.h, w.conn);
      } else {
        DownOutcome(done, w.conn, [], false);
        Lost(s, done, Shutdown(done, w.conn, false, false, false), s.h.conns[w.conn].node, []);
        ShutdownWritten(done, w.conn);
      }
    }
    hide Inv, HeapInv;
  }

  lemma Lost(s: Pool, s1: Pool, r: Pool, n: Node, messages: seq<Message>)
    requires Forgotten(s1, r, n, [], false) && s1.t == s.t && s1.log.status == s.log.status && s1.log.dropped == s.log.dropped + messages
    ensures Forgotten(s, r, n, messages, false)
  {
    var waited := if n in s.t.waiting then s.t.waiting[n] else [];
    assert s.log.dropped + messages + ([] + waited) == s.log.dropped + (messages + waited);
  }

  lemma ShutdownWritten(s: Pool, id: nat)
    requires id in s.h.conns
    ensures Shutdown(s, id, false, false, false).log.written == s.log.written
  {
    hide CloseConn, ShutdownConn;
  }

  /** A failed read gives the connection up, and so does one whose timer cannot be started
      again; any other read leaves the pool as it is. */
  lemma ReadOutcome(s: Pool, id: nat, got: ReadResult, queueEmpty: bool, timer: bool)
    requires Good(s) && Linked(s) && Enabled(s, OnRead(id, got, queueEmpty, timer))
    ensures var c := s.h.conns[id]; var r := Step(s, OnRead(id, got, queueEmpty, timer));
      if got.Failed? || (got.Data? && !c.closing && !c.shutdown && queueEmpty && !timer) then
        && Forgotten(s, r, c.node, [], false) && r.t.connecting == s.t.connecting
        && id in r.h.conns && GoingDown(r.h.conns[id]) && OthersSame(s.h, r.h, id) && r.h.writes == s.h.writes
      else r == s
  {
    assert ConnOk(s.h.conns[id]);
    DownOutcome(s, id, [], false);
    if !s.h.conns[id].closing { PoolExit.SameTimer(s.h, id); }
    hide Inv, FlowInv, HeapInv, Shutdown, Forgotten, GoingDown, OthersSame;
  }

  /** A connection whose time is over is given up. */
  lemma TimeoutOutcome(s: Pool, id: nat)
    requires Good(s) && Linked(s) && Enabled(s, OnTimeout(id))
    ensures var r := Step(s, OnTimeout(id));
      && Forgotten(s, r, s.h.conns[id].node, [], false) && r.t.connecting == s.t.connecting
      && id in r.h.conns && GoingDown(r.h.conns[id]) && OthersSame(s.h, r.h, id) && r.h.writes == s.h.writes
  {
    assert ConnOk(s.h.conns[id]);
    DownOutcome(s, id, [], false);
    TimeoutIs(s, id);
    hide Inv, FlowInv, HeapInv, Shutdown, Timeout, GoingDown, OthersSame;
  }

  /** When its shutdown has been answered the object goes down; nothing is told any more. */
  lemma DrainedOutcome(s: Pool, id: nat)
    requires Good(s) && Linked(s) && Enabled(s, OnShutdownDone(id))
    ensures var r := Step(s, OnShutdownDone(id));
      && r.t == s.t && r.log == s.log && id in r.h.conns && GoingDown(r.h.conns[id])
      && !r.h.conns[id].shutdownReq && OthersSame(s.h, r.h, id) && r.h.writes == s.h.writes
  {
    ShutFacts(s, id);
    var h := SetConn(s.h, id, s.h.conns[id].(shutdownReq := false));
    SetConnInv(s.h, id, h.conns[id]);
    CloseConnInv(h, id);
    ClosedDown(h, id);
    hide Inv, FlowInv, HeapInv, GoingDown, CloseConn;
  }

  /** A handle that is closed is gone, and the object with it exactly if it was the last. */
  lemma HandleOutcome(s: Pool, ev: Event)
    requires Good(s) && Linked(s) && Enabled(s, ev) && (ev.OnTcpClosed? || ev.OnTimerClosed?)
    ensures var id := if ev.OnTcpClosed? then ev.tcp else ev.timerHandle; var r := Step(s, ev); var c := s.h.conns[id];
      && id in s.h.conns && r.t == s.t && r.log == s.log && OthersSame(s.h, r.h, id) && r.h.writes == s.h.writes
      && (id in r.h.conns <==> if ev.OnTcpClosed? then c.timerInited else c.tcpInited)
      && (id in r.h.conns ==> r.h.conns[id] == if ev.OnTcpClosed? then c.(tcpInited := false) else c.(timerInited := false))
  {
    hide Inv, FlowInv, NoWrites;
  }

  // --------------------------------------------------------------------- exit

  /** Every stream and every connection attempt is reported down, once each, in the order
      of the tables, after everything reported before. */
  ghost predicate AllToldDown(before: seq<Status>, after: seq<Status>, order: ExitEnv, h: Heap) {
    var told, n := |before|, |order.streams|;
    && before <= after && |after| == told + n + |order.dials|
    && (forall i :: 0 <= i < n ==> after[told + i] == Status(order.streams[i], false))
    && (forall i :: 0 <= i < |order.dials| ==>
          order.dials[i] in h.conns && after[told + n + i] == Status(h.conns[order.dials[i]].node, false))
  }

  lemma AllDownTold(before: seq<Status>, order: ExitEnv, h: Heap)
    requires forall i :: 0 <= i < |order.dials| ==> order.dials[i] in h.conns
    ensures AllToldDown(before, before + (AllDown(order.streams) + AllDown(NodesOf(h, order.dials))), order, h)
  {
  }

  lemma ExitIs(s: Pool, order: ExitEnv)
    requires Linked(s) && s.p.wantExit && Enabled(s, ReadFlag(order))
    ensures var r := Step(s, ReadFlag(order));
      && NoTables(r.t) && r.log.status == s.log.status + (AllDown(order.streams) + AllDown(NodesOf(s.h, order.dials)))
      && r.log.dropped == s.log.dropped + (WaitingFor(s.t.waiting, order.waits) + s.q.sendCopy)
  {
    hide CloseAll, Ids, WaitingFor;
  }

  lemma DialsExist(s: Pool, order: ExitEnv)
    requires Inv(s) && ExitOrder(s.t, order)
    ensures forall i :: 0 <= i < |order.dials| ==> order.dials[i] in s.h.conns
  {
  }

  /** What the exit tells: all that was up or being dialled is down, and every message
      waiting and then every message taken over is dropped. */
  lemma ExitOutcome(s: Pool, order: ExitEnv)
    requires Good(s) && Linked(s) && s.p.wantExit && Enabled(s, ReadFlag(order))
    ensures var r := Step(s, ReadFlag(order));
      && NoTables(r.t) && AllToldDown(s.log.status, r.log.status, order, s.h)
      && r.log.dropped == s.log.dropped + (WaitingFor(s.t.waiting, order.waits) + s.q.sendCopy)
  {
    hide Inv, FlowInv, Step, AllToldDown, NoTables, Linked;
    DialsExist(s, order);
    ExitIs(s, order);
    AllDownTold(s.log.status, order, s.h);
  }
}
