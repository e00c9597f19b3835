/** Every step of the pool keeps the invariant, and so does every run. */
module PoolSteps {
  import opened Common
  import opened PoolModel
  import opened PoolHeap
  import opened PoolTables

  // ------------------------------------------------------------- on_wakeup

  /** The stream the node maps to may start a write or be told to shut down. */
  lemma StreamFacts(s: Pool, node: Node)
    requires Inv(s) && node in s.t.stream
    ensures var id := s.t.stream[node];
      id in s.h.conns && Established(s.h.conns[id], node) && ConnOk(s.h.conns[id])
  {
  }

  /** (Re)starting the timer of an open connection. */
  lemma ArmInv(s: Pool, id: nat)
    requires Inv(s) && id in s.h.conns && !s.h.conns[id].closing && !s.h.conns[id].server
    ensures Inv(s.(h := SetConn(s.h, id, s.h.conns[id].(armed := true))))
  {
    var c := s.h.conns[id].(armed := true);
    SetConnInv(s.h, id, c);
    TablesKept(s.t, s.h, SetConn(s.h, id, c));
  }

  lemma HistoryInv(s: Pool, log: Log)
    requires Inv(s) && log.status == s.log.status && log.bound == s.log.bound
    ensures Inv(s.(log := log))
  {
  }

  lemma QueuesInv(s: Pool, q: Queues)
    requires Inv(s)
    ensures Inv(s.(q := q))
  {
  }

  lemma PhaseInv(s: Pool, p: Phase, q: Queues)
    requires Inv(s)
    ensures Inv(s.(p := p, q := q))
  {
  }

  /** Messages written to, or dropped on, an established connection. */
  lemma SendOnInv(s: Pool, id: nat, messages: seq<Message>, e: SendEnv)
    requires Inv(s) && id in s.h.conns && Established(s.h.conns[id], s.h.conns[id].node)
    requires AllFor(messages, s.h.conns[id].node)
    ensures Inv(SendOn(s, id, messages, e))
  {
    hide HeapInv, TablesInv, StatusOk, BoundOk, Alternates, Shutdown;
    if e.timer && e.write {
      ArmInv(s, id);
      var h := SetConn(s.h, id, s.h.conns[id].(armed := true));
      OpenConnInited(s.h, id);
      AddWriteInv(h, id, messages);
      TablesKept(s.t, h, h.(writes := h.writes + [Write(id, messages)]));
    } else {
      HistoryInv(s, Drop(s, messages).log);
      ShutdownInv(Drop(s, messages), id, false, false, false);
    }
  }

  lemma OpenConnInited(h: Heap, id: nat)
    requires HeapInv(h) && id in h.conns && !h.conns[id].closing
    ensures h.conns[id].tcpInited
  {
  }

  /** An open object about to become the stream of its node. */
  predicate Ripe(c: Conn) {
    !c.closing && !c.shutdown && !c.server && !c.connectReq && c.node.protocol == Tcp
  }

  /** A new stream, before the messages waiting for it are looked at. */
  function Risen(s: Pool, id: nat): Pool
    requires id in s.h.conns
  {
    var node := s.h.conns[id].node;
    Report(s.(t := s.t.(stream := s.t.stream[node := id], waiting := s.t.waiting - {node})), node, true)
  }

  lemma RisenInv(s: Pool, id: nat)
    requires Inv(s) && id in s.h.conns && Ripe(s.h.conns[id])
    requires s.h.conns[id].node.address.Ip? && s.h.conns[id].node !in s.t.stream
    ensures Inv(Risen(s, id))
  {
    hide HeapInv, TablesInv, StatusOk, BoundOk, Alternates;
    var node := s.h.conns[id].node;
    TablesUp(s.t, s.h, id, node);
    UpReported(s.log.status, s.t.stream, node, true, s.t.stream[node := id]);
    BoundSame(s.log.bound, s.t, Risen(s, id).t);
  }

  /** `Startup` is a rise, and then what happens to the waiting messages. */
  lemma StartupIs(s: Pool, id: nat, e: SendEnv)
    requires id in s.h.conns && s.h.conns[id].node.address.Ip? && s.h.conns[id].node !in s.t.stream
    ensures var node := s.h.conns[id].node; var up := Risen(s, id);
      Startup(s, id, e) ==
        if node !in s.t.waiting then up
        else if !e.memory then Drop(up, s.t.waiting[node])
        else SendOn(up, id, s.t.waiting[node], e)
  {
    hide SendOn;
    var node := s.h.conns[id].node;
    if node !in s.t.waiting {
      assert s.t.waiting - {node} == s.t.waiting;
    }
  }

  lemma WaitingFacts(s: Pool, node: Node)
    requires Inv(s) && node in s.t.waiting
    ensures AllFor(s.t.waiting[node], node) && node !in s.t.stream
  {
  }

  lemma StartupInv(s: Pool, id: nat, e: SendEnv)
    requires Inv(s) && id in s.h.conns && Ripe(s.h.conns[id])
    requires Unfiled(s.t, id)
    ensures Inv(Startup(s, id, e))
  {
    hide HeapInv, TablesInv, StatusOk, BoundOk, Alternates, SendOn;
    var node := s.h.conns[id].node;
    if node.address.Invalid? || node in s.t.stream {
      ClosePlainInv(s, id);
    } else {
      RisenInv(s, id);
      StartupIs(s, id, e);
      if node in s.t.waiting {
        if e.memory {
          WaitingFacts(s, node);
          SendOnInv(Risen(s, id), id, s.t.waiting[node], e);
        } else {
          HistoryInv(Risen(s, id), Drop(Risen(s, id), s.t.waiting[node]).log);
        }
      }
    }
  }

  /** Closing an object no table entry leads to and nobody waits for. */
  lemma ClosePlainInv(s: Pool, id: nat)
    requires Inv(s) && id in s.h.conns && Unfiled(s.t, id) && !s.h.conns[id].connectReq
    ensures Inv(s.(h := CloseConn(s.h, id)))
  {
    hide HeapInv, StatusOk, BoundOk, Alternates;
    CloseConnInv(s.h, id);
    if !s.h.conns[id].closing {
      TablesOther(s.t, s.h, id, Closed(s.h.conns[id]));
    }
  }

  /** A fresh object that failed half-way. */
  lemma FailedBirthInv(s: Pool, g: Heap)
    requires Inv(s) && HeapInv(g) && Grown(s.h, g)
    requires s.h.next in g.conns ==> g.conns[s.h.next].closing && !g.conns[s.h.next].connectReq
    ensures Inv(s.(h := g))
  {
    hide HeapInv, StatusOk, BoundOk, Alternates, TablesInv;
    TablesKept(s.t, s.h, g);
  }

  /** The object `Alloc` makes. */
  function NewConn(timer: bool, node: Node): Conn {
    BLANK.(tcpInited := true, timerInited := timer, node := node)
  }

  lemma SetTwice(h: Heap, id: nat, a: Conn, b: Conn)
    ensures SetConn(SetConn(h, id, a), id, b) == SetConn(h, id, b)
  {
  }

  lemma ConnectIs(h: Heap, node: Node, e: ConnectEnv)
    requires HeapInv(h)
    ensures var (g, made) := Connect(h, node, e);
      if made.Some? then
        && made.value == h.next && h.next !in h.conns && node.address.Ip?
        && g == SetConn(h.(next := h.next + 1), h.next, NewConn(true, node).(armed := true, connectReq := true))
      else
        && HeapInv(g) && Grown(h, g)
        && (h.next in g.conns ==> g.conns[h.next].closing && !g.conns[h.next].connectReq && !g.conns[h.next].server)
  {
    hide HeapInv, CloseConn, Alloc;
    AllocInv(h, true, e.alloc);
    var (h1, made) := Alloc(h, true, e.alloc);
    if e.memory && made.Some? {
      var born := h.(next := h.next + 1);
      var c := NewConn(true, node);
      SetTwice(born, h.next, NewConn(true, NO_NODE), c);
      SetTwice(born, h.next, NewConn(true, NO_NODE), c.(armed := true));
      SetTwice(born, h.next, NewConn(true, NO_NODE), c.(armed := true, connectReq := true));
      CloseFresh(h, c);
      CloseFresh(h, c.(armed := true));
    }
  }

  lemma ListenIs(h: Heap, node: Node, e: BindEnv)
    requires HeapInv(h)
    ensures var (g, made) := Listen(h, node, e);
      if made.Some? then
        && made.value == h.next && h.next !in h.conns
        && g == SetConn(h.(next := h.next + 1), h.next, NewConn(false, node).(server := true))
      else
        && HeapInv(g) && Grown(h, g)
        && (h.next in g.conns ==> g.conns[h.next].closing && !g.conns[h.next].connectReq)
  {
    hide HeapInv, CloseConn, Alloc;
    AllocInv(h, false, e.alloc);
    var (h1, made) := Alloc(h, false, e.alloc);
    if made.Some? {
      var born := h.(next := h.next + 1);
      var c := NewConn(false, node).(server := true);
      SetTwice(born, h.next, NewConn(false, NO_NODE), c);
      CloseFreshServer(h, c);
    }
  }

  lemma CloseFreshServer(h: Heap, c: Conn)
    requires HeapInv(h) && c.server && c.tcpInited && !c.timerInited && c == NewConn(false, c.node).(server := true)
    ensures var g := CloseConn(SetConn(h.(next := h.next + 1), h.next, c), h.next);
      && HeapInv(g) && Grown(h, g)
      && h.next in g.conns && g.conns[h.next].closing && !g.conns[h.next].connectReq
  {
    BornInv(h, Closed(c));
    var g := h.(next := h.next + 1);
    assert SetConn(SetConn(g, h.next, c), h.next, Closed(c)) == SetConn(g, h.next, Closed(c));
  }

  lemma BindOneInv(s: Pool, r: BindRequest, e: BindEnv)
    requires Inv(s)
    ensures Linked(s) && Inv(BindOne(s, r, e))
  {
    InvLinked(s);
    match r.node.protocol
    case Tcp => BindTcpInv(s, r, e);
    case Udp => BindUdpInv(s, r, e);
    case Unknown => BoundReportInv(s, r.node, false, s.t);
  }

  /** A bind notification that fits the new server tables. */
  lemma BoundReportInv(s: Pool, node: Node, up: bool, t: Tables)
    requires Inv(s) && t == s.t.(servers := t.servers, udpServers := t.udpServers)
    requires TablesInv(t, s.h) || t == s.t
    requires up <==> node in t.servers || node in t.udpServers
    requires forall n :: n != node ==> (n in t.servers <==> n in s.t.servers) && (n in t.udpServers <==> n in s.t.udpServers)
    ensures Inv(ReportBind(s, node, up).(t := t))
  {
    hide HeapInv, TablesInv, Alternates;
    BoundReported(s.log.bound, s.t, node, up, t);
  }

  lemma BindUdpInv(s: Pool, r: BindRequest, e: BindEnv)
    requires Inv(s) && r.node.protocol == Udp
    ensures Inv(BindUdp(s, r, e))
  {
    hide HeapInv, StatusOk, BoundOk, Alternates;
    NoTcpServer(s, r.node);
    var off, on := s.t.(udpServers := s.t.udpServers - {r.node}), s.t.(udpServers := s.t.udpServers + {r.node});
    TablesUdp(s.t, s.h, off.udpServers);
    TablesUdp(s.t, s.h, on.udpServers);
    if r.node in s.t.udpServers {
      if r.bind { BoundReportInv(s, r.node, true, s.t); } else { BoundReportInv(s, r.node, false, off); }
    } else if r.bind && e.udp {
      BoundReportInv(s, r.node, true, on);
    } else {
      BoundReportInv(s, r.node, false, s.t);
    }
  }

  lemma NoTcpServer(s: Pool, node: Node)
    requires Inv(s)
    ensures node.protocol == Udp ==> node !in s.t.servers
    ensures node.protocol == Tcp ==> node !in s.t.udpServers
    ensures node.protocol == Unknown ==> node !in s.t.servers && node !in s.t.udpServers
  {
  }

  lemma TablesUdp(t: Tables, h: Heap, udpServers: set<Node>)
    requires TablesInv(t, h) && forall n :: n in udpServers ==> n.protocol == Udp
    ensures TablesInv(t.(udpServers := udpServers), h)
  {
    var t' := t.(udpServers := udpServers);
    forall n | n in t'.waiting ensures exists i :: Dialing(t', h, n, i) {
      var i :| Dialing(t, h, n, i);
      assert Dialing(t', h, n, i);
    }
  }

  lemma BindTcpInv(s: Pool, r: BindRequest, e: BindEnv)
    requires Inv(s) && r.node.protocol == Tcp
    ensures Linked(s) && Inv(BindTcp(s, r, e))
  {
    hide HeapInv, StatusOk, BoundOk, Alternates, TablesInv, CloseConn, Listen;
    InvLinked(s);
    NoTcpServer(s, r.node);
    if r.node in s.t.servers {
      if r.bind { BoundReportInv(s, r.node, true, s.t); } else { UnbindInv(s, r.node); }
    } else if r.bind {
      ListenIs(s.h, r.node, e);
      var (g, made) := Listen(s.h, r.node, e);
      if made.Some? {
        ListeningInv(s, r.node);
      } else {
        FailedBirthInv(s, g);
        BoundReportInv(s.(h := g), r.node, false, s.t);
      }
    } else {
      BoundReportInv(s, r.node, false, s.t);
    }
  }

  lemma UnbindTables(t: Tables, h: Heap, node: Node)
    requires TablesInv(t, h) && node in t.servers && t.servers[node] in h.conns && !h.conns[t.servers[node]].connectReq
    ensures TablesInv(t.(servers := t.servers - {node}), SetConn(h, t.servers[node], Closed(h.conns[t.servers[node]])))
  {
    var t' := t.(servers := t.servers - {node});
    var g := SetConn(h, t.servers[node], Closed(h.conns[t.servers[node]]));
    StillDialing(t, h, t', g);
    assert StreamOk(t', g) && ConnectingOk(t', g);
  }

  lemma UnbindInv(s: Pool, node: Node)
    requires Inv(s) && Linked(s) && node in s.t.servers && node !in s.t.udpServers
    ensures Inv(ReportBind(s, node, false).(t := s.t.(servers := s.t.servers - {node}), h := CloseConn(s.h, s.t.servers[node])))
  {
    hide HeapInv, StatusOk, BoundOk, Alternates, ConnOk, CloseConn;
    var id := s.t.servers[node];
    var t' := s.t.(servers := s.t.servers - {node});
    CloseConnInv(s.h, id);
    ServerIdle(s.h, id);
    UnbindTables(s.t, s.h, node);
    BoundReported(s.log.bound, s.t, node, false, t');
  }

  lemma ServerIdle(h: Heap, id: nat)
    requires HeapInv(h) && id in h.conns && h.conns[id].server
    ensures !h.conns[id].connectReq
  {
  }

  /** The dialling witnesses survive a change elsewhere. */
  lemma StillDialing(t: Tables, h: Heap, t': Tables, g: Heap)
    requires WaitingOk(t, h)
    requires forall n, i :: Dialing(t, h, n, i) ==> Dialing(t', g, n, i)
    ensures forall n :: n in t.waiting ==> exists i :: Dialing(t', g, n, i)
  {
    forall n | n in t.waiting ensures exists i :: Dialing(t', g, n, i) {
      var i :| Dialing(t, h, n, i);
      assert Dialing(t', g, n, i);
    }
  }

  lemma ListeningServers(t: Tables, h: Heap, node: Node, g: Heap)
    requires ServersOk(t, h) && node.protocol == Tcp && node !in t.servers && h.next !in h.conns
    requires g == SetConn(h.(next := h.next + 1), h.next, NewConn(false, node).(server := true))
    ensures ServersOk(t.(servers := t.servers[node := h.next]), g)
  {
  }

  lemma ListeningTables(t: Tables, h: Heap, node: Node, g: Heap)
    requires TablesInv(t, h) && node.protocol == Tcp && node !in t.servers && h.next !in h.conns
    requires g == SetConn(h.(next := h.next + 1), h.next, NewConn(false, node).(server := true))
    ensures TablesInv(t.(servers := t.servers[node := h.next]), g)
  {
    hide ServersOk;
    var t' := t.(servers := t.servers[node := h.next]);
    ListeningServers(t, h, node, g);
    StillDialing(t, h, t', g);
    assert StreamOk(t', g);
    assert ConnectingOk(t', g);
  }

  lemma ListeningInv(s: Pool, node: Node)
    requires Inv(s) && node.protocol == Tcp && node !in s.t.servers && s.h.next !in s.h.conns
    ensures var id := s.h.next;
      var t' := s.t.(servers := s.t.servers[node := id]);
      var g := SetConn(s.h.(next := id + 1), id, NewConn(false, node).(server := true));
      Inv(ReportBind(s, node, true).(t := t', h := g))
  {
    hide StatusOk, BoundOk, Alternates, HeapInv, TablesInv;
    var id := s.h.next;
    var c := NewConn(false, node).(server := true);
    var t' := s.t.(servers := s.t.servers[node := id]);
    var g := SetConn(s.h.(next := id + 1), id, c);
    BornInv(s.h, c);
    ListeningTables(s.t, s.h, node, g);
    BoundReported(s.log.bound, s.t, node, true, t');
  }

  // ---------------------------------------------------------------- sending

  /** The tables and the heap with a new dial to `m.node`, for which `m` waits. */
  ghost predicate DialAdded(t: Tables, h: Heap, m: Message, t': Tables, g: Heap) {
    && m.node.protocol == Tcp && m.node.address.Ip? && m.node !in t.waiting && m.node !in t.stream && h.next !in h.conns
    && g == SetConn(h.(next := h.next + 1), h.next, NewConn(true, m.node).(armed := true, connectReq := true))
    && t' == t.(waiting := t.waiting[m.node := [] + [m]], connecting := t.connecting + {h.next})
  }

  lemma DialStreams(t: Tables, h: Heap, m: Message, t': Tables, g: Heap)
    requires StreamOk(t, h) && ServersOk(t, h) && DialAdded(t, h, m, t', g)
    ensures StreamOk(t', g) && ServersOk(t', g)
  {
  }

  lemma DialConnecting(t: Tables, h: Heap, m: Message, t': Tables, g: Heap)
    requires ConnectingOk(t, h) && DialAdded(t, h, m, t', g)
    ensures ConnectingOk(t', g)
  {
  }

  lemma DialWaiting(t: Tables, h: Heap, m: Message, t': Tables, g: Heap)
    requires WaitingOk(t, h) && DialAdded(t, h, m, t', g)
    ensures WaitingOk(t', g)
  {
    StillDialing(t, h, t', g);
    assert Dialing(t', g, m.node, h.next);
  }

  lemma DialTables(t: Tables, h: Heap, m: Message, t': Tables, g: Heap)
    requires TablesInv(t, h) && DialAdded(t, h, m, t', g)
    ensures TablesInv(t', g)
  {
    hide StreamOk, ServersOk, ConnectingOk, WaitingOk, DialAdded;
    DialStreams(t, h, m, t', g);
    DialConnecting(t, h, m, t', g);
    DialWaiting(t, h, m, t', g);
  }

  /** A new connect attempt with the first message waiting for it. */
  lemma DialInv(s: Pool, m: Message)
    requires Inv(s) && m.node.protocol == Tcp && m.node.address.Ip? && m.node !in s.t.waiting && m.node !in s.t.stream
    requires s.h.next !in s.h.conns
    ensures var id := s.h.next;
      Inv(s.(t := s.t.(waiting := s.t.waiting[m.node := [] + [m]], connecting := s.t.connecting + {id}),
             h := SetConn(s.h.(next := id + 1), id, NewConn(true, m.node).(armed := true, connectReq := true))))
  {
    hide StatusOk, Alternates, HeapInv, TablesInv;
    var id := s.h.next;
    var c := NewConn(true, m.node).(armed := true, connectReq := true);
    BornInv(s.h, c);
    DialTables(s.t, s.h, m, s.t.(waiting := s.t.waiting[m.node := [] + [m]], connecting := s.t.connecting + {id}),
               SetConn(s.h.(next := id + 1), id, c));
  }

  lemma PushTables(t: Tables, h: Heap, m: Message)
    requires TablesInv(t, h) && m.node in t.waiting
    ensures TablesInv(t.(waiting := t.waiting[m.node := t.waiting[m.node] + [m]]), h)
  {
    var t' := t.(waiting := t.waiting[m.node := t.waiting[m.node] + [m]]);
    StillDialing(t, h, t', h);
    assert StreamOk(t', h) && ServersOk(t', h) && ConnectingOk(t', h);
  }

  /** One more message for a node that is already being dialled. */
  lemma PushInv(s: Pool, m: Message)
    requires Inv(s) && m.node in s.t.waiting
    ensures Inv(PushWaiting(s, m))
  {
    hide StatusOk, Alternates, HeapInv, TablesInv;
    PushTables(s.t, s.h, m);
  }

  /** A connect attempt that fails at once: the message is dropped again. */
  lemma DialFailed(s: Pool, m: Message, g: Heap)
    requires m.node !in s.t.waiting
    ensures DropWaiting(Report(PushWaiting(s, m).(h := g), m.node, false), m.node)
         == Drop(Report(s.(h := g), m.node, false), [m])
  {
    assert s.t.waiting[m.node := [] + [m]] - {m.node} == s.t.waiting;
    assert [] + [m] == [m];
  }

  /** Reporting down what is not up. */
  lemma DownAgainInv(s: Pool, node: Node)
    requires Inv(s) && node !in s.t.stream
    ensures Inv(Report(s, node, false))
  {
    hide HeapInv, TablesInv, BoundOk;
    UpReported(s.log.status, s.t.stream, node, false, s.t.stream);
  }

  lemma SendAwayInv(s: Pool, m: Message, e: DeliverEnv)
    requires Inv(s) && m.node.protocol == Tcp && m.node !in s.t.stream
    ensures Inv(SendAway(s, m, e))
  {
    hide HeapInv, TablesInv, StatusOk, BoundOk, Alternates, Connect;
    if m.node in s.t.waiting {
      PushInv(s, m);
    } else if !m.autoConnect {
      HistoryInv(s, Drop(s, [m]).log);
    } else {
      ConnectIs(s.h, m.node, e.connect);
      var (g, made) := Connect(s.h, m.node, e.connect);
      if made.Some? {
        DialInv(s, m);
      } else {
        DialFailed(s, m, g);
        FailedBirthInv(s, g);
        DownAgainInv(s.(h := g), m.node);
        HistoryInv(Report(s.(h := g), m.node, false), Drop(Report(s.(h := g), m.node, false), [m]).log);
      }
    }
  }

  lemma SendOneInv(s: Pool, m: Message, e: DeliverEnv)
    requires Inv(s)
    ensures Linked(s) && Inv(SendOne(s, m, e))
  {
    hide HeapInv, TablesInv, StatusOk, BoundOk, Alternates, SendAway, SendOn;
    InvLinked(s);
    match m.node.protocol
    case Tcp =>
      if m.node !in s.t.stream {
        SendAwayInv(s, m, e);
      } else if !e.send.memory {
        HistoryInv(s, Drop(s, [m]).log);
      } else {
        StreamFacts(s, m.node);
        SendOnInv(s, s.t.stream[m.node], [m], e.send);
      }
    case Udp =>
      HistoryInv(s, s.log.(udp := s.log.udp + [m], freed := s.log.freed + [m]));
    case Unknown =>
      NotStream(s, m.node);
      if m.autoConnect {
        DownAgainInv(s, m.node);
        HistoryInv(Report(s, m.node, false), Drop(Report(s, m.node, false), [m]).log);
      } else {
        HistoryInv(s, Drop(s, [m]).log);
      }
  }

  lemma NotStream(s: Pool, node: Node)
    requires Inv(s) && node.protocol != Tcp
    ensures node !in s.t.stream
  {
  }

  lemma CloseOneInv(s: Pool, r: CloseRequest, e: CloseEnv)
    requires Inv(s)
    ensures Linked(s) && Inv(CloseOne(s, r, e))
  {
    hide HeapInv, TablesInv, StatusOk, BoundOk, Alternates, Shutdown;
    InvLinked(s);
    if r.node in s.t.stream {
      StreamFacts(s, r.node);
      var id := s.t.stream[r.node];
      if r.force || !e.timer {
        ShutdownInv(s, id, false, false, false);
      } else {
        ArmInv(s, id);
        ShutdownInv(s.(h := SetConn(s.h, id, s.h.conns[id].(armed := true))), id, false, true, e.shutdown);
      }
    }
  }

  // -------------------------------------------------------------- callbacks

  lemma ResetIdleInv(s: Pool, id: nat, queueEmpty: bool, timer: bool)
    requires Inv(s) && id in s.h.conns && !s.h.conns[id].closing && !s.h.conns[id].server
    ensures Inv(ResetIdle(s, id, queueEmpty, timer))
  {
    hide HeapInv, TablesInv, StatusOk, BoundOk, Alternates, Shutdown;
    if queueEmpty {
      if timer { ArmInv(s, id); } else { ShutdownInv(s, id, false, false, false); }
    }
  }

  /** A fresh open object that has its node, for an accepted connection. */
  lemma AcceptedInv(s: Pool, c: Conn)
    requires Inv(s) && c == NewConn(true, c.node).(armed := true, reading := true)
    ensures s.h.next !in s.h.conns && Unfiled(s.t, s.h.next)
    ensures Inv(s.(h := SetConn(s.h.(next := s.h.next + 1), s.h.next, c)))
  {
    hide StatusOk, BoundOk, Alternates;
    BornInv(s.h, c);
    TablesKept(s.t, s.h, SetConn(s.h.(next := s.h.next + 1), s.h.next, c));
  }

  lemma NewConnectionInv(s: Pool, e: NewEnv)
    requires Inv(s)
    ensures Inv(NewConnection(s, e))
  {
    hide HeapInv, TablesInv, StatusOk, BoundOk, Alternates, CloseConn, Alloc, Startup;
    if e.status {
      AllocInv(s.h, true, e.alloc);
      var (h1, made) := Alloc(s.h, true, e.alloc);
      if made.None? {
        FailedBirthInv(s, h1);
      } else {
        var id, born := s.h.next, s.h.(next := s.h.next + 1);
        var blank := NewConn(true, NO_NODE);
        var c := NewConn(true, Node(Tcp, e.address));
        SetTwice(born, id, blank, c);
        SetTwice(born, id, blank, c.(armed := true));
        SetTwice(born, id, blank, c.(armed := true, reading := true));
        CloseFresh(s.h, blank);
        CloseFresh(s.h, c);
        CloseFresh(s.h, c.(armed := true));
        if !e.accept || !e.peer {
          FailedBirthInv(s, CloseConn(h1, id));
        } else if c.node.address.Invalid? || c.node in s.t.stream || !e.timer {
          FailedBirthInv(s, CloseConn(SetConn(h1, id, c), id));
        } else if !e.read {
          FailedBirthInv(s, CloseConn(SetConn(h1, id, c.(armed := true)), id));
        } else {
          AcceptedInv(s, c.(armed := true, reading := true));
          StartupInv(s.(h := SetConn(h1, id, c.(armed := true, reading := true))), id, e.send);
        }
      }
    }
  }

  /** The connect attempt is over; the object is on its own for a moment. A node that
      only this object was dialling may have messages waiting until the callback is
      through, so they are set aside here. */
  lemma DialOverInv(s: Pool, id: nat, c: Conn)
    requires Inv(s) && id in s.h.conns && s.h.conns[id].connectReq
    requires c.connectReq == false && ConnOk(c)
    requires var b := s.h.conns[id];
      c.node == b.node && c.server == b.server && c.tcpInited == b.tcpInited && c.closing == b.closing && c.shutdown == b.shutdown
    ensures Unfiled(s.t, id)
    ensures HeapInv(SetConn(s.h, id, c))
    ensures TablesInv(s.t.(connecting := s.t.connecting - {id}, waiting := s.t.waiting - {c.node}), SetConn(s.h, id, c))
  {
    var g := SetConn(s.h, id, c);
    var t' := s.t.(connecting := s.t.connecting - {id}, waiting := s.t.waiting - {c.node});
    SetConnInv(s.h, id, c);
    forall n | n in t'.waiting ensures exists i :: Dialing(t', g, n, i) {
      var i :| Dialing(s.t, s.h, n, i);
      assert Dialing(t', g, n, i);
    }
  }

  /** Only these parts of a state matter to the invariant. */
  lemma InvSame(a: Pool, b: Pool)
    requires Inv(a) && b.t == a.t && b.h == a.h && b.log.status == a.log.status && b.log.bound == a.log.bound
    ensures Inv(b)
  {
  }

  /** Reporting a dial that failed: whatever else the node had is torn down too. */
  lemma DialLostInv(s: Pool, s1: Pool, id: nat)
    requires id in s1.h.conns && s.t == s1.t.(waiting := s1.t.waiting - {s1.h.conns[id].node})
    requires s == s1.(t := s.t) && Inv(s) && !s.h.conns[id].server
    ensures Inv(Shutdown(s1, id, true, false, false))
  {
    hide HeapInv, TablesInv, StatusOk, BoundOk, Alternates, Shutdown, CloseConn, ShutdownConn;
    ShutdownInv(s, id, true, false, false);
    ShutdownIs(s, id, true, false, false);
    ShutdownIs(s1, id, true, false, false);
    var node := s1.h.conns[id].node;
    assert s1.t.waiting - {node} - {node} == s1.t.waiting - {node};
    InvSame(Shutdown(s, id, true, false, false), Shutdown(s1, id, true, false, false));
  }

  /** A dial that succeeded becomes the stream, or is closed in favour of the one the
      node already has. */
  lemma DialWonInv(s: Pool, s1: Pool, id: nat, e: SendEnv)
    requires id in s1.h.conns && s.t == s1.t.(waiting := s1.t.waiting - {s1.h.conns[id].node})
    requires s == s1.(t := s.t) && Inv(s) && Ripe(s.h.conns[id]) && Unfiled(s.t, id)
    requires s.h.conns[id].node.address.Ip?
    requires s1.h.conns[id].node in s1.t.waiting ==>
      s1.h.conns[id].node !in s1.t.stream && AllFor(s1.t.waiting[s1.h.conns[id].node], s1.h.conns[id].node)
    ensures Inv(Startup(s1, id, e))
  {
    hide HeapInv, TablesInv, StatusOk, BoundOk, Alternates, SendOn, CloseConn;
    var node := s1.h.conns[id].node;
    if node in s1.t.stream {
      assert s1.t.waiting - {node} == s1.t.waiting;
      StartupInv(s, id, e);
    } else {
      RisenInv(s, id);
      StartupIs(s1, id, e);
      assert s1.t.waiting - {node} - {node} == s1.t.waiting - {node};
      assert Risen(s1, id) == Risen(s, id);
      var up := Risen(s, id);
      if node in s1.t.waiting {
        if e.memory {
          SendOnInv(up, id, s1.t.waiting[node], e);
        } else {
          HistoryInv(up, Drop(up, s1.t.waiting[node]).log);
        }
      }
    }
  }

  lemma DialFacts(s: Pool, id: nat)
    requires Inv(s) && id in s.h.conns && s.h.conns[id].connectReq
    ensures var c := s.h.conns[id]; var node := c.node;
      && ConnOk(c) && !c.server && ConnOk(c.(connectReq := false))
      && (!c.closing ==> Ripe(c.(connectReq := false)) && node.address.Ip? && c.armed && c.timerInited)
      && (node in s.t.waiting ==> node !in s.t.stream && AllFor(s.t.waiting[node], node))
  {
  }

  lemma ConnectDoneInv(s: Pool, id: nat, e: DoneEnv)
    requires Inv(s) && id in s.h.conns && s.h.conns[id].connectReq
    ensures Inv(ConnectDone(s, id, e))
  {
    hide HeapInv, TablesInv, StatusOk, BoundOk, Alternates, Shutdown, Startup;
    DialFacts(s, id);
    var c := s.h.conns[id].(connectReq := false);
    var s1 := s.(t := s.t.(connecting := s.t.connecting - {id}), h := SetConn(s.h, id, c));
    var s0 := s1.(t := s1.t.(waiting := s1.t.waiting - {c.node}));
    if !e.status || c.closing || !e.timer {
      DialOverInv(s, id, c);
      DialOverStatus(s, s0);
      DialLostInv(s0, s1, id);
    } else if !e.read {
      var d := c.(armed := true);
      DialOverInv(s, id, d);
      SetTwice(s.h, id, c, d);
      DialOverStatus(s, s0.(h := SetConn(s.h, id, d)));
      DialLostInv(s0.(h := SetConn(s.h, id, d)), s1.(h := SetConn(s.h, id, d)), id);
    } else {
      var d := c.(armed := true, reading := true);
      DialOverInv(s, id, d);
      SetTwice(s.h, id, c, d);
      DialOverStatus(s, s0.(h := SetConn(s.h, id, d)));
      DialWonInv(s0.(h := SetConn(s.h, id, d)), s1.(h := SetConn(s.h, id, d)), id, e.send);
    }
  }

  lemma DialOverStatus(s: Pool, r: Pool)
    requires Inv(s) && HeapInv(r.h) && TablesInv(r.t, r.h) && r.log == s.log
    requires r.t.stream == s.t.stream && r.t.servers == s.t.servers && r.t.udpServers == s.t.udpServers
    ensures Inv(r)
  {
  }

  lemma WriteFacts(s: Pool, k: nat)
    requires Inv(s) && k < |s.h.writes|
    ensures var id := s.h.writes[k].conn; id in s.h.conns && !s.h.conns[id].server && !s.h.conns[id].connectReq
    ensures AllFor(s.h.writes[k].messages, s.h.conns[s.h.writes[k].conn].node)
  {
    assert WriteOk(s.h, s.h.writes[k]);
  }

  lemma WriteDoneInv(s: Pool, k: nat, e: WriteEnv)
    requires Inv(s) && k < |s.h.writes|
    ensures Linked(s) && Inv(WriteDone(s, k, e))
  {
    hide HeapInv, TablesInv, StatusOk, BoundOk, Alternates, Shutdown, ResetIdle;
    InvLinked(s);
    WriteFacts(s, k);
    var w := s.h.writes[k];
    WithoutWriteInv(s.h, k);
    TablesKept(s.t, s.h, WithoutWrite(s.h, k));
    var s1 := s.(h := WithoutWrite(s.h, k), log := s.log.(freed := s.log.freed + w.messages));
    InvSame(s.(h := WithoutWrite(s.h, k)), s1);
    if !e.status {
      var s2 := s1.(log := s1.log.(dropped := s1.log.dropped + w.messages));
      InvSame(s1, s2);
      ShutdownInv(s2, w.conn, false, false, false);
    } else {
      var s2 := s1.(log := s1.log.(written := s1.log.written + w.messages));
      InvSame(s1, s2);
      if !s.h.conns[w.conn].closing && !s.h.conns[w.conn].shutdown {
        ResetIdleInv(s2, w.conn, e.queueEmpty, e.timer);
      }
    }
  }

  lemma ReadInv(s: Pool, id: nat, got: ReadResult, queueEmpty: bool, timer: bool)
    requires Inv(s) && id in s.h.conns && s.h.conns[id].reading
    ensures Inv(Read(s, id, got, queueEmpty, timer))
  {
    assert ConnOk(s.h.conns[id]);
    hide HeapInv, TablesInv, StatusOk, BoundOk, Alternates, Shutdown, ResetIdle;
    match got
    case Data =>
      if !s.h.conns[id].closing && !s.h.conns[id].shutdown { ResetIdleInv(s, id, queueEmpty, timer); }
    case Nothing =>
    case Failed => ShutdownInv(s, id, false, false, false);
  }

  /** While the one-shot timer is disarmed, before the callback closes the object. */
  lemma TimeoutIs(s: Pool, id: nat)
    requires id in s.h.conns && !s.h.conns[id].closing && s.h.conns[id].tcpInited
    ensures Timeout(s, id).t == Shutdown(s, id, false, false, false).t
    ensures Timeout(s, id).log == Shutdown(s, id, false, false, false).log
    ensures Timeout(s, id).q == Shutdown(s, id, false, false, false).q && Timeout(s, id).p == Shutdown(s, id, false, false, false).p
    ensures Timeout(s, id).h == Shutdown(s, id, false, false, false).h
  {
    var c := s.h.conns[id];
    assert Closed(c.(armed := false)) == Closed(c);
    SetTwice(s.h, id, c.(armed := false), Closed(c));
  }

  lemma TimeoutInv(s: Pool, id: nat)
    requires Inv(s) && id in s.h.conns && s.h.conns[id].armed
    ensures Inv(Timeout(s, id))
  {
    assert ConnOk(s.h.conns[id]);
    hide HeapInv, TablesInv, StatusOk, BoundOk, Alternates, Shutdown, Timeout;
    TimeoutIs(s, id);
    ShutdownInv(s, id, false, false, false);
  }

  lemma ShutFacts(s: Pool, id: nat)
    requires Inv(s) && id in s.h.conns && s.h.conns[id].shutdownReq
    ensures var c := s.h.conns[id];
      && !c.server && !c.connectReq && ConnOk(c.(shutdownReq := false)) && Unfiled(s.t, id)
  {
  }

  lemma ShutdownDoneInv(s: Pool, id: nat)
    requires Inv(s) && id in s.h.conns && s.h.conns[id].shutdownReq
    ensures Inv(ShutdownDone(s, id))
  {
    hide HeapInv, TablesInv, StatusOk, BoundOk, Alternates, CloseConn;
    ShutFacts(s, id);
    var c := s.h.conns[id].(shutdownReq := false);
    SetConnInv(s.h, id, c);
    TablesKept(s.t, s.h, SetConn(s.h, id, c));
    ClosePlainInv(s.(h := SetConn(s.h, id, c)), id);
  }

  lemma ClosingFacts(s: Pool, id: nat)
    requires Inv(s) && id in s.h.conns && (s.h.conns[id].tcpCloses > 0 || s.h.conns[id].timerCloses > 0)
    ensures s.h.conns[id].closing && Unfiled(s.t, id)
    ensures s.h.conns[id].connectReq ==> s.h.conns[id].tcpInited
  {
  }

  lemma TcpClosedStepInv(s: Pool, id: nat)
    requires Inv(s) && Enabled(s, OnTcpClosed(id))
    ensures Inv(s.(h := TcpClosed(s.h, id)))
  {
    hide HeapInv, TablesInv, StatusOk, BoundOk, Alternates, ConnOk;
    ClosingFacts(s, id);
    TcpClosedInv(s.h, id);
    var c := s.h.conns[id].(tcpInited := false);
    if c.timerInited {
      TablesKept(s.t, s.h, SetConn(s.h, id, c));
    } else {
      TablesGone(s.t, s.h, id, Delete(s.h, id));
    }
  }

  lemma TimerClosedStepInv(s: Pool, id: nat)
    requires Inv(s) && Enabled(s, OnTimerClosed(id))
    ensures Inv(s.(h := TimerClosed(s.h, id)))
  {
    hide HeapInv, TablesInv, StatusOk, BoundOk, Alternates, ConnOk;
    ClosingFacts(s, id);
    TimerClosedInv(s.h, id);
    var c := s.h.conns[id].(timerInited := false);
    if c.tcpInited {
      TablesKept(s.t, s.h, SetConn(s.h, id, c));
    } else {
      TablesGone(s.t, s.h, id, Delete(s.h, id));
    }
  }
}
