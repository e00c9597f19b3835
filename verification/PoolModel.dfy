/** The connection pool as a state machine. A state is the pool's own tables and
    queues, the connection objects with what libuv still owes them, and the history
    of notifications. Each loop callback and each turn of the loops in `on_wakeup`
    is one step; the answers of libuv and of the memory allocator are parameters. */
module PoolModel {

  import opened Common

  // --------------------------------------------------------------- entities

  datatype Protocol = Tcp | Udp | Unknown
  datatype Address = Invalid | Ip(number: nat)
  datatype Node = Node(protocol: Protocol, address: Address)

  const NO_NODE := Node(Tcp, Invalid)

  /** One accepted call of `send`: the serial number stands for the block of memory
      that holds a copy of the caller's bytes. */
  datatype Message = Message(serial: nat, node: Node, autoConnect: bool)

  datatype BindRequest = BindRequest(node: Node, bind: bool)
  datatype CloseRequest = CloseRequest(node: Node, force: bool)

  /** A `Ctcp` object: its fields, then what libuv knows about its two handles.
      `tcpCloses` and `timerCloses` count the calls of `uv_close`. */
  datatype Conn = Conn(
    node: Node,
    server: bool,
    tcpInited: bool,
    timerInited: bool,
    closing: bool,
    shutdown: bool,
    armed: bool,
    reading: bool,
    connectReq: bool,
    shutdownReq: bool,
    tcpCloses: nat,
    timerCloses: nat)

  /** An accepted `uv_write` whose callback is still to come. */
  datatype Write = Write(conn: nat, messages: seq<Message>)

  /** The live connection objects. An object is known by a number never used again,
      so that a reference to a deleted object stays recognisable. */
  datatype Heap = Heap(conns: map<nat, Conn>, next: nat, deleted: seq<nat>, writes: seq<Write>)

  datatype Tables = Tables(
    servers: map<Node, nat>,
    udpServers: set<Node>,
    stream: map<Node, nat>,
    connecting: set<nat>,
    waiting: map<Node, seq<Message>>)

  /** Where the callers and the loop thread are: `signalled` once the destructor has
      sent its wake-up, `awake` inside `on_wakeup`, `testing` there between the release
      of the lock and the test of the exit flag, `exited` after the exit branch, which
      closes the wake-up handle. `seen` counts the messages accepted before the queues
      were last taken over. */
  datatype Phase = Phase(wantExit: bool, signalled: bool, awake: bool, testing: bool, exited: bool, seen: nat)

  /** The queues callers append to, the copies `on_wakeup` is working through, and
      everything `send` ever accepted. */
  datatype Queues = Queues(
    accepted: seq<Message>,
    pendingBind: seq<BindRequest>,
    pendingSend: seq<Message>,
    pendingClose: seq<CloseRequest>,
    bindCopy: seq<BindRequest>,
    sendCopy: seq<Message>,
    closeCopy: seq<CloseRequest>)

  datatype Status = Status(node: Node, up: bool)

  /** History: connection and bind notifications, messages handed to `uv_write`,
      written, dropped (one `drop` call each), given to the UDP branch, and the
      blocks freed. */
  datatype Log = Log(
    status: seq<Status>,
    bound: seq<Status>,
    handed: seq<Message>,
    written: seq<Message>,
    dropped: seq<Message>,
    udp: seq<Message>,
    freed: seq<Message>)

  datatype Pool = Pool(p: Phase, q: Queues, t: Tables, h: Heap, log: Log)

  function Init(): Pool {
    Pool(Phase(false, false, false, false, false, 0),
         Queues([], [], [], [], [], [], []),
         Tables(map[], {}, map[], {}, map[]),
         Heap(map[], 0, [], []),
         Log([], [], [], [], [], [], []))
  }

  // ------------------------------------------------------ connection objects

  function SetConn(h: Heap, id: nat, c: Conn): Heap {
    h.(conns := h.conns[id := c])
  }

  function Delete(h: Heap, id: nat): Heap {
    h.(conns := h.conns - {id}, deleted := h.deleted + [id])
  }

  /** `uv_close` on every initialised handle; libuv stops the timer and reading. */
  function Closed(c: Conn): Conn {
    c.(closing := true, armed := false, reading := false,
       tcpCloses := c.tcpCloses + (if c.tcpInited then 1 else 0),
       timerCloses := c.timerCloses + (if c.timerInited then 1 else 0))
  }

  /** `Ctcp::close_set_nullptr`. */
  function CloseConn(h: Heap, id: nat): Heap
    requires id in h.conns
  {
    var c := h.conns[id];
    if c.tcpInited || c.timerInited then
      if c.closing then h else SetConn(h, id, Closed(c))
    else Delete(h, id)
  }

  /** `Ctcp::shutdown_and_close_set_nullptr`; `ok` when there is memory for the
      request and libuv accepts it. */
  function ShutdownConn(h: Heap, id: nat, ok: bool): Heap
    requires id in h.conns
  {
    var c := h.conns[id];
    if !c.tcpInited then CloseConn(h, id)
    else if c.closing || c.shutdown then h
    else if ok then SetConn(h, id, c.(shutdown := true, shutdownReq := true))
    else CloseConn(h, id)
  }

  datatype AllocEnv = AllocEnv(memory: bool, tcpInit: bool, timerInit: bool, options: bool)

  /** A `Ctcp` object before any handle is initialised. */
  const BLANK := Conn(NO_NODE, false, false, false, false, false, false, false, false, false, 0, 0)

  /** `Ctcp::alloc`: the heap afterwards, and the object unless something failed. An
      object whose initialisation fails half-way is closed, not leaked. */
  function Alloc(h: Heap, timer: bool, e: AllocEnv): (Heap, Option<nat>) {
    if !e.memory then (h, None)
    else
      var id := h.next;
      var born := h.(next := id + 1);
      if !e.tcpInit then (CloseConn(SetConn(born, id, BLANK), id), None)
      else
        var c := BLANK.(tcpInited := true);
        if timer && !e.timerInit then (CloseConn(SetConn(born, id, c), id), None)
        else
          var d := c.(timerInited := timer);
          if !e.options then (CloseConn(SetConn(born, id, d), id), None)
          else (SetConn(born, id, d), Some(id))
  }

  // ------------------------------------------------------- tables and history

  function Report(s: Pool, node: Node, up: bool): Pool {
    s.(log := s.log.(status := s.log.status + [Status(node, up)]))
  }

  function ReportBind(s: Pool, node: Node, up: bool): Pool {
    s.(log := s.log.(bound := s.log.bound + [Status(node, up)]))
  }

  /** `drop` for each message, and its block freed. */
  function Drop(s: Pool, messages: seq<Message>): Pool {
    s.(log := s.log.(dropped := s.log.dropped + messages, freed := s.log.freed + messages))
  }

  /** `dropWaiting`. */
  function DropWaiting(s: Pool, node: Node): Pool {
    if node in s.t.waiting then
      Drop(s.(t := s.t.(waiting := s.t.waiting - {node})), s.t.waiting[node])
    else s
  }

  /** `pushWaiting`. */
  function PushWaiting(s: Pool, m: Message): Pool {
    var queue := if m.node in s.t.waiting then s.t.waiting[m.node] else [];
    s.(t := s.t.(waiting := s.t.waiting[m.node := queue + [m]]))
  }

  /** `shutdownTcpConnection_set_nullptr`: erase whatever stream the node maps to,
      report, drop what waits for the node, and close or shut down this object. */
  function Shutdown(s: Pool, id: nat, always: bool, graceful: bool, ok: bool): Pool
    requires id in s.h.conns
  {
    var node := s.h.conns[id].node;
    var erased := s.(t := s.t.(stream := s.t.stream - {node}));
    var told := if node in s.t.stream || always then Report(erased, node, false) else erased;
    var quiet := DropWaiting(told, node);
    quiet.(h := if graceful then ShutdownConn(s.h, id, ok) else CloseConn(s.h, id))
  }

  datatype SendEnv = SendEnv(memory: bool, timer: bool, write: bool)

  /** Timer first, then `uv_write`; if either is refused the messages are dropped
      and the connection is closed. */
  function SendOn(s: Pool, id: nat, messages: seq<Message>, e: SendEnv): Pool
    requires id in s.h.conns
  {
    if e.timer && e.write then
      s.(h := SetConn(s.h, id, s.h.conns[id].(armed := true)).(writes := s.h.writes + [Write(id, messages)]),
         log := s.log.(handed := s.log.handed + messages))
    else
      Shutdown(Drop(s, messages), id, false, false, false)
  }

  /** `startupTcpConnection_may_set_nullptr`. */
  function Startup(s: Pool, id: nat, e: SendEnv): Pool
    requires id in s.h.conns
  {
    var node := s.h.conns[id].node;
    if node.address.Invalid? || node in s.t.stream then s.(h := CloseConn(s.h, id))
    else
      var up := Report(s.(t := s.t.(stream := s.t.stream[node := id])), node, true);
      if node !in up.t.waiting then up
      else if !e.memory then DropWaiting(up, node)
      else SendOn(up.(t := up.t.(waiting := up.t.waiting - {node})), id, up.t.waiting[node], e)
  }

  // -------------------------------------------------------------- on_wakeup

  datatype ConnectEnv = ConnectEnv(memory: bool, alloc: AllocEnv, timer: bool, connect: bool)

  /** `connectTcp` for a TCP node. libuv refuses an address of no known family. */
  function Connect(h: Heap, node: Node, e: ConnectEnv): (Heap, Option<nat>) {
    if !e.memory then (h, None)
    else
      var (h1, made) := Alloc(h, true, e.alloc);
      if made.None? then (h1, None)
      else
        var id := made.value;
        if id !in h1.conns then (h1, None)
        else
          var c := h1.conns[id].(node := node);
          if !e.timer then (CloseConn(SetConn(h1, id, c), id), None)
          else if !e.connect || node.address.Invalid? then (CloseConn(SetConn(h1, id, c.(armed := true)), id), None)
          else (SetConn(h1, id, c.(armed := true, connectReq := true)), Some(id))
  }

  datatype BindEnv = BindEnv(alloc: AllocEnv, bind: bool, listen: bool, udp: bool)

  /** `bindAndListenTcp`: a `Ctcp` without a timer. */
  function Listen(h: Heap, node: Node, e: BindEnv): (Heap, Option<nat>) {
    var (h1, made) := Alloc(h, false, e.alloc);
    if made.None? then (h1, None)
    else
      var id := made.value;
      if id !in h1.conns then (h1, None)
      else
        var c := h1.conns[id].(node := node, server := true);
        if !e.bind || !e.listen then (CloseConn(SetConn(h1, id, c), id), None)
        else (SetConn(h1, id, c), Some(id))
  }

  function BindTcp(s: Pool, r: BindRequest, e: BindEnv): Pool
    requires forall n :: n in s.t.servers ==> s.t.servers[n] in s.h.conns
  {
    if r.node in s.t.servers then
      if r.bind then ReportBind(s, r.node, true)
      else
        ReportBind(s, r.node, false).(t := s.t.(servers := s.t.servers - {r.node}),
                                      h := CloseConn(s.h, s.t.servers[r.node]))
    else if r.bind then
      var (h1, made) := Listen(s.h, r.node, e);
      var s1 := s.(h := h1);
      if made.Some? then ReportBind(s1.(t := s1.t.(servers := s1.t.servers[r.node := made.value])), r.node, true)
      else ReportBind(s1, r.node, false)
    else ReportBind(s, r.node, false)
  }

  function BindUdp(s: Pool, r: BindRequest, e: BindEnv): Pool {
    if r.node in s.t.udpServers then
      if r.bind then ReportBind(s, r.node, true)
      else ReportBind(s.(t := s.t.(udpServers := s.t.udpServers - {r.node})), r.node, false)
    else if r.bind && e.udp then
      ReportBind(s.(t := s.t.(udpServers := s.t.udpServers + {r.node})), r.node, true)
    else ReportBind(s, r.node, false)
  }

  function BindOne(s: Pool, r: BindRequest, e: BindEnv): Pool
    requires forall n :: n in s.t.servers ==> s.t.servers[n] in s.h.conns
  {
    match r.node.protocol
    case Tcp => BindTcp(s, r, e)
    case Udp => BindUdp(s, r, e)
    case Unknown => ReportBind(s, r.node, false)
  }

  datatype DeliverEnv = DeliverEnv(send: SendEnv, connect: ConnectEnv)

  /** A TCP message for a node without an established stream. */
  function SendAway(s: Pool, m: Message, e: DeliverEnv): Pool {
    if m.node in s.t.waiting then PushWaiting(s, m)
    else if !m.autoConnect then Drop(s, [m])
    else
      var pushed := PushWaiting(s, m);
      var (h1, made) := Connect(s.h, m.node, e.connect);
      var s1 := pushed.(h := h1);
      if made.Some? then s1.(t := s1.t.(connecting := s1.t.connecting + {made.value}))
      else DropWaiting(Report(s1, m.node, false), m.node)
  }

  /** One turn of the send loop. */
  function SendOne(s: Pool, m: Message, e: DeliverEnv): Pool
    requires forall n :: n in s.t.stream ==> s.t.stream[n] in s.h.conns
  {
    match m.node.protocol
    case Tcp =>
      if m.node !in s.t.stream then SendAway(s, m, e)
      else if !e.send.memory then Drop(s, [m])
      else SendOn(s, s.t.stream[m.node], [m], e.send)
    case Udp =>
      s.(log := s.log.(udp := s.log.udp + [m], freed := s.log.freed + [m]))
    case Unknown =>
      Drop(if m.autoConnect then Report(s, m.node, false) else s, [m])
  }

  datatype CloseEnv = CloseEnv(timer: bool, shutdown: bool)

  /** One turn of the close loop. */
  function CloseOne(s: Pool, r: CloseRequest, e: CloseEnv): Pool
    requires forall n :: n in s.t.stream ==> s.t.stream[n] in s.h.conns
  {
    if r.node !in s.t.stream then s
    else
      var id := s.t.stream[r.node];
      if r.force then Shutdown(s, id, false, false, false)
      else if !e.timer then Shutdown(s, id, false, false, false)
      else Shutdown(s.(h := SetConn(s.h, id, s.h.conns[id].(armed := true))), id, false, true, e.shutdown)
  }

  // ------------------------------------------------------------------- exit

  /** Closes several objects; each is still there when its turn comes. */
  function CloseAll(h: Heap, ids: seq<nat>): Heap
    decreases |ids|
  {
    if ids == [] then h
    else CloseAll(if ids[0] in h.conns then CloseConn(h, ids[0]) else h, ids[1..])
  }

  function AllDown(nodes: seq<Node>): seq<Status> {
    seq(|nodes|, i requires 0 <= i < |nodes| => Status(nodes[i], false))
  }

  /** The messages waiting for the given nodes. */
  function WaitingFor(waiting: map<Node, seq<Message>>, nodes: seq<Node>): seq<Message>
    decreases |nodes|
  {
    if nodes == [] then []
    else (if nodes[0] in waiting then waiting[nodes[0]] else []) + WaitingFor(waiting, nodes[1..])
  }

  /** The order in which the exit branch walks each hash table. */
  datatype ExitEnv = ExitEnv(servers: seq<Node>, udpServers: seq<Node>, streams: seq<Node>, dials: seq<nat>, waits: seq<Node>)

  /** Every element of `all`, once. */
  ghost predicate Enumerates<T(!new)>(order: seq<T>, all: set<T>) {
    && (forall x :: x in order <==> x in all)
    && (forall i, j :: 0 <= i < j < |order| ==> order[i] != order[j])
  }

  ghost predicate ExitOrder(t: Tables, e: ExitEnv) {
    && Enumerates(e.servers, t.servers.Keys)
    && Enumerates(e.udpServers, t.udpServers)
    && Enumerates(e.streams, t.stream.Keys)
    && Enumerates(e.dials, t.connecting)
    && Enumerates(e.waits, t.waiting.Keys)
  }

  function Ids(m: map<Node, nat>, nodes: seq<Node>): seq<nat>
    requires forall n :: n in nodes ==> n in m
  {
    seq(|nodes|, i requires 0 <= i < |nodes| => m[nodes[i]])
  }

  function NodesOf(h: Heap, ids: seq<nat>): seq<Node> {
    seq(|ids|, i requires 0 <= i < |ids| => if ids[i] in h.conns then h.conns[ids[i]].node else NO_NODE)
  }

  function RequestNodes(requests: seq<BindRequest>): seq<Node> {
    seq(|requests|, i requires 0 <= i < |requests| => requests[i].node)
  }

  /** The exit branch of `on_wakeup`, on the requests just taken over. */
  function Exit(s: Pool, e: ExitEnv): Pool
    requires ExitOrder(s.t, e)
  {
    var h1 := CloseAll(s.h, Ids(s.t.servers, e.servers));
    var h2 := CloseAll(h1, Ids(s.t.stream, e.streams));
    var h3 := CloseAll(h2, e.dials);
    var down := AllDown(e.streams) + AllDown(NodesOf(s.h, e.dials));
    var unbound := AllDown(e.servers) + AllDown(e.udpServers) + AllDown(RequestNodes(s.q.bindCopy));
    var dropped := WaitingFor(s.t.waiting, e.waits) + s.q.sendCopy;
    s.(p := s.p.(exited := true, awake := false, testing := false),
       q := s.q.(bindCopy := [], sendCopy := [], closeCopy := []),
       t := Tables(map[], {}, map[], {}, map[]),
       h := h3,
       log := s.log.(status := s.log.status + down, bound := s.log.bound + unbound,
                     dropped := s.log.dropped + dropped, freed := s.log.freed + dropped))
  }

  // -------------------------------------------------------------- callbacks

  /** `reset_tcp_idle_timeout_may_set_nullptr`. */
  function ResetIdle(s: Pool, id: nat, queueEmpty: bool, timer: bool): Pool
    requires id in s.h.conns
  {
    if !queueEmpty then s
    else if timer then s.(h := SetConn(s.h, id, s.h.conns[id].(armed := true)))
    else Shutdown(s, id, false, false, false)
  }

  datatype NewEnv = NewEnv(status: bool, alloc: AllocEnv, accept: bool, peer: bool, address: Address,
                           timer: bool, read: bool, send: SendEnv)

  /** What `on_new_connection` does with the object that accepted the connection. */
  function Accepted(s: Pool, id: nat, e: NewEnv): Pool
    requires id in s.h.conns
  {
    var c := s.h.conns[id].(node := Node(Tcp, e.address));
    if c.node.address.Invalid? || c.node in s.t.stream || !e.timer then s.(h := CloseConn(SetConn(s.h, id, c), id))
    else if !e.read then s.(h := CloseConn(SetConn(s.h, id, c.(armed := true)), id))
    else Startup(s.(h := SetConn(s.h, id, c.(armed := true, reading := true))), id, e.send)
  }

  /** `on_new_connection`. */
  function NewConnection(s: Pool, e: NewEnv): Pool {
    if !e.status then s
    else
      var (h1, made) := Alloc(s.h, true, e.alloc);
      var s1 := s.(h := h1);
      if made.None? || made.value !in h1.conns then s1
      else if !e.accept || !e.peer then s1.(h := CloseConn(h1, made.value))
      else Accepted(s1, made.value, e)
  }

  datatype DoneEnv = DoneEnv(status: bool, timer: bool, read: bool, send: SendEnv)

  /** What `on_connect_done` does once the idle timer runs. */
  function Connected(s: Pool, id: nat, e: DoneEnv): Pool
    requires id in s.h.conns
  {
    var c := s.h.conns[id].(armed := true);
    if !e.read then Shutdown(s.(h := SetConn(s.h, id, c)), id, true, false, false)
    else Startup(s.(h := SetConn(s.h, id, c.(reading := true))), id, e.send)
  }

  /** `on_connect_done`. */
  function ConnectDone(s: Pool, id: nat, e: DoneEnv): Pool
    requires id in s.h.conns
  {
    var c := s.h.conns[id].(connectReq := false);
    var s1 := s.(t := s.t.(connecting := s.t.connecting - {id}), h := SetConn(s.h, id, c));
    if !e.status || c.closing || !e.timer then Shutdown(s1, id, true, false, false) else Connected(s1, id, e)
  }

  datatype WriteEnv = WriteEnv(status: bool, queueEmpty: bool, timer: bool)

  function WithoutWrite(h: Heap, k: nat): Heap
    requires k < |h.writes|
  {
    h.(writes := h.writes[..k] + h.writes[k + 1..])
  }

  /** `on_tcp_write_done` for the write at position `k`. */
  function WriteDone(s: Pool, k: nat, e: WriteEnv): Pool
    requires k < |s.h.writes| && s.h.writes[k].conn in s.h.conns
  {
    var w := s.h.writes[k];
    var c := s.h.conns[w.conn];
    var s1 := s.(h := WithoutWrite(s.h, k), log := s.log.(freed := s.log.freed + w.messages));
    if !e.status then
      Shutdown(s1.(log := s1.log.(dropped := s1.log.dropped + w.messages)), w.conn, false, false, false)
    else
      var s2 := s1.(log := s1.log.(written := s1.log.written + w.messages));
      if c.closing || c.shutdown then s2 else ResetIdle(s2, w.conn, e.queueEmpty, e.timer)
  }

  datatype ReadResult = Data | Nothing | Failed

  /** `on_tcp_read`. */
  function Read(s: Pool, id: nat, got: ReadResult, queueEmpty: bool, timer: bool): Pool
    requires id in s.h.conns
  {
    match got
    case Data =>
      if s.h.conns[id].closing || s.h.conns[id].shutdown then s else ResetIdle(s, id, queueEmpty, timer)
    case Nothing => s
    case Failed => Shutdown(s, id, false, false, false)
  }

  /** `on_tcp_timeout`; the timer is one-shot. */
  function Timeout(s: Pool, id: nat): Pool
    requires id in s.h.conns
  {
    Shutdown(s.(h := SetConn(s.h, id, s.h.conns[id].(armed := false))), id, false, false, false)
  }

  /** The callback of `uv_shutdown`. */
  function ShutdownDone(s: Pool, id: nat): Pool
    requires id in s.h.conns
  {
    s.(h := CloseConn(SetConn(s.h, id, s.h.conns[id].(shutdownReq := false)), id))
  }

  /** The close callback of the tcp handle: the object goes with its last handle. */
  function TcpClosed(h: Heap, id: nat): Heap
    requires id in h.conns
  {
    var c := h.conns[id].(tcpInited := false);
    if c.timerInited then SetConn(h, id, c) else Delete(h, id)
  }

  /** The close callback of the timer handle. */
  function TimerClosed(h: Heap, id: nat): Heap
    requires id in h.conns
  {
    var c := h.conns[id].(timerInited := false);
    if c.tcpInited then SetConn(h, id, c) else Delete(h, id)
  }

  // ------------------------------------------------------------------ steps

  datatype Event =
    // callers
    | CallBind(bindNode: Node, bind: bool)
    | CallSend(sendNode: Node, length: nat, autoConnect: bool)
    | CallClose(closeNode: Node, force: bool)
    | CallDestroy
    | CallSignal
    // the loop thread, inside on_wakeup
    | Wakeup
    | ReadFlag(order: ExitEnv)
    | TurnBind(bindEnv: BindEnv)
    | TurnSend(deliverEnv: DeliverEnv)
    | TurnClose(closeEnv: CloseEnv)
    | WakeupEnd
    // the loop thread, other callbacks
    | OnNewConnection(server: nat, newEnv: NewEnv)
    | OnConnectDone(dial: nat, doneEnv: DoneEnv)
    | OnWriteDone(write: nat, writeEnv: WriteEnv)
    | OnRead(reader: nat, got: ReadResult, queueEmpty: bool, readTimer: bool)
    | OnTimeout(timer: nat)
    | OnShutdownDone(shut: nat)
    | OnTcpClosed(tcp: nat)
    | OnTimerClosed(timerHandle: nat)

  /** In the loops of `on_wakeup`. */
  predicate Turning(p: Phase) {
    p.awake && !p.testing
  }

  /** No accepted write of this connection is still to be answered. */
  predicate NoWrites(h: Heap, id: nat) {
    forall k :: 0 <= k < |h.writes| ==> h.writes[k].conn != id
  }

  const UDP_MAX: nat := 65507

  /** What libuv promises and what callers may do. Callbacks run on the loop thread,
      so none runs inside `on_wakeup`; callers append to the queues at any time before
      the destructor, also between two turns of `on_wakeup` and between its release of
      the lock and its test of the exit flag. */
  ghost predicate Enabled(s: Pool, ev: Event) {
    match ev
    case CallBind(_, _) => !s.p.wantExit
    case CallSend(_, _, _) => !s.p.wantExit
    case CallClose(_, _) => !s.p.wantExit
    case CallDestroy => !s.p.wantExit
    case CallSignal => s.p.wantExit && !s.p.signalled
    case Wakeup => !s.p.awake && !s.p.exited
    case ReadFlag(order) => s.p.awake && s.p.testing && (s.p.wantExit ==> ExitOrder(s.t, order))
    case TurnBind(_) => Turning(s.p) && s.q.bindCopy != []
    case TurnSend(_) => Turning(s.p) && s.q.bindCopy == [] && s.q.sendCopy != []
    case TurnClose(_) => Turning(s.p) && s.q.bindCopy == [] && s.q.sendCopy == [] && s.q.closeCopy != []
    case WakeupEnd => Turning(s.p) && s.q.bindCopy == [] && s.q.sendCopy == [] && s.q.closeCopy == []
    case OnNewConnection(id, _) =>
      !s.p.awake && id in s.h.conns && s.h.conns[id].server && !s.h.conns[id].closing
    case OnConnectDone(id, _) => !s.p.awake && id in s.h.conns && s.h.conns[id].connectReq
    case OnWriteDone(k, _) => !s.p.awake && k < |s.h.writes|
    case OnRead(id, _, _, _) => !s.p.awake && id in s.h.conns && s.h.conns[id].reading
    case OnTimeout(id) => !s.p.awake && id in s.h.conns && s.h.conns[id].armed
    case OnShutdownDone(id) => !s.p.awake && id in s.h.conns && s.h.conns[id].shutdownReq
    case OnTcpClosed(id) =>
      && !s.p.awake && id in s.h.conns
      && s.h.conns[id].tcpInited && s.h.conns[id].tcpCloses > 0
      && !s.h.conns[id].connectReq && !s.h.conns[id].shutdownReq && NoWrites(s.h, id)
    case OnTimerClosed(id) =>
      !s.p.awake && id in s.h.conns && s.h.conns[id].timerInited && s.h.conns[id].timerCloses > 0
  }

  /** `send` takes a copy of a non-empty message; an oversized datagram is ignored. */
  function Enqueue(q: Queues, node: Node, length: nat, autoConnect: bool): Queues {
    if length == 0 || (node.protocol == Udp && length > UDP_MAX) then q
    else
      var m := Message(|q.accepted|, node, autoConnect);
      q.(accepted := q.accepted + [m], pendingSend := q.pendingSend + [m])
  }

  /** The lock region of `on_wakeup`: take the queues over. */
  function TakeOver(q: Queues): Queues {
    q.(bindCopy := q.pendingBind, sendCopy := q.pendingSend, closeCopy := q.pendingClose,
       pendingBind := [], pendingSend := [], pendingClose := [])
  }

  /** Every table entry and every write names an object that exists. */
  ghost predicate Linked(s: Pool) {
    && (forall n :: n in s.t.servers ==> s.t.servers[n] in s.h.conns)
    && (forall n :: n in s.t.stream ==> s.t.stream[n] in s.h.conns)
    && (forall k :: 0 <= k < |s.h.writes| ==> s.h.writes[k].conn in s.h.conns)
  }

  function Step(s: Pool, ev: Event): Pool
    requires Linked(s) && Enabled(s, ev)
  {
    match ev
    case CallBind(node, bind) => s.(q := s.q.(pendingBind := s.q.pendingBind + [BindRequest(node, bind)]))
    case CallSend(node, length, autoConnect) => s.(q := Enqueue(s.q, node, length, autoConnect))
    case CallClose(node, force) =>
      if node.protocol != Tcp then s
      else s.(q := s.q.(pendingClose := s.q.pendingClose + [CloseRequest(node, force)]))
    case CallDestroy => s.(p := s.p.(wantExit := true))
    case CallSignal => s.(p := s.p.(signalled := true))
    case Wakeup => s.(p := s.p.(awake := true, testing := true, seen := |s.q.accepted|), q := TakeOver(s.q))
    case ReadFlag(order) => if s.p.wantExit then Exit(s, order) else s.(p := s.p.(testing := false))
    case TurnBind(e) => BindOne(s.(q := s.q.(bindCopy := s.q.bindCopy[1..])), s.q.bindCopy[0], e)
    case TurnSend(e) => SendOne(s.(q := s.q.(sendCopy := s.q.sendCopy[1..])), s.q.sendCopy[0], e)
    case TurnClose(e) => CloseOne(s.(q := s.q.(closeCopy := s.q.closeCopy[1..])), s.q.closeCopy[0], e)
    case WakeupEnd => s.(p := s.p.(awake := false))
    case OnNewConnection(_, e) => NewConnection(s, e)
    case OnConnectDone(id, e) => ConnectDone(s, id, e)
    case OnWriteDone(k, e) => WriteDone(s, k, e)
    case OnRead(id, got, queueEmpty, timer) => Read(s, id, got, queueEmpty, timer)
    case OnTimeout(id) => Timeout(s, id)
    case OnShutdownDone(id) => ShutdownDone(s, id)
    case OnTcpClosed(id) => s.(h := TcpClosed(s.h, id))
    case OnTimerClosed(id) => s.(h := TimerClosed(s.h, id))
  }
}
