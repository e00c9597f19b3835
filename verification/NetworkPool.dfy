/** `CnetworkPool` over its connection objects: mutable tables of references, callbacks
    that reach an object through its handle, callers that append under the lock at any
    time. `View` maps it to a state of PoolModel; each method is proved to be a step of
    that machine, or a part of one. */
module NetworkPool {
  import opened Common
  import opened PoolModel
  import opened PoolHeap
  import opened PoolTables
  import opened PoolSteps
  import opened PoolRuns
  import opened PoolTheorems
  import opened UvTcp

  /** The table entries name objects that exist. */
  ghost predicate TablesLinked(s: Pool) {
    && (forall n :: n in s.t.servers ==> s.t.servers[n] in s.h.conns)
    && (forall n :: n in s.t.stream ==> s.t.stream[n] in s.h.conns)
  }

  /** `ev` may happen in `s` and leads to `r`. */
  ghost predicate Steps(s: Pool, ev: Event, r: Pool) {
    Linked(s) && Enabled(s, ev) && r == Step(s, ev)
  }

  lemma CallEnabled(s: Pool, ev: Event)
    requires ev.CallBind? || ev.CallSend? || ev.CallClose? || ev.CallDestroy? ==> !s.p.wantExit
    requires ev.CallSignal? ==> s.p.wantExit && !s.p.signalled
    requires ev.CallBind? || ev.CallSend? || ev.CallClose? || ev.CallDestroy? || ev.CallSignal?
    ensures Enabled(s, ev)
  {
  }

  lemma CallIs(s: Pool, ev: Event)
    requires Linked(s) && Enabled(s, ev)
    ensures ev.CallBind? ==>
      Step(s, ev) == s.(q := s.q.(pendingBind := s.q.pendingBind + [BindRequest(ev.bindNode, ev.bind)]))
    ensures ev.CallSend? ==> Step(s, ev) == s.(q := Enqueue(s.q, ev.sendNode, ev.length, ev.autoConnect))
    ensures ev.CallClose? ==>
      Step(s, ev) == if ev.closeNode.protocol != Tcp then s
                     else s.(q := s.q.(pendingClose := s.q.pendingClose + [CloseRequest(ev.closeNode, ev.force)]))
    ensures ev.CallDestroy? ==> Step(s, ev) == s.(p := s.p.(wantExit := true))
    ensures ev.CallSignal? ==> Step(s, ev) == s.(p := s.p.(signalled := true))
    ensures ev.Wakeup? ==> Step(s, ev) == s.(p := s.p.(awake := true, testing := true, seen := |s.q.accepted|), q := TakeOver(s.q))
    ensures ev.WakeupEnd? ==> Step(s, ev) == s.(p := s.p.(awake := false))
    ensures ev.ReadFlag? ==>
      && (s.p.wantExit ==> ExitOrder(s.t, ev.order))
      && Step(s, ev) == if s.p.wantExit then Exit(s, ev.order) else s.(p := s.p.(testing := false))
  {
    hide Exit, ExitOrder;
  }

  lemma CallbackIs(s: Pool, ev: Event)
    requires Linked(s) && Enabled(s, ev)
    ensures ev.OnNewConnection? ==> Step(s, ev) == NewConnection(s, ev.newEnv)
    ensures ev.OnWriteDone? ==> ev.write < |s.h.writes| && s.h.writes[ev.write].conn in s.h.conns
    ensures ev.OnWriteDone? ==> Step(s, ev) == WriteDone(s, ev.write, ev.writeEnv)
    ensures ev.OnRead? ==> ev.reader in s.h.conns && Step(s, ev) == Read(s, ev.reader, ev.got, ev.queueEmpty, ev.readTimer)
    ensures ev.OnConnectDone? ==> ev.dial in s.h.conns && Step(s, ev) == ConnectDone(s, ev.dial, ev.doneEnv)
    ensures ev.OnTimeout? ==> ev.timer in s.h.conns && Step(s, ev) == Timeout(s, ev.timer)
    ensures ev.OnShutdownDone? ==> ev.shut in s.h.conns && Step(s, ev) == ShutdownDone(s, ev.shut)
    ensures ev.OnTcpClosed? ==> ev.tcp in s.h.conns && Step(s, ev) == s.(h := TcpClosed(s.h, ev.tcp))
    ensures ev.OnTimerClosed? ==> ev.timerHandle in s.h.conns && Step(s, ev) == s.(h := TimerClosed(s.h, ev.timerHandle))
  {
    hide NewConnection, WriteDone, Read, ConnectDone, Timeout, ShutdownDone, TcpClosed, TimerClosed, NoWrites;
  }

  lemma TurnIs(s: Pool, ev: Event)
    requires Linked(s) && Enabled(s, ev)
    ensures ev.TurnBind? ==> s.q.bindCopy != [] && (var s1 := s.(q := s.q.(bindCopy := s.q.bindCopy[1..]));
      TablesLinked(s1) && Step(s, ev) == BindOne(s1, s.q.bindCopy[0], ev.bindEnv))
    ensures ev.TurnSend? ==> s.q.sendCopy != [] && (var s1 := s.(q := s.q.(sendCopy := s.q.sendCopy[1..]));
      TablesLinked(s1) && Step(s, ev) == SendOne(s1, s.q.sendCopy[0], ev.deliverEnv))
    ensures ev.TurnClose? ==> s.q.closeCopy != [] && (var s1 := s.(q := s.q.(closeCopy := s.q.closeCopy[1..]));
      TablesLinked(s1) && Step(s, ev) == CloseOne(s1, s.q.closeCopy[0], ev.closeEnv))
  {
    hide BindOne, SendOne, CloseOne, NoWrites;
  }

  /** A table of references, by the objects' numbers. */
  ghost function Numbers(table: map<Node, Ctcp>): map<Node, nat> {
    map n | n in table :: table[n].id
  }

  ghost function NumberSet(objects: set<Ctcp>): set<nat> {
    set t | t in objects :: t.id
  }

  ghost function NumberList(objects: seq<Ctcp>): seq<nat> {
    seq(|objects|, i requires 0 <= i < |objects| => objects[i].id)
  }

  /** What the live objects look like, by number. */
  ghost function Look(made: seq<Ctcp>, live: set<nat>): map<nat, Conn>
    reads made
  {
    map i | i in live && i < |made| :: made[i].View()
  }

  ghost predicate Knows(made: seq<Ctcp>, t: Ctcp) {
    t.id < |made| && made[t.id] == t
  }

  /** Numbers and objects belong together, and every reference is to an object made
      here. */
  ghost predicate Owns(made: seq<Ctcp>, live: set<nat>, servers: map<Node, Ctcp>, stream: map<Node, Ctcp>, connecting: set<Ctcp>) {
    && (forall i :: 0 <= i < |made| ==> made[i].id == i)
    && (forall i :: i in live ==> i < |made|)
    && (forall n :: n in servers ==> Knows(made, servers[n]))
    && (forall n :: n in stream ==> Knows(made, stream[n]))
    && (forall t :: t in connecting ==> Knows(made, t))
  }

  function Entries(table: map<Node, Ctcp>, nodes: seq<Node>): seq<Ctcp>
    requires forall n :: n in nodes ==> n in table
  {
    seq(|nodes|, i requires 0 <= i < |nodes| => table[nodes[i]])
  }

  function Names(objects: seq<Ctcp>): seq<Node>
    reads objects
  {
    seq(|objects|, i requires 0 <= i < |objects| reads objects => objects[i].node)
  }

  function Requested(requests: seq<BindRequest>): seq<Node> {
    seq(|requests|, i requires 0 <= i < |requests| => requests[i].node)
  }

  /** All of these nodes have an entry. */
  ghost predicate Within(nodes: seq<Node>, entries: set<Node>) {
    forall n :: n in nodes ==> n in entries
  }

  /** Each entry of the table of streams names an object of its node. */
  ghost predicate NodesRight(s: Pool) {
    forall n :: n in s.t.stream ==> s.t.stream[n] in s.h.conns && s.h.conns[s.t.stream[n]].node == n
  }

  lemma NumbersWithout(table: map<Node, Ctcp>, node: Node)
    ensures Numbers(table - {node}) == Numbers(table) - {node}
  {
  }

  lemma NumbersWith(table: map<Node, Ctcp>, node: Node, t: Ctcp)
    ensures Numbers(table[node := t]) == Numbers(table)[node := t.id]
  {
  }

  lemma NumberSetWith(objects: set<Ctcp>, t: Ctcp)
    ensures NumberSet(objects + {t}) == NumberSet(objects) + {t.id}
  {
    assert t in objects + {t};
    forall i | i in NumberSet(objects) ensures i in NumberSet(objects + {t}) {
      var u :| u in objects && u.id == i;
      assert u in objects + {t};
    }
  }

  lemma NumberSetWithout(made: seq<Ctcp>, objects: set<Ctcp>, t: Ctcp)
    requires Knows(made, t) && forall u :: u in objects ==> Knows(made, u)
    ensures NumberSet(objects - {t}) == NumberSet(objects) - {t.id}
  {
    forall i | i in NumberSet(objects) && i != t.id ensures i in NumberSet(objects - {t}) {
      var u :| u in objects && u.id == i;
      assert u in objects - {t};
    }
    forall i | i in NumberSet(objects - {t}) ensures i in NumberSet(objects) && i != t.id {
      var u :| u in objects - {t} && u.id == i;
      assert made[u.id] == u;
    }
  }

  lemma OwnsMore(made: seq<Ctcp>, live: set<nat>, servers: map<Node, Ctcp>, stream: map<Node, Ctcp>, connecting: set<Ctcp>, t: Ctcp)
    requires Owns(made, live, servers, stream, connecting) && t.id == |made|
    ensures Owns(made + [t], live + {t.id}, servers, stream, connecting) && |made| !in live
  {
  }

  lemma LookMore(made: seq<Ctcp>, live: set<nat>, t: Ctcp)
    requires t.id == |made| && forall i :: i in live ==> i < |made|
    ensures Look(made + [t], live + {t.id}) == Look(made, live)[t.id := t.View()]
  {
  }

  /** The objects of these numbers, in this order, all of them live. */
  ghost predicate Walk(made: seq<Ctcp>, live: set<nat>, objects: seq<Ctcp>, ids: seq<nat>) {
    NumberList(objects) == ids && forall i :: 0 <= i < |objects| ==> Knows(made, objects[i]) && objects[i].id in live
  }

  /** The answers libuv and the allocator give during one call of `on_wakeup`, and what
      callers do in its gaps: the first before the exit flag is read, then one after each
      turn of the three loops. */
  datatype Answers = Answers(binds: seq<BindEnv>, sends: seq<DeliverEnv>, closes: seq<CloseEnv>, gaps: nat -> seq<Event>)

  class CnetworkPool {
    // Shared with the callers, under the lock.
    var pendingBind: seq<BindRequest>
    var pendingSend: seq<Message>
    var pendingClose: seq<CloseRequest>
    var wantExit: bool
    // The wake-up handle is there; the destructor has used it.
    var wakeup: bool
    var signalled: bool
    // on_wakeup
    var bindCopy: seq<BindRequest>
    var sendCopy: seq<Message>
    var closeCopy: seq<CloseRequest>
    // The loop thread's tables.
    var servers: map<Node, Ctcp>
    var udpServers: set<Node>
    var stream: map<Node, Ctcp>
    var connecting: set<Ctcp>
    var waiting: map<Node, seq<Message>>
    // The number of the next message.
    var sent: nat
    // Every object ever made, by number; those not deleted; and the writes libuv owes an
    // answer for.
    ghost var made: seq<Ctcp>
    ghost var live: set<nat>
    ghost var deleted: seq<nat>
    ghost var writes: seq<Write>
    // Where the threads are, and history.
    ghost var awake: bool
    ghost var testing: bool
    ghost var seen: nat
    ghost var accepted: seq<Message>
    ghost var log: Log

    ghost function View(): Pool
      reads this, made
    {
      Pool.Pool(
        Phase(wantExit, signalled, awake, testing, !wakeup, seen),
        Queues(accepted, pendingBind, pendingSend, pendingClose, bindCopy, sendCopy, closeCopy),
        Tables(Numbers(servers), udpServers, Numbers(stream), NumberSet(connecting), waiting),
        Heap(Look(made, live), |made|, deleted, writes), log)
    }

    ghost predicate Live(t: Ctcp)
      reads this
    {
      Knows(made, t) && t.id in live
    }

    ghost predicate Own()
      reads this
    {
      Owns(made, live, servers, stream, connecting)
    }

    ghost predicate Valid()
      reads this, made
    {
      Own() && Good(View()) && sent == |accepted|
    }

    /** New objects may have been made. */
    twostate predicate Grown()
      reads this
    {
      old(made) <= made && forall i :: |old(made)| <= i < |made| ==> fresh(made[i])
    }

    constructor ()
      ensures Valid() && View() == Init()
    {
      pendingBind, pendingSend, pendingClose, wantExit, wakeup := [], [], [], false, true;
      bindCopy, sendCopy, closeCopy := [], [], [];
      servers, udpServers, stream, connecting, waiting := map[], {}, map[], {}, map[];
      made, live, deleted, writes := [], {}, [], [];
      signalled, awake, testing, seen := false, false, false, 0;
      accepted, sent := [], 0;
      log := Log([], [], [], [], [], [], []);
      new;
      assert Numbers(map[]) == map[] && NumberSet({}) == {} && Look([], {}) == map[];
      InitGood();
    }

    // -------------------------------------------------------- views of changes

    /** One object changed, nothing else. */
    twostate lemma Changed(t: Ctcp)
      requires old(Own()) && Live(t)
      requires unchanged(this) && forall i :: 0 <= i < |made| && made[i] != t ==> unchanged(made[i])
      ensures Own() && View() == old(View()).(h := SetConn(old(View()).h, t.id, t.View()))
    {
      assert Look(made, live) == old(Look(made, live))[t.id := t.View()];
    }

    lemma InConns(t: Ctcp)
      requires Own() && Knows(made, t)
      ensures t.id in View().h.conns <==> t.id in live
      ensures t.id in live ==> View().h.conns[t.id] == t.View()
    {
    }

    // ---------------------------------------------------------- the callers

    method Bind(node: Node, bind: bool)
      requires Valid() && !wantExit
      modifies this`pendingBind
      ensures Valid() && Steps(old(View()), CallBind(node, bind), View())
    {
      hide Good, Owns, Numbers, NumberSet, Look, Linked, Enabled, Step;
      CallEnabled(View(), CallBind(node, bind));
      StepGood(View(), CallBind(node, bind));
      CallIs(View(), CallBind(node, bind));
      pendingBind := pendingBind + [BindRequest(node, bind)];
    }

    /** Accepts a copy of a non-empty message; an oversized datagram is ignored. */
    method Send(node: Node, length: nat, autoConnect: bool)
      requires Valid() && !wantExit
      modifies this`pendingSend, this`accepted, this`sent
      ensures Valid() && Steps(old(View()), CallSend(node, length, autoConnect), View())
    {
      hide Good, Owns, Numbers, NumberSet, Look, Linked, Enabled, Step;
      CallEnabled(View(), CallSend(node, length, autoConnect));
      StepGood(View(), CallSend(node, length, autoConnect));
      CallIs(View(), CallSend(node, length, autoConnect));
      if 0 == length {
        return;
      }
      if node.protocol == Udp && length > 65507 {
        return;
      }
      Append(Message(sent, node, autoConnect));
    }

    method Append(m: Message)
      modifies this`pendingSend, this`accepted, this`sent
      ensures View() == old(View()).(q := old(View()).q.(accepted := old(accepted) + [m], pendingSend := old(pendingSend) + [m]))
      ensures sent == old(sent) + 1
    {
      hide Numbers, NumberSet, Look;
      accepted := accepted + [m];
      sent := sent + 1;
      pendingSend := pendingSend + [m];
    }

    method Close(node: Node, force: bool)
      requires Valid() && !wantExit
      modifies this`pendingClose
      ensures Valid() && Steps(old(View()), CallClose(node, force), View())
    {
      hide Good, Owns, Numbers, NumberSet, Look, Linked, Enabled, Step;
      CallEnabled(View(), CallClose(node, force));
      StepGood(View(), CallClose(node, force));
      CallIs(View(), CallClose(node, force));
      if node.protocol != Tcp {
        return;
      }
      pendingClose := pendingClose + [CloseRequest(node, force)];
    }

    /** The first statement of the destructor. */
    method Destroy()
      requires Valid() && !wantExit
      modifies this`wantExit
      ensures Valid() && Steps(old(View()), CallDestroy, View())
    {
      hide Good, Owns, Numbers, NumberSet, Look, Linked, Enabled, Step;
      CallEnabled(View(), CallDestroy);
      StepGood(View(), CallDestroy);
      CallIs(View(), CallDestroy);
      wantExit := true;
    }

    /** The second one wakes the loop up. It finds the handle unless the loop has been
        through the exit branch in between. */
    method Signal() returns (found: bool)
      requires Valid() && wantExit && !signalled
      modifies this`signalled
      ensures Valid() && Steps(old(View()), CallSignal, View())
      ensures found <==> !old(View()).p.exited
    {
      hide Good, Owns, Numbers, NumberSet, Look, Linked, Enabled, Step;
      CallEnabled(View(), CallSignal);
      StepGood(View(), CallSignal);
      CallIs(View(), CallSignal);
      found := wakeup;
      signalled := true;
    }

    // --------------------------------------------------- connection objects

    /** `close_set_nullptr`. */
    method CloseTcp(t: Ctcp)
      requires Own() && Live(t)
      modifies this`live, this`deleted, t
      ensures Own() && View() == old(View()).(h := CloseConn(old(View()).h, t.id))
    {
      InConns(t);
      if t.tcpInited || t.timerInited {
        if !t.closing {
          t.CloseHandles();
          Changed(t);
        }
      } else {
        DeleteTcp(t);
      }
    }

    method DeleteTcp(t: Ctcp)
      requires Own() && Live(t)
      modifies this`live, this`deleted
      ensures Own() && View() == old(View()).(h := Delete(old(View()).h, t.id))
    {
      live := live - {t.id};
      deleted := deleted + [t.id];
      assert Look(made, live) == old(Look(made, live)) - {t.id};
    }

    /** `shutdown_and_close_set_nullptr`; `ok` when there is memory for the request and
        libuv accepts it. */
    method ShutdownAndCloseTcp(t: Ctcp, ok: bool)
      requires Own() && Live(t)
      modifies this`live, this`deleted, t
      ensures Own() && View() == old(View()).(h := ShutdownConn(old(View()).h, t.id, ok))
    {
      hide CloseConn;
      InConns(t);
      if !t.tcpInited {
        CloseTcp(t);
        return;
      }
      if !t.closing && !t.shutdown {
        if !ok {
          CloseTcp(t);
          return;
        }
        t.shutdownReq := true;
        t.shutdown := true;
        Changed(t);
      }
    }

    /** A new object, not initialised yet. */
    method NewTcp() returns (t: Ctcp)
      requires Own()
      modifies this`made, this`live
      ensures Own() && Grown() && fresh(t) && Live(t) && t.id == |old(made)| && made == old(made) + [t] && t.View() == BLANK
      ensures var h := old(View()).h; View() == old(View()).(h := SetConn(h.(next := h.next + 1), h.next, BLANK))
    {
      hide Numbers, NumberSet, Owns, Look;
      t := new Ctcp(|made|);
      Register(t);
    }

    method Register(t: Ctcp)
      requires Own() && t.id == |made|
      modifies this`made, this`live
      ensures Own() && Live(t) && made == old(made) + [t]
      ensures var h := old(View()).h; View() == old(View()).(h := SetConn(h.(next := h.next + 1), h.next, t.View()))
    {
      OwnsMore(made, live, servers, stream, connecting, t);
      LookMore(made, live, t);
      hide Numbers, NumberSet, Owns, Look;
      made := made + [t];
      live := live + {t.id};
    }

    /** `Ctcp::alloc`. */
    method AllocTcp(timer: bool, e: AllocEnv) returns (made': Ctcp?)
      requires Own()
      modifies this`made, this`live, this`deleted
      ensures Own() && Grown()
      ensures View() == old(View()).(h := Alloc(old(View()).h, timer, e).0)
      ensures Alloc(old(View()).h, timer, e).1 == if made' == null then None else Some(made'.id)
      ensures made' != null ==> fresh(made') && Live(made')
    {
      hide CloseConn, Owns, Numbers, NumberSet, Look;
      if !e.memory {
        return null;
      }
      ghost var born := View().h.(next := View().h.next + 1);
      var t := NewTcp();
      if !e.tcpInit {
        CloseTcp(t);
        return null;
      }
      ghost var id := t.id;
      label Blank:
      t.tcpInited := true;
      Changed@Blank(t);
      SetTwice(born, id, BLANK, t.View());
      if timer {
        if !e.timerInit {
          CloseTcp(t);
          return null;
        }
        label Half:
        t.timerInited := true;
        Changed@Half(t);
        SetTwice(born, id, BLANK.(tcpInited := true), t.View());
      }
      if !e.options {
        CloseTcp(t);
        return null;
      }
      InConns(t);
      return t;
    }

    // --------------------------------------------------------------- tables

    method EraseStream(node: Node)
      requires Own()
      modifies this`stream
      ensures Own() && View() == old(View()).(t := old(View()).t.(stream := old(View()).t.stream - {node}))
    {
      NumbersWithout(stream, node);
      hide Look, NumberSet, Numbers;
      stream := stream - {node};
    }

    method FileStream(t: Ctcp)
      requires Own() && Knows(made, t)
      modifies this`stream
      ensures Own() && View() == old(View()).(t := old(View()).t.(stream := old(View()).t.stream[t.node := t.id]))
    {
      NumbersWith(stream, t.node, t);
      hide Look, NumberSet, Numbers;
      stream := stream[t.node := t];
    }

    method EraseServer(node: Node)
      requires Own()
      modifies this`servers
      ensures Own() && View() == old(View()).(t := old(View()).t.(servers := old(View()).t.servers - {node}))
    {
      NumbersWithout(servers, node);
      hide Look, NumberSet, Numbers;
      servers := servers - {node};
    }

    method FileServer(node: Node, t: Ctcp)
      requires Own() && Knows(made, t)
      modifies this`servers
      ensures Own() && View() == old(View()).(t := old(View()).t.(servers := old(View()).t.servers[node := t.id]))
    {
      NumbersWith(servers, node, t);
      hide Look, NumberSet, Numbers;
      servers := servers[node := t];
    }

    method InsertConnecting(t: Ctcp)
      requires Own() && Knows(made, t)
      modifies this`connecting
      ensures Own() && View() == old(View()).(t := old(View()).t.(connecting := old(View()).t.connecting + {t.id}))
    {
      NumberSetWith(connecting, t);
      hide Look, Numbers, NumberSet;
      connecting := connecting + {t};
    }

    method EraseConnecting(t: Ctcp)
      requires Own() && Knows(made, t)
      modifies this`connecting
      ensures Own() && View() == old(View()).(t := old(View()).t.(connecting := old(View()).t.connecting - {t.id}))
    {
      NumberSetWithout(made, connecting, t);
      hide Look, Numbers, NumberSet;
      connecting := connecting - {t};
    }

    /** An accepted write. */
    method AddWrite(t: Ctcp, messages: seq<Message>)
      modifies this`writes, this`log
      ensures View() == old(View()).(
        h := old(View()).h.(writes := old(writes) + [Write(t.id, messages)]),
        log := old(log).(handed := old(log).handed + messages))
    {
      hide Look, Numbers, NumberSet;
      writes := writes + [Write(t.id, messages)];
      log := log.(handed := log.handed + messages);
    }

    /** `uv_timer_start` accepted. */
    method StartTimer(t: Ctcp)
      requires Own() && Live(t)
      modifies t
      ensures Own() && t.View() == old(t.View()).(armed := true)
      ensures View() == old(View()).(h := SetConn(old(View()).h, t.id, t.View()))
    {
      t.armed := true;
      Changed(t);
    }

    /** The node, and what libuv has accepted to do for the object. */
    method Prepare(t: Ctcp, node: Node, ghost armed: bool, ghost reading: bool, ghost connectReq: bool)
      requires Own() && Live(t)
      modifies t
      ensures Own() && t.View() == old(t.View()).(node := node, armed := armed, reading := reading, connectReq := connectReq)
      ensures View() == old(View()).(h := SetConn(old(View()).h, t.id, t.View()))
    {
      t.node := node;
      t.armed, t.reading, t.connectReq := armed, reading, connectReq;
      Changed(t);
    }

    // -------------------------------------------------------------- helpers

    method ConnectionStatus(node: Node, up: bool)
      modifies this`log
      ensures View() == Report(old(View()), node, up)
    {
      hide Look, Numbers, NumberSet;
      log := log.(status := log.status + [Status(node, up)]);
    }

    method BindStatus(node: Node, up: bool)
      modifies this`log
      ensures View() == ReportBind(old(View()), node, up)
    {
      hide Look, Numbers, NumberSet;
      log := log.(bound := log.bound + [Status(node, up)]);
    }

    method DropOne(m: Message)
      modifies this`log
      ensures View() == Drop(old(View()), [m])
    {
      hide Look, Numbers, NumberSet;
      log := log.(dropped := log.dropped + [m], freed := log.freed + [m]);
    }

    /** One `drop` call and one `free` per message. */
    method DropAndFree(messages: seq<Message>)
      modifies this`log
      ensures View() == Drop(old(View()), messages)
    {
      hide Look, Numbers, NumberSet;
      ghost var was := View();
      var i := 0;
      while i < |messages|
        invariant 0 <= i <= |messages| && View() == Drop(was, messages[..i])
      {
        DropOne(messages[i]);
        assert messages[..i + 1] == messages[..i] + [messages[i]];
        assert was.log.dropped + messages[..i] + [messages[i]] == was.log.dropped + messages[..i + 1];
        assert was.log.freed + messages[..i] + [messages[i]] == was.log.freed + messages[..i + 1];
        i := i + 1;
      }
      assert messages[..|messages|] == messages;
    }

    method DropWaiting(node: Node)
      modifies this`waiting, this`log
      ensures View() == PoolModel.DropWaiting(old(View()), node)
    {
      hide Look, Numbers, NumberSet;
      if node in waiting {
        var messages := waiting[node];
        waiting := waiting - {node};
        DropAndFree(messages);
      }
    }

    method PushWaiting(m: Message)
      modifies this`waiting
      ensures View() == PoolModel.PushWaiting(old(View()), m)
    {
      hide Look, Numbers, NumberSet;
      if m.node !in waiting {
        waiting := waiting[m.node := [] + [m]];
      } else {
        waiting := waiting[m.node := waiting[m.node] + [m]];
      }
    }

    /** `shutdownTcpConnection_set_nullptr`. */
    method ShutdownTcpConnection(t: Ctcp, always: bool, graceful: bool, ok: bool)
      requires Own() && Live(t)
      modifies this`stream, this`waiting, this`live, this`deleted, this`log, t
      ensures Own() && View() == Shutdown(old(View()), t.id, always, graceful, ok)
    {
      InConns(t);
      hide CloseConn, ShutdownConn, Owns, Numbers, NumberSet, Look;
      var node := t.node;
      var present := node in stream;
      InNumbers(stream, node);
      EraseStream(node);
      if present || always {
        ConnectionStatus(node, false);
      }
      DropWaiting(node);
      if graceful {
        ShutdownAndCloseTcp(t, ok);
      } else {
        CloseTcp(t);
      }
    }

    lemma InNumbers(table: map<Node, Ctcp>, node: Node)
      ensures node in Numbers(table) <==> node in table
      ensures node in table ==> Numbers(table)[node] == table[node].id
    {
    }

    /** First the timer, then the write; or the messages are dropped and the connection
        is shut down. */
    method WriteOn(t: Ctcp, messages: seq<Message>, e: SendEnv)
      requires Own() && Live(t)
      modifies this`stream, this`waiting, this`live, this`deleted, this`writes, this`log, t
      ensures Own() && View() == SendOn(old(View()), t.id, messages, e)
    {
      InConns(t);
      hide Shutdown, Owns, Numbers, NumberSet, Look;
      if e.timer && e.write {
        StartTimer(t);
        AddWrite(t, messages);
      } else {
        DropAndFree(messages);
        ShutdownTcpConnection(t, false, false, false);
      }
    }

    /** `startupTcpConnection_may_set_nullptr`. */
    method StartupTcpConnection(t: Ctcp, e: SendEnv)
      requires Own() && Live(t)
      modifies this`stream, this`waiting, this`live, this`deleted, this`writes, this`log, t
      ensures Own() && View() == Startup(old(View()), t.id, e)
    {
      InConns(t);
      InNumbers(stream, t.node);
      hide SendOn, CloseConn, Owns, Numbers, NumberSet, Look;
      if t.node.address.Invalid? {
        CloseTcp(t);
        return;
      }
      if t.node in stream {
        CloseTcp(t);
        return;
      }
      FileStream(t);
      ConnectionStatus(t.node, true);
      if t.node in waiting {
        if !e.memory {
          DropWaiting(t.node);
        } else {
          var messages := waiting[t.node];
          EraseWaiting(t.node);
          WriteOn(t, messages, e);
        }
      }
    }

    method EraseWaiting(node: Node)
      modifies this`waiting
      ensures View() == old(View()).(t := old(View()).t.(waiting := old(waiting) - {node}))
    {
      hide Look, Numbers, NumberSet;
      waiting := waiting - {node};
    }

    // ------------------------------------------------- the turns of on_wakeup

    method ConnectTcp(node: Node, e: ConnectEnv) returns (t: Ctcp?)
      requires Own()
      modifies this`made, this`live, this`deleted
      ensures Own() && Grown()
      ensures View() == old(View()).(h := Connect(old(View()).h, node, e).0)
      ensures Connect(old(View()).h, node, e).1 == if t == null then None else Some(t.id)
      ensures t != null ==> fresh(t) && Live(t)
    {
      hide CloseConn, Alloc, Owns, Numbers, NumberSet, Look;
      if !e.memory {
        return null;
      }
      t := AllocTcp(true, e.alloc);
      if t == null {
        return null;
      }
      InConns(t);
      var ok := Dial(t, node, e);
      if !ok {
        return null;
      }
    }

    /** The timer, then the connect; the object is closed if either is refused. */
    method Dial(t: Ctcp, node: Node, e: ConnectEnv) returns (ok: bool)
      requires Own() && Live(t)
      modifies this`live, this`deleted, t
      ensures Own() && (ok <==> e.timer && e.connect && node.address.Ip?) && (ok ==> Live(t))
      ensures t.id in old(View()).h.conns
      ensures var h := old(View()).h; var c := h.conns[t.id].(node := node);
        View() == old(View()).(h :=
          if !e.timer then CloseConn(SetConn(h, t.id, c), t.id)
          else if !e.connect || node.address.Invalid? then CloseConn(SetConn(h, t.id, c.(armed := true)), t.id)
          else SetConn(h, t.id, c.(armed := true, connectReq := true)))
    {
      InConns(t);
      hide CloseConn, Owns, Numbers, NumberSet, Look;
      ok := false;
      if !e.timer {
        Refuse(t, node, t.armed);
      } else if !e.connect || node.address.Invalid? {
        Refuse(t, node, true);
      } else {
        Prepare(t, node, true, t.reading, true);
        ok := true;
      }
    }

    method Refuse(t: Ctcp, node: Node, ghost armed: bool)
      requires Own() && Live(t)
      modifies this`live, this`deleted, t
      ensures Own() && t.id in old(View()).h.conns
      ensures var h := old(View()).h;
        View() == old(View()).(h := CloseConn(SetConn(h, t.id, h.conns[t.id].(node := node, armed := armed)), t.id))
    {
      InConns(t);
      hide CloseConn, Owns, Numbers, NumberSet, Look;
      Prepare(t, node, armed, t.reading, t.connectReq);
      CloseTcp(t);
    }

    method BindAndListenTcp(node: Node, e: BindEnv) returns (t: Ctcp?)
      requires Own()
      modifies this`made, this`live, this`deleted
      ensures Own() && Grown()
      ensures View() == old(View()).(h := Listen(old(View()).h, node, e).0)
      ensures Listen(old(View()).h, node, e).1 == if t == null then None else Some(t.id)
      ensures t != null ==> fresh(t) && Live(t)
    {
      hide CloseConn, Alloc, Owns, Numbers, NumberSet, Look;
      t := AllocTcp(false, e.alloc);
      if t == null {
        return null;
      }
      InConns(t);
      label newborn:
      t.node := node;
      t.server := true;
      Changed@newborn(t);
      if !e.bind || !e.listen {
        CloseTcp(t);
        return null;
      }
    }

    lemma StreamLive(node: Node)
      requires Own() && TablesLinked(View()) && node in stream
      ensures Live(stream[node])
    {
      InNumbers(stream, node);
      assert View().t.stream[node] in View().h.conns;
      InConns(stream[node]);
    }

    lemma ServerLive(node: Node)
      requires Own() && TablesLinked(View()) && node in servers
      ensures Live(servers[node])
    {
      InNumbers(servers, node);
      assert View().t.servers[node] in View().h.conns;
      InConns(servers[node]);
    }

    method Unbind(node: Node)
      requires Own() && node in servers && Live(servers[node])
      modifies this`servers, this`live, this`deleted, this`log, servers[node]
      ensures Own() && node in old(View()).t.servers && old(View()).t.servers[node] in old(View()).h.conns
      ensures View() == ReportBind(old(View()), node, false).(
        t := old(View()).t.(servers := old(View()).t.servers - {node}), h := CloseConn(old(View()).h, old(View()).t.servers[node]))
    {
      InNumbers(servers, node);
      InConns(servers[node]);
      hide CloseConn, Owns, Numbers, NumberSet, Look;
      var t := servers[node];
      EraseServer(node);
      BindStatus(node, false);
      CloseTcp(t);
    }

    method ListenAndFile(node: Node, e: BindEnv)
      requires Own()
      modifies this`servers, this`made, this`live, this`deleted, this`log
      ensures Own() && Grown()
      ensures var (h1, id) := Listen(old(View()).h, node, e);
        View() == ReportBind(FiledAs(old(View()).(h := h1), node, id), node, id.Some?)
    {
      hide Listen, Owns, Numbers, NumberSet, Look;
      var t := BindAndListenTcp(node, e);
      if t != null {
        FileServer(node, t);
      }
      BindStatus(node, t != null);
    }

    method HandleTcpBind(r: BindRequest, e: BindEnv)
      requires Own() && TablesLinked(View())
      modifies this`servers, this`made, this`live, this`deleted, this`log, made
      ensures Own() && Grown() && View() == BindTcp(old(View()), r, e)
    {
      InNumbers(servers, r.node);
      if r.node in servers { ServerLive(r.node); }
      hide CloseConn, Listen, Owns, Numbers, NumberSet, Look;
      if r.node in servers {
        if r.bind {
          BindStatus(r.node, true);
        } else {
          Unbind(r.node);
        }
      } else if r.bind {
        ListenAndFile(r.node, e);
      } else {
        BindStatus(r.node, false);
      }
    }

    method HandleUdpBind(r: BindRequest, e: BindEnv)
      modifies this`udpServers, this`log
      ensures View() == BindUdp(old(View()), r, e)
    {
      hide Numbers, NumberSet, Look;
      if r.node in udpServers {
        if !r.bind {
          udpServers := udpServers - {r.node};
        }
        BindStatus(r.node, r.bind);
      } else {
        if r.bind && e.udp {
          udpServers := udpServers + {r.node};
        }
        BindStatus(r.node, r.bind && e.udp);
      }
    }

    method HandleBind(r: BindRequest, e: BindEnv)
      requires Own() && TablesLinked(View())
      modifies this`servers, this`udpServers, this`made, this`live, this`deleted, this`log, made
      ensures Own() && Grown() && View() == BindOne(old(View()), r, e)
    {
      hide BindTcp, BindUdp, Owns, Numbers, NumberSet, Look;
      match r.node.protocol {
        case Tcp => HandleTcpBind(r, e);
        case Udp => HandleUdpBind(r, e);
        case Unknown => BindStatus(r.node, false);
      }
    }

    /** A TCP message for a node without a stream. */
    method HandleSendAway(m: Message, e: DeliverEnv)
      requires Own()
      modifies this`connecting, this`waiting, this`made, this`live, this`deleted, this`log
      ensures Own() && Grown() && View() == SendAway(old(View()), m, e)
    {
      hide Connect, Owns, Numbers, NumberSet, Look;
      // Check if any waiting data, start connect if no waiting.
      var needConnect := m.node !in waiting;
      if needConnect && !m.autoConnect {
        DropOne(m);
      } else {
        PushWaiting(m);
        if needConnect {
          var t := ConnectTcp(m.node, e.connect);
          if t == null {
            ConnectionStatus(m.node, false);
            DropWaiting(m.node);
          } else {
            InsertConnecting(t);
          }
        }
      }
    }

    method HandleTcpSend(m: Message, e: DeliverEnv)
      requires Own() && TablesLinked(View())
      modifies this`stream, this`connecting, this`waiting, this`made, this`live, this`deleted, this`writes, this`log, made
      ensures Own() && Grown()
      ensures View() == if m.node !in old(View()).t.stream then SendAway(old(View()), m, e)
                        else if !e.send.memory then Drop(old(View()), [m])
                        else SendOn(old(View()), old(View()).t.stream[m.node], [m], e.send)
    {
      InNumbers(stream, m.node);
      if m.node in stream { StreamLive(m.node); }
      hide SendOn, SendAway, Owns, Numbers, NumberSet, Look, TablesLinked, Drop;
      if m.node !in stream {
        HandleSendAway(m, e);
      } else if !e.send.memory {
        DropOne(m);
      } else {
        WriteOn(stream[m.node], [m], e.send);
      }
    }

    method HandleSend(m: Message, e: DeliverEnv)
      requires Own() && TablesLinked(View())
      modifies this`stream, this`connecting, this`waiting, this`made, this`live, this`deleted, this`writes, this`log, made
      ensures Own() && Grown() && View() == SendOne(old(View()), m, e)
    {
      hide SendOn, SendAway, Owns, Numbers, NumberSet, Look;
      match m.node.protocol {
        case Tcp => HandleTcpSend(m, e);
        case Udp => SendDatagram(m);
        case Unknown =>
          if m.autoConnect {
            ConnectionStatus(m.node, false);
          }
          DropOne(m);
      }
    }

    method SendDatagram(m: Message)
      modifies this`log
      ensures View() == old(View()).(log := old(log).(udp := old(log).udp + [m], freed := old(log).freed + [m]))
    {
      hide Look, Numbers, NumberSet;
      log := log.(udp := log.udp + [m], freed := log.freed + [m]);
    }

    method HandleClose(r: CloseRequest, e: CloseEnv)
      requires Own() && TablesLinked(View())
      modifies this`stream, this`waiting, this`live, this`deleted, this`log, made
      ensures Own() && View() == CloseOne(old(View()), r, e)
    {
      InNumbers(stream, r.node);
      if r.node in stream {
        var t := stream[r.node];
        StreamLive(r.node);
        InConns(t);
        hide Shutdown, Owns, Numbers, NumberSet, Look;
        // No force close means shutdown, and that is a kind of send.
        if !r.force && !e.timer {
          ShutdownTcpConnection(t, false, false, false);
        } else {
          if !r.force {
            StartTimer(t);
          }
          ShutdownTcpConnection(t, false, !r.force, !r.force && e.shutdown);
        }
      }
    }

    // -------------------------------------------------------------- callbacks

    method ResetTcpIdleTimeout(t: Ctcp, queueEmpty: bool, timer: bool)
      requires Own() && Live(t)
      modifies this`stream, this`waiting, this`live, this`deleted, this`log, t
      ensures Own() && View() == ResetIdle(old(View()), t.id, queueEmpty, timer)
    {
      InConns(t);
      hide Shutdown, Owns, Numbers, NumberSet, Look;
      if queueEmpty {
        if timer {
          StartTimer(t);
        } else {
          ShutdownTcpConnection(t, false, false, false);
        }
      }
    }

    method DoNewConnection(e: NewEnv)
      requires Own()
      modifies this`stream, this`waiting, this`made, this`live, this`deleted, this`writes, this`log
      ensures Own() && Grown() && View() == NewConnection(old(View()), e)
    {
      hide Accepted, CloseConn, Alloc, Owns, Numbers, NumberSet, Look;
      if !e.status {
        return;
      }
      var t := AllocTcp(true, e.alloc);
      if t == null {
        return;
      }
      InConns(t);
      if !e.accept || !e.peer {
        CloseTcp(t);
        return;
      }
      ServeAccepted(t, e);
    }

    /** The object is connected to its peer; it is closed again if anything fails. */
    method ServeAccepted(t: Ctcp, e: NewEnv)
      requires Own() && Live(t)
      modifies this`stream, this`waiting, this`live, this`deleted, this`writes, this`log, t
      ensures Own() && View() == Accepted(old(View()), t.id, e)
    {
      InConns(t);
      InNumbers(stream, Node(Tcp, e.address));
      hide Startup, CloseConn, Owns, Numbers, NumberSet, Look;
      var node := Node(Tcp, e.address);
      if node.address.Invalid? || node in stream || !e.timer {
        Prepare(t, node, t.armed, t.reading, t.connectReq);
        CloseTcp(t);
        return;
      }
      if !e.read {
        Prepare(t, node, true, t.reading, t.connectReq);
        CloseTcp(t);
        return;
      }
      Prepare(t, node, true, true, t.connectReq);
      StartupTcpConnection(t, e.send);
    }

    method DoConnectDone(t: Ctcp, e: DoneEnv)
      requires Own() && Live(t)
      modifies this`stream, this`connecting, this`waiting, this`live, this`deleted, this`writes, this`log, t
      ensures Own() && View() == ConnectDone(old(View()), t.id, e)
    {
      InConns(t);
      hide Connected, Shutdown, Owns, Numbers, NumberSet, Look;
      EraseConnecting(t);
      Prepare(t, t.node, t.armed, t.reading, false);
      if !e.status || t.closing || !e.timer {
        ShutdownTcpConnection(t, true, false, false);
        return;
      }
      ServeConnected(t, e);
    }

    method ServeConnected(t: Ctcp, e: DoneEnv)
      requires Own() && Live(t)
      modifies this`stream, this`waiting, this`live, this`deleted, this`writes, this`log, t
      ensures Own() && View() == Connected(old(View()), t.id, e)
    {
      InConns(t);
      hide Startup, Shutdown, Owns, Numbers, NumberSet, Look;
      if !e.read {
        Prepare(t, t.node, true, t.reading, t.connectReq);
        ShutdownTcpConnection(t, true, false, false);
        return;
      }
      Prepare(t, t.node, true, true, t.connectReq);
      StartupTcpConnection(t, e.send);
    }

    /** libuv's debt is paid, and the blocks will be freed on both ways out. */
    method TakeWrite(ghost k: nat, messages: seq<Message>)
      requires k < |writes|
      modifies this`writes, this`log
      ensures View() == old(View()).(
        h := WithoutWrite(old(View()).h, k), log := old(log).(freed := old(log).freed + messages))
    {
      hide Look, Numbers, NumberSet;
      writes := writes[..k] + writes[k + 1..];
      log := log.(freed := log.freed + messages);
    }

    method LogEnd(messages: seq<Message>, ok: bool)
      modifies this`log
      ensures View() == old(View()).(
        log := if ok then old(log).(written := old(log).written + messages) else old(log).(dropped := old(log).dropped + messages))
    {
      hide Look, Numbers, NumberSet;
      log := if ok then log.(written := log.written + messages) else log.(dropped := log.dropped + messages);
    }

    /** The request leads to the connection and carries the messages. */
    method DoTcpWriteDone(t: Ctcp, messages: seq<Message>, ghost k: nat, e: WriteEnv)
      requires Own() && Live(t) && k < |writes| && writes[k] == Write(t.id, messages)
      modifies this`stream, this`waiting, this`live, this`deleted, this`writes, this`log, t
      ensures Own() && k < |old(View()).h.writes| && t.id in old(View()).h.conns && View() == WriteDone(old(View()), k, e)
    {
      InConns(t);
      hide Shutdown, ResetIdle, Owns, Numbers, NumberSet, Look, WithoutWrite;
      WithoutKeeps(View().h, k);
      TakeWrite(k, messages);
      LogEnd(messages, e.status);
      if !e.status {
        ShutdownTcpConnection(t, false, false, false);
      } else if !t.closing && !t.shutdown {
        ResetTcpIdleTimeout(t, e.queueEmpty, e.timer);
      }
    }

    method DoTcpRead(t: Ctcp, got: ReadResult, queueEmpty: bool, timer: bool)
      requires Own() && Live(t)
      modifies this`stream, this`waiting, this`live, this`deleted, this`log, t
      ensures Own() && View() == Read(old(View()), t.id, got, queueEmpty, timer)
    {
      InConns(t);
      hide Shutdown, ResetIdle, Owns, Numbers, NumberSet, Look;
      if got.Data? {
        if !t.closing && !t.shutdown {
          ResetTcpIdleTimeout(t, queueEmpty, timer);
        }
      } else if got.Failed? {
        ShutdownTcpConnection(t, false, false, false);
      }
    }

    method DoTcpTimeout(t: Ctcp)
      requires Own() && Live(t)
      modifies this`stream, this`waiting, this`live, this`deleted, this`log, t
      ensures Own() && View() == Timeout(old(View()), t.id)
    {
      InConns(t);
      hide Shutdown, Owns, Numbers, NumberSet, Look;
      label fired:
      t.armed := false;
      Changed@fired(t);
      ShutdownTcpConnection(t, false, false, false);
    }

    method DoShutdownDone(t: Ctcp)
      requires Own() && Live(t)
      modifies this`live, this`deleted, t
      ensures Own() && View() == ShutdownDone(old(View()), t.id)
    {
      InConns(t);
      hide CloseConn, Owns, Numbers, NumberSet, Look;
      label answered:
      t.shutdownReq := false;
      Changed@answered(t);
      CloseTcp(t);
    }

    method DoTcpHandleClosed(t: Ctcp)
      requires Own() && Live(t)
      modifies this`live, this`deleted, t
      ensures Own() && View() == old(View()).(h := TcpClosed(old(View()).h, t.id))
    {
      InConns(t);
      hide Owns, Numbers, NumberSet, Look;
      ghost var h := View().h;
      label closed:
      t.tcpInited := false;
      Changed@closed(t);
      if !t.timerInited {
        DeleteSet(h, t.id, t.View());
        DeleteTcp(t);
      }
    }

    method DoTimerHandleClosed(t: Ctcp)
      requires Own() && Live(t)
      modifies this`live, this`deleted, t
      ensures Own() && View() == old(View()).(h := TimerClosed(old(View()).h, t.id))
    {
      InConns(t);
      hide Owns, Numbers, NumberSet, Look;
      ghost var h := View().h;
      label closed:
      t.timerInited := false;
      Changed@closed(t);
      if !t.tcpInited {
        DeleteSet(h, t.id, t.View());
        DeleteTcp(t);
      }
    }

    // ----------------------------------------------- callbacks, as libuv calls them

    method OnNewConnection(server: Ctcp, e: NewEnv)
      requires Valid() && Knows(made, server) && Enabled(View(), Event.OnNewConnection(server.id, e))
      modifies this`stream, this`waiting, this`made, this`live, this`deleted, this`writes, this`log
      ensures Valid() && Grown() && Steps(old(View()), Event.OnNewConnection(server.id, e), View())
    {
      hide Good, NewConnection, Linked, Enabled, Step, Owns, Numbers, NumberSet, Look;
      StepGood(View(), Event.OnNewConnection(server.id, e));
      CallbackIs(View(), Event.OnNewConnection(server.id, e));
      DoNewConnection(e);
    }

    method OnConnectDone(t: Ctcp, e: DoneEnv)
      requires Valid() && Knows(made, t) && Enabled(View(), Event.OnConnectDone(t.id, e))
      modifies this`stream, this`connecting, this`waiting, this`live, this`deleted, this`writes, this`log, t
      ensures Valid() && Steps(old(View()), Event.OnConnectDone(t.id, e), View())
    {
      hide Good, ConnectDone, Linked, Enabled, Step, Owns, Numbers, NumberSet, Look;
      StepGood(View(), Event.OnConnectDone(t.id, e));
      CallbackIs(View(), Event.OnConnectDone(t.id, e));
      InConns(t);
      DoConnectDone(t, e);
    }

    method OnTcpWriteDone(t: Ctcp, messages: seq<Message>, ghost k: nat, e: WriteEnv)
      requires Valid() && Knows(made, t) && Enabled(View(), OnWriteDone(k, e)) && k < |writes| && writes[k] == Write(t.id, messages)
      modifies this`stream, this`waiting, this`live, this`deleted, this`writes, this`log, t
      ensures Valid() && Steps(old(View()), OnWriteDone(k, e), View())
    {
      hide Good, WriteDone, Linked, Enabled, Step, Owns, Numbers, NumberSet, Look;
      StepGood(View(), OnWriteDone(k, e));
      CallbackIs(View(), OnWriteDone(k, e));
      InConns(t);
      DoTcpWriteDone(t, messages, k, e);
    }

    method OnTcpRead(t: Ctcp, got: ReadResult, queueEmpty: bool, timer: bool)
      requires Valid() && Knows(made, t) && Enabled(View(), OnRead(t.id, got, queueEmpty, timer))
      modifies this`stream, this`waiting, this`live, this`deleted, this`log, t
      ensures Valid() && Steps(old(View()), OnRead(t.id, got, queueEmpty, timer), View())
    {
      hide Good, Read, Linked, Enabled, Step, Owns, Numbers, NumberSet, Look;
      StepGood(View(), OnRead(t.id, got, queueEmpty, timer));
      CallbackIs(View(), OnRead(t.id, got, queueEmpty, timer));
      InConns(t);
      DoTcpRead(t, got, queueEmpty, timer);
    }

    method OnTcpTimeout(t: Ctcp)
      requires Valid() && Knows(made, t) && Enabled(View(), OnTimeout(t.id))
      modifies this`stream, this`waiting, this`live, this`deleted, this`log, t
      ensures Valid() && Steps(old(View()), OnTimeout(t.id), View())
    {
      hide Good, Timeout, Linked, Enabled, Step, Owns, Numbers, NumberSet, Look;
      StepGood(View(), OnTimeout(t.id));
      CallbackIs(View(), OnTimeout(t.id));
      InConns(t);
      DoTcpTimeout(t);
    }

    method OnShutdownDone(t: Ctcp)
      requires Valid() && Knows(made, t) && Enabled(View(), Event.OnShutdownDone(t.id))
      modifies this`live, this`deleted, t
      ensures Valid() && Steps(old(View()), Event.OnShutdownDone(t.id), View())
    {
      hide Good, ShutdownDone, Linked, Enabled, Step, Owns, Numbers, NumberSet, Look;
      StepGood(View(), Event.OnShutdownDone(t.id));
      CallbackIs(View(), Event.OnShutdownDone(t.id));
      InConns(t);
      DoShutdownDone(t);
    }

    method OnTcpHandleClosed(t: Ctcp)
      requires Valid() && Knows(made, t) && Enabled(View(), OnTcpClosed(t.id))
      modifies this`live, this`deleted, t
      ensures Valid() && Steps(old(View()), OnTcpClosed(t.id), View())
    {
      hide Good, TcpClosed, Linked, Enabled, Step, Owns, Numbers, NumberSet, Look;
      StepGood(View(), OnTcpClosed(t.id));
      CallbackIs(View(), OnTcpClosed(t.id));
      InConns(t);
      DoTcpHandleClosed(t);
    }

    method OnTimerHandleClosed(t: Ctcp)
      requires Valid() && Knows(made, t) && Enabled(View(), OnTimerClosed(t.id))
      modifies this`live, this`deleted, t
      ensures Valid() && Steps(old(View()), OnTimerClosed(t.id), View())
    {
      hide Good, TimerClosed, Linked, Enabled, Step, Owns, Numbers, NumberSet, Look;
      StepGood(View(), OnTimerClosed(t.id));
      CallbackIs(View(), OnTimerClosed(t.id));
      InConns(t);
      DoTimerHandleClosed(t);
    }

    // -------------------------------------------------------------------- exit

    lemma LiveKeys()
      requires Own()
      ensures View().h.conns.Keys == live
    {
    }

    /** Reports the names down, as unbound or as disconnected, and closes the objects,
        one after the other. */
    method CloseListed(names: seq<Node>, objects: seq<Ctcp>, unbind: bool)
      requires Own() && HeapInv(View().h) && |names| == |objects|
      requires forall i :: 0 <= i < |objects| ==> Live(objects[i])
      modifies this`live, this`deleted, this`log, objects
      ensures Own() && HeapInv(View().h) && live == old(live)
      ensures View() == SomeClosed(old(View()), names, NumberList(objects), unbind)
    {
      ghost var was := View();
      LiveKeys();
      hide HeapInv, CloseConn, Owns, Numbers, NumberSet, Look, SomeClosed;
      var i := 0;
      NoneClosed(was, unbind);
      assert objects[..0] == [] && names[..0] == [];
      while i < |objects|
        invariant 0 <= i <= |objects| && Own() && HeapInv(View().h) && live == old(live)
        invariant View() == SomeClosed(was, names[..i], NumberList(objects[..i]), unbind)
      {
        CloseNext(names, objects, i, unbind, was);
        i := i + 1;
      }
      assert names[..i] == names && objects[..i] == objects;
    }

    method CloseNext(names: seq<Node>, objects: seq<Ctcp>, i: nat, unbind: bool, ghost was: Pool)
      requires Own() && HeapInv(View().h) && HeapInv(was.h) && i < |names| == |objects| && Live(objects[i])
      requires objects[i].id in was.h.conns
      requires View() == SomeClosed(was, names[..i], NumberList(objects[..i]), unbind)
      modifies this`live, this`deleted, this`log, objects[i]
      ensures Own() && HeapInv(View().h) && live == old(live)
      ensures View() == SomeClosed(was, names[..i + 1], NumberList(objects[..i + 1]), unbind)
    {
      var t := objects[i];
      LiveKeys();
      OneMoreClosed(was, names[..i], NumberList(objects[..i]), names[i], t.id, unbind);
      assert names[..i + 1] == names[..i] + [names[i]];
      assert NumberList(objects[..i + 1]) == NumberList(objects[..i]) + [t.id];
      hide HeapInv, CloseConn, Owns, Numbers, NumberSet, Look, SomeClosed;
      CloseConnInv(View().h, t.id);
      CloseKeeps(View().h, t.id);
      if unbind {
        BindStatus(names[i], false);
      } else {
        ConnectionStatus(names[i], false);
      }
      CloseTcp(t);
      LiveKeys();
    }

    /** One `bindStatus` per name. */
    method ReportUnbound(names: seq<Node>)
      modifies this`log
      ensures View() == old(View()).(log := old(log).(bound := old(log).bound + AllDown(names)))
    {
      hide Numbers, NumberSet, Look;
      ghost var was := View();
      var i := 0;
      assert was.log.bound + AllDown([]) == was.log.bound;
      assert names[..0] == [];
      while i < |names|
        invariant 0 <= i <= |names| && View() == was.(log := was.log.(bound := was.log.bound + AllDown(names[..i])))
      {
        BindStatus(names[i], false);
        assert was.log.bound + AllDown(names[..i + 1]) == was.log.bound + AllDown(names[..i]) + [Status(names[i], false)];
        i := i + 1;
      }
      assert names[..i] == names;
    }

    /** Every message waiting for one of the nodes is dropped and freed. */
    method DropEach(nodes: seq<Node>)
      requires forall n :: n in nodes ==> n in waiting
      modifies this`log
      ensures View() == Drop(old(View()), WaitingFor(old(waiting), nodes))
    {
      hide Numbers, NumberSet, Look, WaitingFor;
      ghost var was := View();
      var i := 0;
      NothingWaits(was);
      assert nodes[..0] == [];
      while i < |nodes|
        invariant 0 <= i <= |nodes| && View() == Drop(was, WaitingFor(waiting, nodes[..i]))
      {
        DropMore(was, WaitingFor(waiting, nodes[..i]), waiting[nodes[i]]);
        WaitingSnoc(waiting, nodes[..i], nodes[i]);
        assert nodes[..i + 1] == nodes[..i] + [nodes[i]];
        DropAndFree(waiting[nodes[i]]);
        i := i + 1;
      }
      assert nodes[..i] == nodes;
    }

    /** Every listening server, then every datagram server. */
    method ExitServers(e: ExitEnv)
      requires Own() && HeapInv(View().h) && TablesLinked(View()) && Within(e.servers, servers.Keys)
      modifies this`servers, this`udpServers, this`live, this`deleted, this`log, made
      ensures Own() && HeapInv(View().h) && live == old(live)
      ensures Within(e.servers, old(View()).t.servers.Keys) && View() == NoServers(old(View()), e)
    {
      ghost var was := View();
      NumbersIn(servers, e.servers);
      EntriesNumbers(servers, e.servers);
      forall n | n in e.servers ensures Live(servers[n]) { ServerLive(n); }
      hide HeapInv, Owns, Numbers, NumberSet, Look, SomeClosed, TablesLinked, NoServers;
      var objects := Entries(servers, e.servers);
      ForgetServers();
      CloseListed(e.servers, objects, true);
      ForgetDatagramServers();
      ReportUnbound(e.udpServers);
      NoServersIs(was, e, View());
    }

    method ForgetServers()
      requires Own()
      modifies this`servers
      ensures Own() && View() == old(View()).(t := old(View()).t.(servers := map[]))
    {
      hide NumberSet, Look;
      servers := map[];
      assert Numbers(servers) == map[];
    }

    method ForgetDatagramServers()
      modifies this`udpServers
      ensures View() == old(View()).(t := old(View()).t.(udpServers := {}))
    {
      hide Numbers, NumberSet, Look;
      udpServers := {};
    }

    method ForgetConnections()
      requires Own()
      modifies this`stream, this`connecting
      ensures Own() && View() == old(View()).(t := old(View()).t.(stream := map[], connecting := {}))
    {
      hide Look;
      stream := map[];
      connecting := {};
      assert Numbers(stream) == map[] && NumberSet(connecting) == {};
    }

    /** Every established connection, then every connection attempt, under the nodes the
        objects say. */
    method ExitConnections(e: ExitEnv, dials: seq<Ctcp>)
      requires Own() && HeapInv(View().h) && NodesRight(View()) && Within(e.streams, stream.Keys)
      requires Walk(made, live, dials, e.dials)
      modifies this`stream, this`connecting, this`live, this`deleted, this`log, made
      ensures Own() && HeapInv(View().h) && live == old(live)
      ensures Within(e.streams, old(View()).t.stream.Keys) && View() == NoConnections(old(View()), e)
    {
      ghost var was := View();
      NumbersIn(stream, e.streams);
      var objects := Entries(stream, e.streams);
      EntriesHere(e.streams);
      NamesHere(dials);
      hide HeapInv, Owns, Numbers, NumberSet, Look, SomeClosed, NoConnections, NodesRight, Names, Entries, NumberList, NodesOf, AllDown, CloseAll;
      var names, dialed := Names(objects), Names(dials);
      ForgetConnections();
      CloseBoth(names, objects, dialed, dials);
      NoConnectionsIs(was, e, View());
    }

    method CloseBoth(names: seq<Node>, objects: seq<Ctcp>, dialed: seq<Node>, dials: seq<Ctcp>)
      requires Own() && HeapInv(View().h) && |names| == |objects| && |dialed| == |dials|
      requires forall i :: 0 <= i < |objects| ==> Live(objects[i])
      requires forall i :: 0 <= i < |dials| ==> Live(dials[i])
      modifies this`live, this`deleted, this`log, objects, dials
      ensures Own() && HeapInv(View().h) && live == old(live)
      ensures View() == SomeClosed(SomeClosed(old(View()), names, NumberList(objects), false), dialed, NumberList(dials), false)
    {
      hide HeapInv, Owns, Numbers, NumberSet, Look, SomeClosed, NumberList;
      CloseListed(names, objects, false);
      CloseListed(dialed, dials, false);
    }

    lemma EntriesHere(nodes: seq<Node>)
      requires Own() && NodesRight(View()) && forall n :: n in nodes ==> n in stream
      ensures var objects := Entries(stream, nodes);
        && (forall i :: 0 <= i < |objects| ==> Live(objects[i]))
        && (forall n :: n in nodes ==> n in View().t.stream)
        && NumberList(objects) == Ids(View().t.stream, nodes) && Names(objects) == nodes
    {
      LiveKeys();
      forall i | 0 <= i < |nodes| ensures Live(stream[nodes[i]]) && stream[nodes[i]].node == nodes[i] && nodes[i] in View().t.stream {
        InNumbers(stream, nodes[i]);
        InConns(stream[nodes[i]]);
      }
      NumbersIn(stream, nodes);
    }

    lemma NamesHere(objects: seq<Ctcp>)
      requires Own() && forall i :: 0 <= i < |objects| ==> Live(objects[i])
      ensures Names(objects) == NodesOf(View().h, NumberList(objects))
    {
      forall i | 0 <= i < |objects|
        ensures NumberList(objects)[i] in View().h.conns && View().h.conns[NumberList(objects)[i]].node == objects[i].node
      {
        InConns(objects[i]);
      }
    }

    /** What waits and what was taken over. */
    method ExitRequests(e: ExitEnv)
      requires Within(e.waits, waiting.Keys)
      modifies this`waiting, this`bindCopy, this`sendCopy, this`closeCopy, this`log
      ensures View() == NoRequests(old(View()), e)
    {
      hide Numbers, NumberSet, Look, WaitingFor, AllDown;
      ghost var was := View();
      DropEach(e.waits);
      waiting := map[];
      assert Requested(bindCopy) == RequestNodes(bindCopy);
      ReportUnbound(Requested(bindCopy));
      DropAndFree(sendCopy);
      EmptyCopies();
      NoRequestsIs(was, e, View());
    }

    method EmptyCopies()
      modifies this`bindCopy, this`sendCopy, this`closeCopy
      ensures View() == old(View()).(q := old(View()).q.(bindCopy := [], sendCopy := [], closeCopy := []))
    {
      hide Numbers, NumberSet, Look;
      bindCopy, sendCopy, closeCopy := [], [], [];
    }

    /** The wake-up handle goes first. */
    method CloseWakeup()
      modifies this`wakeup, this`awake, this`testing
      ensures View() == old(View()).(p := old(View()).p.(exited := true, awake := false, testing := false))
    {
      hide Numbers, NumberSet, Look;
      wakeup := false;
      awake, testing := false, false;
    }

    method ExitTables(e: ExitEnv, dials: seq<Ctcp>)
      requires Own() && HeapInv(View().h) && TablesLinked(View()) && NodesRight(View())
      requires Within(e.servers, servers.Keys) && Within(e.streams, stream.Keys)
      requires Walk(made, live, dials, e.dials)
      modifies this`servers, this`udpServers, this`stream, this`connecting, this`live, this`deleted, this`log, made
      ensures Own() && Within(e.servers, old(View()).t.servers.Keys)
      ensures Within(e.streams, NoServers(old(View()), e).t.stream.Keys)
      ensures View() == NoConnections(NoServers(old(View()), e), e)
    {
      ghost var gone := View();
      hide HeapInv, Within, Owns, Numbers, NumberSet, Look, NoServers, NoConnections, TablesLinked, NodesRight, Walk;
      ExitServers(e);
      ServersGone(gone, e);
      ExitConnections(e, dials);
    }

    /** Stops and frees everything. The order is the one in which the hash tables are
        walked. */
    method ExitBranch(e: ExitEnv, dials: seq<Ctcp>)
      requires Own() && Inv(View()) && ExitOrder(View().t, e)
      requires Walk(made, live, dials, e.dials)
      modifies this`wakeup, this`awake, this`testing, this`servers, this`udpServers, this`stream, this`connecting, this`waiting,
        this`bindCopy, this`sendCopy, this`closeCopy, this`live, this`deleted, this`log, made
      ensures Own() && ExitOrder(old(View()).t, e) && View() == Exit(old(View()), e)
    {
      ghost var was := View();
      ExitReady(e);
      hide Inv, HeapInv, ExitOrder, Exit, Owns, Numbers, NumberSet, Look, NoServers, NoConnections, NoRequests, TablesLinked, NodesRight, Walk, Within;
      ExitIs(was, e);
      CloseWakeup();
      ExitAll(e, dials);
    }

    method ExitAll(e: ExitEnv, dials: seq<Ctcp>)
      requires Own() && HeapInv(View().h) && TablesLinked(View()) && NodesRight(View())
      requires Within(e.servers, servers.Keys) && Within(e.streams, stream.Keys) && Within(e.waits, waiting.Keys)
      requires Walk(made, live, dials, e.dials)
      modifies this`servers, this`udpServers, this`stream, this`connecting, this`waiting,
        this`bindCopy, this`sendCopy, this`closeCopy, this`live, this`deleted, this`log, made
      ensures Own() && Within(e.servers, old(View()).t.servers.Keys)
      ensures Within(e.streams, NoServers(old(View()), e).t.stream.Keys)
      ensures View() == NoRequests(NoConnections(NoServers(old(View()), e), e), e)
    {
      hide HeapInv, Within, Owns, Numbers, NumberSet, Look, NoServers, NoConnections, NoRequests, TablesLinked, NodesRight, Walk;
      ExitTables(e, dials);
      ExitRequests(e);
    }

    /** Every entry the walk will meet is there. */
    lemma ExitReady(e: ExitEnv)
      requires Own() && Inv(View()) && ExitOrder(View().t, e)
      ensures HeapInv(View().h) && TablesLinked(View()) && NodesRight(View())
      ensures TablesLinked(View().(p := View().p.(exited := true, awake := false, testing := false)))
      ensures NodesRight(View().(p := View().p.(exited := true, awake := false, testing := false)))
      ensures Within(e.servers, servers.Keys) && Within(e.streams, stream.Keys) && Within(e.waits, waiting.Keys)
    {
      InvLinked(View());
      forall n | n in e.servers ensures n in servers { InNumbers(servers, n); }
      forall n | n in e.streams ensures n in stream { InNumbers(stream, n); }
    }

    // -------------------------------------------------------------- on_wakeup

    /** The lock region: the queues are taken over. */
    method TakeOverQueues()
      modifies this`bindCopy, this`sendCopy, this`closeCopy, this`pendingBind, this`pendingSend, this`pendingClose
      ensures View() == old(View()).(q := TakeOver(old(View()).q))
    {
      hide Numbers, NumberSet, Look;
      CopyQueues();
      ClearQueues();
    }

    method CopyQueues()
      modifies this`bindCopy, this`sendCopy, this`closeCopy
      ensures View() == old(View()).(q := old(View()).q.(
        bindCopy := old(pendingBind), sendCopy := old(pendingSend), closeCopy := old(pendingClose)))
    {
      hide Numbers, NumberSet, Look;
      bindCopy, sendCopy, closeCopy := pendingBind, pendingSend, pendingClose;
    }

    method ClearQueues()
      modifies this`pendingBind, this`pendingSend, this`pendingClose
      ensures View() == old(View()).(q := old(View()).q.(pendingBind := [], pendingSend := [], pendingClose := []))
    {
      hide Numbers, NumberSet, Look;
      pendingBind, pendingSend, pendingClose := [], [], [];
    }

    ghost method NoteTaken()
      modifies this`awake, this`testing, this`seen
      ensures View() == old(View()).(p := old(View()).p.(awake := true, testing := true, seen := |old(accepted)|))
    {
      hide Numbers, NumberSet, Look;
      awake, testing := true, true;
      seen := |accepted|;
    }

    method StartWakeup()
      requires Valid() && Enabled(View(), Wakeup)
      modifies this`bindCopy, this`sendCopy, this`closeCopy, this`pendingBind, this`pendingSend, this`pendingClose,
        this`awake, this`testing, this`seen
      ensures Valid() && Steps(old(View()), Wakeup, View())
    {
      hide Good, Linked, Enabled, Step, Owns, Numbers, NumberSet, Look, TakeOver;
      StepGood(View(), Wakeup);
      CallIs(View(), Wakeup);
      TakeOverQueues();
      NoteTaken();
    }

    /** The test of the exit flag, and the exit. */
    method TestFlag(order: ExitEnv, dials: seq<Ctcp>)
      requires Own() && Inv(View()) && (wantExit ==> ExitOrder(View().t, order)) && Walk(made, live, dials, order.dials)
      modifies this`wakeup, this`awake, this`testing, this`servers, this`udpServers, this`stream, this`connecting, this`waiting,
        this`bindCopy, this`sendCopy, this`closeCopy, this`live, this`deleted, this`log, made
      ensures Own() && (wantExit ==> ExitOrder(old(View()).t, order))
      ensures View() == if wantExit then Exit(old(View()), order) else old(View()).(p := old(View()).p.(testing := false))
    {
      hide Inv, Exit, ExitOrder, Owns, Numbers, NumberSet, Look, Walk;
      if wantExit {
        ExitBranch(order, dials);
      } else {
        testing := false;
      }
    }

    method ReadExitFlag(order: ExitEnv, dials: seq<Ctcp>)
      requires Valid() && Enabled(View(), ReadFlag(order))
      requires Walk(made, live, dials, order.dials)
      modifies this, made
      ensures Valid() && Steps(old(View()), ReadFlag(order), View()) && made == old(made)
    {
      hide Good, Inv, Steps, Enabled, Exit, ExitOrder, Owns, Numbers, NumberSet, Look, Walk;
      FlagTested(View(), order);
      TestFlag(order, dials);
    }

    method TurnOfBind(e: BindEnv)
      requires Valid() && Enabled(View(), TurnBind(e)) && bindCopy != []
      modifies this`bindCopy, this`servers, this`udpServers, this`made, this`live, this`deleted, this`log, made
      ensures Valid() && Grown() && Steps(old(View()), TurnBind(e), View()) && bindCopy == old(bindCopy)[1..]
    {
      hide Good, Linked, Enabled, Step, BindOne, TablesLinked, Owns, Numbers, NumberSet, Look;
      StepGood(View(), TurnBind(e));
      TurnIs(View(), TurnBind(e));
      var r := bindCopy[0];
      bindCopy := bindCopy[1..];
      HandleBind(r, e);
    }

    method TurnOfSend(e: DeliverEnv)
      requires Valid() && Enabled(View(), TurnSend(e)) && sendCopy != []
      modifies this`sendCopy, this`stream, this`connecting, this`waiting, this`made, this`live, this`deleted, this`writes, this`log, made
      ensures Valid() && Grown() && Steps(old(View()), TurnSend(e), View()) && sendCopy == old(sendCopy)[1..]
    {
      hide Good, Linked, Enabled, Step, SendOne, TablesLinked, Owns, Numbers, NumberSet, Look;
      StepGood(View(), TurnSend(e));
      TurnIs(View(), TurnSend(e));
      var m := sendCopy[0];
      sendCopy := sendCopy[1..];
      HandleSend(m, e);
    }

    method TurnOfClose(e: CloseEnv)
      requires Valid() && Enabled(View(), TurnClose(e)) && closeCopy != []
      modifies this`closeCopy, this`stream, this`waiting, this`live, this`deleted, this`log, made
      ensures Valid() && Steps(old(View()), TurnClose(e), View()) && closeCopy == old(closeCopy)[1..]
    {
      hide Good, Linked, Enabled, Step, CloseOne, TablesLinked, Owns, Numbers, NumberSet, Look;
      StepGood(View(), TurnClose(e));
      TurnIs(View(), TurnClose(e));
      var r := closeCopy[0];
      closeCopy := closeCopy[1..];
      HandleClose(r, e);
    }

    method FinishWakeup()
      requires Valid() && Enabled(View(), WakeupEnd)
      modifies this`awake
      ensures Valid() && !awake && Steps(old(View()), WakeupEnd, View())
    {
      hide Good, Linked, Enabled, Step, Owns, Numbers, NumberSet, Look;
      StepGood(View(), WakeupEnd);
      CallIs(View(), WakeupEnd);
      awake := false;
    }

    /** One call from another thread, if it is still allowed. */
    method Caller(call: Event) returns (ghost events: seq<Event>)
      requires Valid()
      modifies this`pendingBind, this`pendingSend, this`pendingClose, this`accepted, this`sent, this`wantExit, this`signalled
      ensures Valid() && (events == [] ==> View() == old(View()))
      ensures events != [] ==> |events| == 1 && Steps(old(View()), events[0], View())
    {
      hide Good, Linked, Enabled, Step, Steps, Owns, Numbers, NumberSet, Look;
      events := [];
      if !wantExit {
        match call {
          case CallBind(node, bind) =>
            Bind(node, bind);
            events := [call];
          case CallSend(node, length, autoConnect) =>
            Send(node, length, autoConnect);
            events := [call];
          case CallClose(node, force) =>
            Close(node, force);
            events := [call];
          case CallDestroy =>
            Destroy();
            events := [call];
          case _ =>
        }
      } else if call.CallSignal? && !signalled {
        var found := Signal();
        events := [call];
      }
    }

    /** What callers do while `on_wakeup` is between two of its regions. */
    method Callers(calls: seq<Event>, ghost start: Pool, ghost before: seq<Event>) returns (ghost events: seq<Event>)
      requires Valid() && Ran(start, before, View())
      modifies this`pendingBind, this`pendingSend, this`pendingClose, this`accepted, this`sent, this`wantExit, this`signalled
      ensures Valid() && Ran(start, events, View())
    {
      hide Good, Steps, Ran, Owns, Numbers, NumberSet, Look;
      events := before;
      var i := 0;
      while i < |calls|
        invariant i <= |calls| && Valid() && Ran(start, events, View())
      {
        ghost var was := View();
        ghost var done := Caller(calls[i]);
        if done != [] {
          RanSnoc(start, events, was, done[0], View());
          events := events + [done[0]];
        }
        i := i + 1;
      }
    }

    /** `on_wakeup`, with callers in its gaps: take the queues over, read the exit flag,
        then either exit or handle every request in order. The whole call is a run of the
        machine. */
    method OnWakeup(answers: Answers, order: ExitEnv, dials: seq<Ctcp>) returns (ghost events: seq<Event>)
      requires Valid() && Enabled(View(), Wakeup) && ExitOrder(View().t, order) && Walk(made, live, dials, order.dials)
      requires |answers.binds| == |pendingBind| && |answers.sends| == |pendingSend| && |answers.closes| == |pendingClose|
      modifies this, made
      ensures Valid() && !awake && bindCopy == [] && sendCopy == [] && closeCopy == []
      ensures Legal(old(View()), events) && View() == After(old(View()), events)
    {
      ghost var start := View();
      hide Good, Steps, Ran, Enabled, ExitOrder, Owns, Numbers, NumberSet, Look, Walk, Legal, After;
      events := TakeAndRead(answers, order, dials);
      if wakeup {
        events := HandleAll(answers, start, events);
      }
      RanIs(start, events, View());
    }

    /** Up to the test of the exit flag. */
    method Take(calls: seq<Event>) returns (ghost events: seq<Event>)
      requires Valid() && Enabled(View(), Wakeup)
      modifies this`bindCopy, this`sendCopy, this`closeCopy, this`pendingBind, this`pendingSend, this`pendingClose,
        this`awake, this`testing, this`seen, this`accepted, this`sent, this`wantExit, this`signalled
      ensures Valid() && Ran(old(View()), events, View())
      ensures awake && testing && wakeup
      ensures bindCopy == old(pendingBind) && sendCopy == old(pendingSend) && closeCopy == old(pendingClose)
    {
      ghost var start := View();
      hide Good, Steps, Ran, Enabled, Owns, Numbers, NumberSet, Look;
      RanStart(start);
      StartWakeup();
      AfterTaking(start, View());
      RanSnoc(start, [], start, Wakeup, View());
      events := Callers(calls, start, [] + [Wakeup]);
    }

    /** Also the test, and the exit if the flag is set. */
    method TakeAndRead(answers: Answers, order: ExitEnv, dials: seq<Ctcp>) returns (ghost events: seq<Event>)
      requires Valid() && Enabled(View(), Wakeup) && ExitOrder(View().t, order) && Walk(made, live, dials, order.dials)
      modifies this, made
      ensures Valid() && Ran(old(View()), events, View())
      ensures if wakeup then
          && Turning(View().p)
          && bindCopy == old(pendingBind) && sendCopy == old(pendingSend) && closeCopy == old(pendingClose)
        else !awake && bindCopy == [] && sendCopy == [] && closeCopy == []
      ensures made == old(made)
    {
      ghost var start := View();
      hide Good, Steps, Ran, Enabled, ExitOrder, Owns, Numbers, NumberSet, Look, Walk;
      events := Take(answers.gaps(0));
      ghost var was := View();
      FlagReadable(was, order);
      ReadExitFlag(order, dials);
      RanSnoc(start, events, was, ReadFlag(order), View());
      events := events + [ReadFlag(order)];
      AfterFlag(was, order, View());
    }

    method HandleAll(answers: Answers, ghost start: Pool, ghost before: seq<Event>) returns (ghost events: seq<Event>)
      requires Valid() && Turning(View().p) && Ran(start, before, View())
      requires |answers.binds| == |bindCopy| && |answers.sends| == |sendCopy| && |answers.closes| == |closeCopy|
      modifies this, made
      ensures Valid() && !awake && bindCopy == [] && sendCopy == [] && closeCopy == [] && Ran(start, events, View())
    {
      hide Good, Steps, Ran, Enabled, Owns, Numbers, NumberSet, Look;
      events := HandleBinds(answers, start, before);
      events := HandleSends(answers, start, events);
      events := HandleCloses(answers, start, events);
      ghost var was := View();
      LoopsDone(was);
      FinishWakeup();
      RanSnoc(start, events, was, WakeupEnd, View());
      events := events + [WakeupEnd];
    }

    method NextBind(e: BindEnv, calls: seq<Event>, ghost start: Pool, ghost before: seq<Event>) returns (ghost events: seq<Event>)
      requires Valid() && Turning(View().p) && bindCopy != [] && Ran(start, before, View())
      modifies this, made
      ensures Valid() && Grown() && Turning(View().p) && Ran(start, events, View())
      ensures bindCopy == old(bindCopy)[1..] && sendCopy == old(sendCopy) && closeCopy == old(closeCopy)
    {
      hide Good, Steps, Ran, Owns, Numbers, NumberSet, Look;
      ghost var was := View();
      TurnEnabled(was, TurnBind(e));
      TurnOfBind(e);
      StillTurning(was, TurnBind(e), View());
      RanSnoc(start, before, was, TurnBind(e), View());
      events := Callers(calls, start, before + [TurnBind(e)]);
    }

    method HandleBinds(answers: Answers, ghost start: Pool, ghost before: seq<Event>) returns (ghost events: seq<Event>)
      requires Valid() && Turning(View().p) && |answers.binds| == |bindCopy| && Ran(start, before, View())
      modifies this, made
      ensures Valid() && Grown() && Turning(View().p) && Ran(start, events, View())
      ensures bindCopy == [] && sendCopy == old(sendCopy) && closeCopy == old(closeCopy)
    {
      hide Good, Steps, Ran, Owns, Numbers, NumberSet, Look;
      events := before;
      var i := 0;
      while bindCopy != []
        invariant Valid() && Grown() && Turning(View().p) && i + |bindCopy| == |answers.binds| && Ran(start, events, View())
        invariant sendCopy == old(sendCopy) && closeCopy == old(closeCopy)
        decreases |bindCopy|
      {
        i := i + 1;
        events := NextBind(answers.binds[i - 1], answers.gaps(i), start, events);
      }
    }

    method NextSend(e: DeliverEnv, calls: seq<Event>, ghost start: Pool, ghost before: seq<Event>) returns (ghost events: seq<Event>)
      requires Valid() && Turning(View().p) && sendCopy != [] && bindCopy == [] && Ran(start, before, View())
      modifies this, made
      ensures Valid() && Grown() && Turning(View().p) && Ran(start, events, View())
      ensures sendCopy == old(sendCopy)[1..] && bindCopy == [] && closeCopy == old(closeCopy)
    {
      hide Good, Steps, Ran, Owns, Numbers, NumberSet, Look;
      ghost var was := View();
      TurnEnabled(was, TurnSend(e));
      TurnOfSend(e);
      StillTurning(was, TurnSend(e), View());
      RanSnoc(start, before, was, TurnSend(e), View());
      events := Callers(calls, start, before + [TurnSend(e)]);
    }

    method HandleSends(answers: Answers, ghost start: Pool, ghost before: seq<Event>) returns (ghost events: seq<Event>)
      requires Valid() && Turning(View().p) && bindCopy == [] && |answers.sends| == |sendCopy| && Ran(start, before, View())
      modifies this, made
      ensures Valid() && Grown() && Turning(View().p) && Ran(start, events, View())
      ensures bindCopy == [] && sendCopy == [] && closeCopy == old(closeCopy)
    {
      hide Good, Steps, Ran, Owns, Numbers, NumberSet, Look;
      events := before;
      var i := 0;
      while sendCopy != []
        invariant Valid() && Grown() && Turning(View().p) && i + |sendCopy| == |answers.sends| && Ran(start, events, View())
        invariant bindCopy == [] && closeCopy == old(closeCopy)
        decreases |sendCopy|
      {
        i := i + 1;
        events := NextSend(answers.sends[i - 1], answers.gaps(|answers.binds| + i), start, events);
      }
    }

    method NextClose(e: CloseEnv, calls: seq<Event>, ghost start: Pool, ghost before: seq<Event>) returns (ghost events: seq<Event>)
      requires Valid() && Turning(View().p) && closeCopy != [] && bindCopy == [] && sendCopy == [] && Ran(start, before, View())
      modifies this`closeCopy, this`stream, this`waiting, this`live, this`deleted, this`log, made,
        this`pendingBind, this`pendingSend, this`pendingClose, this`accepted, this`sent, this`wantExit, this`signalled
      ensures Valid() && Turning(View().p) && Ran(start, events, View())
      ensures closeCopy == old(closeCopy)[1..]
    {
      hide Good, Steps, Ran, Owns, Numbers, NumberSet, Look;
      ghost var was := View();
      TurnEnabled(was, TurnClose(e));
      TurnOfClose(e);
      StillTurning(was, TurnClose(e), View());
      RanSnoc(start, before, was, TurnClose(e), View());
      events := Callers(calls, start, before + [TurnClose(e)]);
    }

    method HandleCloses(answers: Answers, ghost start: Pool, ghost before: seq<Event>) returns (ghost events: seq<Event>)
      requires Valid() && Turning(View().p) && bindCopy == [] && sendCopy == [] && |answers.closes| == |closeCopy|
      requires Ran(start, before, View())
      modifies this`closeCopy, this`stream, this`waiting, this`live, this`deleted, this`log, made,
        this`pendingBind, this`pendingSend, this`pendingClose, this`accepted, this`sent, this`wantExit, this`signalled
      ensures Valid() && Turning(View().p) && Ran(start, events, View())
      ensures bindCopy == [] && sendCopy == [] && closeCopy == []
    {
      hide Good, Steps, Ran, Owns, Numbers, NumberSet, Look;
      events := before;
      var i := 0;
      while closeCopy != []
        invariant Valid() && Turning(View().p) && i + |closeCopy| == |answers.closes| && Ran(start, events, View())
        decreases |closeCopy|
      {
        i := i + 1;
        events := NextClose(answers.closes[i - 1], answers.gaps(|answers.binds| + |answers.sends| + i), start, events);
      }
    }
  }

  function FiledAs(s: Pool, node: Node, id: Option<nat>): Pool {
    if id.Some? then s.(t := s.t.(servers := s.t.servers[node := id.value])) else s
  }

  // ------------------------------------------------------------ runs so far

  /** `events` is a run from `start` to `s`. */
  ghost predicate Ran(start: Pool, events: seq<Event>, s: Pool) {
    Good(start) && Legal(start, events) && s == After(start, events)
  }

  lemma RanStart(s: Pool)
    requires Good(s)
    ensures Ran(s, [], s)
  {
  }

  lemma RanSnoc(start: Pool, events: seq<Event>, s: Pool, ev: Event, r: Pool)
    requires Ran(start, events, s) && Steps(s, ev, r)
    ensures Ran(start, events + [ev], r)
  {
    RunSnoc(start, events, ev);
  }

  lemma RanIs(start: Pool, events: seq<Event>, s: Pool)
    requires Ran(start, events, s)
    ensures Legal(start, events) && s == After(start, events)
  {
  }

  lemma AfterTaking(s: Pool, r: Pool)
    requires Steps(s, Wakeup, r)
    ensures r.p.awake && r.p.testing && r.p.exited == s.p.exited == false && r.t == s.t
    ensures r.q.bindCopy == s.q.pendingBind && r.q.sendCopy == s.q.pendingSend && r.q.closeCopy == s.q.pendingClose
  {
    CallIs(s, Wakeup);
  }

  lemma FlagReadable(s: Pool, order: ExitEnv)
    requires s.p.awake && s.p.testing && ExitOrder(s.t, order)
    ensures Enabled(s, ReadFlag(order))
  {
  }

  /** What the test of the flag leads to. */
  lemma FlagTested(s: Pool, order: ExitEnv)
    requires Good(s) && Enabled(s, ReadFlag(order))
    ensures Inv(s) && (s.p.wantExit ==> ExitOrder(s.t, order))
    ensures var r := if s.p.wantExit then Exit(s, order) else s.(p := s.p.(testing := false));
      Good(r) && Steps(s, ReadFlag(order), r) && |r.q.accepted| == |s.q.accepted|
  {
    StepGood(s, ReadFlag(order));
    CallIs(s, ReadFlag(order));
    hide Inv, CloseAll, Ids;
  }

  lemma AfterFlag(s: Pool, order: ExitEnv, r: Pool)
    requires Steps(s, ReadFlag(order), r) && s.p.awake && !s.p.exited && Good(s)
    ensures r.p.exited ==> !r.p.awake && r.q.bindCopy == [] && r.q.sendCopy == [] && r.q.closeCopy == []
    ensures !r.p.exited ==> Turning(r.p) && r.q == s.q
  {
    CallIs(s, ReadFlag(order));
    StepGood(s, ReadFlag(order));
    GoodCopies(r);
    hide Good, Exit;
    if s.p.wantExit { ExitPhase(s, order); }
  }

  lemma TurnEnabled(s: Pool, ev: Event)
    requires Turning(s.p)
    requires ev.TurnBind? || ev.TurnSend? || ev.TurnClose?
    requires ev.TurnBind? ==> s.q.bindCopy != []
    requires ev.TurnSend? ==> s.q.bindCopy == [] && s.q.sendCopy != []
    requires ev.TurnClose? ==> s.q.bindCopy == [] && s.q.sendCopy == [] && s.q.closeCopy != []
    ensures Enabled(s, ev)
  {
  }

  lemma StillTurning(s: Pool, ev: Event, r: Pool)
    requires Steps(s, ev, r) && Turning(s.p) && (ev.TurnBind? || ev.TurnSend? || ev.TurnClose?)
    ensures Turning(r.p)
  {
    TurnQueues(s, ev);
  }

  lemma LoopsDone(s: Pool)
    requires Turning(s.p) && s.q.bindCopy == [] && s.q.sendCopy == [] && s.q.closeCopy == []
    ensures Enabled(s, WakeupEnd)
  {
  }

  // --------------------------------------------------- the exit, piece by piece

  function SomeClosed(was: Pool, names: seq<Node>, ids: seq<nat>, unbind: bool): Pool {
    was.(h := CloseAll(was.h, ids),
         log := if unbind then was.log.(bound := was.log.bound + AllDown(names))
                else was.log.(status := was.log.status + AllDown(names)))
  }

  lemma NoneClosed(was: Pool, unbind: bool)
    ensures NumberList([]) == [] && SomeClosed(was, [], [], unbind) == was
  {
    assert AllDown([]) == [] && was.log.bound + [] == was.log.bound && was.log.status + [] == was.log.status;
  }

  lemma {:induction false} CloseAllSnoc(h: Heap, ids: seq<nat>, id: nat)
    requires HeapInv(h) && id in h.conns
    ensures id in CloseAll(h, ids).conns && CloseAll(h, ids + [id]) == CloseConn(CloseAll(h, ids), id)
    decreases |ids|
  {
    hide HeapInv, CloseConn;
    if ids == [] {
      assert [] + [id] == [id] && [id][1..] == [];
      assert CloseAll(CloseConn(h, id), []) == CloseConn(h, id);
    } else {
      var h1 := if ids[0] in h.conns then CloseConn(h, ids[0]) else h;
      if ids[0] in h.conns { CloseConnInv(h, ids[0]); CloseKeeps(h, ids[0]); }
      CloseAllSnoc(h1, ids[1..], id);
      assert (ids + [id])[1..] == ids[1..] + [id] && (ids + [id])[0] == ids[0];
    }
  }

  lemma CloseKeeps(h: Heap, id: nat)
    requires HeapInv(h) && id in h.conns
    ensures CloseConn(h, id).conns.Keys == h.conns.Keys
  {
    hide HeapInv, CloseConn;
    CloseConnInv(h, id);
  }

  lemma OneMoreClosed(was: Pool, names: seq<Node>, ids: seq<nat>, name: Node, id: nat, unbind: bool)
    requires HeapInv(was.h) && id in was.h.conns
    ensures var s := SomeClosed(was, names, ids, unbind);
      && id in s.h.conns
      && (if unbind then ReportBind(s, name, false) else Report(s, name, false)).(h := CloseConn(s.h, id))
         == SomeClosed(was, names + [name], ids + [id], unbind)
  {
    hide HeapInv, CloseConn, CloseAll;
    CloseAllSnoc(was.h, ids, id);
    assert AllDown(names + [name]) == AllDown(names) + [Status(name, false)];
    assert was.log.bound + AllDown(names) + [Status(name, false)] == was.log.bound + AllDown(names + [name]);
    assert was.log.status + AllDown(names) + [Status(name, false)] == was.log.status + AllDown(names + [name]);
  }

  lemma NumbersIn(table: map<Node, Ctcp>, nodes: seq<Node>)
    requires forall n :: n in nodes ==> n in table
    ensures forall n :: n in nodes ==> n in Numbers(table) && Numbers(table)[n] == table[n].id
  {
  }

  lemma EntriesNumbers(table: map<Node, Ctcp>, nodes: seq<Node>)
    requires forall n :: n in nodes ==> n in table
    ensures forall n :: n in nodes ==> n in Numbers(table)
    ensures NumberList(Entries(table, nodes)) == Ids(Numbers(table), nodes)
  {
  }

  lemma NothingWaits(was: Pool)
    ensures Drop(was, WaitingFor(was.t.waiting, [])) == was
  {
    assert was.log.dropped + [] == was.log.dropped && was.log.freed + [] == was.log.freed;
  }

  lemma DropMore(was: Pool, a: seq<Message>, b: seq<Message>)
    ensures Drop(Drop(was, a), b) == Drop(was, a + b)
  {
    assert was.log.dropped + a + b == was.log.dropped + (a + b);
    assert was.log.freed + a + b == was.log.freed + (a + b);
  }

  lemma {:induction false} WaitingSnoc(waiting: map<Node, seq<Message>>, nodes: seq<Node>, n: Node)
    requires n in waiting
    ensures WaitingFor(waiting, nodes + [n]) == WaitingFor(waiting, nodes) + waiting[n]
    decreases |nodes|
  {
    if nodes == [] {
      assert [] + [n] == [n] && [n][1..] == [];
      assert WaitingFor(waiting, [n]) == waiting[n] + WaitingFor(waiting, []);
    } else {
      WaitingSnoc(waiting, nodes[1..], n);
      assert (nodes + [n])[1..] == nodes[1..] + [n] && (nodes + [n])[0] == nodes[0];
    }
  }

  ghost function NoServers(s: Pool, e: ExitEnv): Pool
    requires Within(e.servers, s.t.servers.Keys)
  {
    s.(t := s.t.(servers := map[], udpServers := {}),
       h := CloseAll(s.h, Ids(s.t.servers, e.servers)),
       log := s.log.(bound := s.log.bound + AllDown(e.servers) + AllDown(e.udpServers)))
  }

  lemma ServersGone(s: Pool, e: ExitEnv)
    requires HeapInv(s.h) && NodesRight(s) && Within(e.servers, s.t.servers.Keys)
    ensures NodesRight(NoServers(s, e)) && NoServers(s, e).t.waiting == s.t.waiting && NoServers(s, e).t.stream == s.t.stream
  {
    hide HeapInv, CloseAll, AllDown;
    CloseAllIs(s.h, Ids(s.t.servers, e.servers));
  }

  lemma NoServersIs(s: Pool, e: ExitEnv, r: Pool)
    requires Within(e.servers, s.t.servers.Keys)
    requires r.p == s.p && r.q == s.q && r.t == s.t.(servers := map[], udpServers := {})
    requires var mid := SomeClosed(s.(t := s.t.(servers := map[])), e.servers, Ids(s.t.servers, e.servers), true);
      r.h == mid.h && r.log == mid.log.(bound := mid.log.bound + AllDown(e.udpServers))
    ensures r == NoServers(s, e)
  {
    hide CloseAll, AllDown, Ids;
  }

  ghost function NoConnections(s: Pool, e: ExitEnv): Pool
    requires Within(e.streams, s.t.stream.Keys)
  {
    s.(t := s.t.(stream := map[], connecting := {}),
       h := CloseAll(CloseAll(s.h, Ids(s.t.stream, e.streams)), e.dials),
       log := s.log.(status := s.log.status + AllDown(e.streams) + AllDown(NodesOf(s.h, e.dials))))
  }

  lemma NoConnectionsIs(s: Pool, e: ExitEnv, r: Pool)
    requires Within(e.streams, s.t.stream.Keys)
    requires var mid := SomeClosed(s.(t := s.t.(stream := map[], connecting := {})), e.streams, Ids(s.t.stream, e.streams), false);
      r == SomeClosed(mid, NodesOf(s.h, e.dials), e.dials, false)
    ensures r == NoConnections(s, e)
  {
    hide CloseAll, AllDown, Ids, NodesOf;
  }

  ghost function NoRequests(s: Pool, e: ExitEnv): Pool {
    var lost := WaitingFor(s.t.waiting, e.waits) + s.q.sendCopy;
    s.(t := s.t.(waiting := map[]), q := s.q.(bindCopy := [], sendCopy := [], closeCopy := []),
       log := s.log.(bound := s.log.bound + AllDown(RequestNodes(s.q.bindCopy)),
                     dropped := s.log.dropped + lost, freed := s.log.freed + lost))
  }

  lemma NoRequestsIs(s: Pool, e: ExitEnv, r: Pool)
    requires var a := Drop(s, WaitingFor(s.t.waiting, e.waits)).(t := s.t.(waiting := map[]));
      var b := Drop(a.(log := a.log.(bound := a.log.bound + AllDown(RequestNodes(s.q.bindCopy)))), s.q.sendCopy);
      r == b.(q := b.q.(bindCopy := [], sendCopy := [], closeCopy := []))
    ensures r == NoRequests(s, e)
  {
    hide WaitingFor, AllDown, RequestNodes;
    DropMore(s, WaitingFor(s.t.waiting, e.waits), s.q.sendCopy);
  }

  /** Closing leaves the nodes of the objects alone. */
  lemma NodesKept(h: Heap, ids: seq<nat>, others: seq<nat>)
    requires HeapInv(h)
    ensures NodesOf(CloseAll(h, ids), others) == NodesOf(h, others)
  {
    hide HeapInv, CloseAll;
    CloseAllIs(h, ids);
  }

  lemma ExitIs(s: Pool, e: ExitEnv)
    requires HeapInv(s.h) && ExitOrder(s.t, e)
    ensures var gone := s.(p := s.p.(exited := true, awake := false, testing := false));
      NoRequests(NoConnections(NoServers(gone, e), e), e) == Exit(s, e)
  {
    NodesKept(s.h, Ids(s.t.servers, e.servers), e.dials);
    hide HeapInv, CloseAll, AllDown, NodesOf, RequestNodes, WaitingFor, Ids;
    var a, b, c := AllDown(e.servers), AllDown(e.udpServers), AllDown(RequestNodes(s.q.bindCopy));
    assert s.log.bound + a + b + c == s.log.bound + (a + b + c);
    var x, y := AllDown(e.streams), AllDown(NodesOf(s.h, e.dials));
    assert s.log.status + x + y == s.log.status + (x + y);
  }

  lemma DeleteSet(h: Heap, id: nat, c: Conn)
    ensures Delete(SetConn(h, id, c), id) == Delete(h, id)
  {
    assert SetConn(h, id, c).conns - {id} == h.conns - {id};
  }

  lemma WithoutKeeps(h: Heap, k: nat)
    requires k < |h.writes|
    ensures WithoutWrite(h, k).conns == h.conns
  {
  }
}
