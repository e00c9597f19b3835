/** Every open stream is being read, in every run; so a stream outside the table can keep
    its timer running for ever after the exit, and this is exactly when the callbacks
    after the exit do not run out. */
module PoolReading {
  import opened Common
  import opened PoolModel
  import opened PoolHeap
  import opened PoolTables
  import opened PoolSteps
  import opened PoolFlow
  import opened PoolRuns
  import opened PoolTheorems
  import opened PoolStray
  import opened PoolExit
  import PoolDelivery

  ghost predicate ReadBut(h: Heap, but: Option<nat>) {
    forall id :: id in h.conns && Some(id) != but && Streaming(h.conns[id]) ==> h.conns[id].reading
  }

  /** Every open object past its connect is being read. */
  ghost predicate AllRead(h: Heap) {
    ReadBut(h, None)
  }

  // -------------------------------------------------------------- operations

  lemma SetRead(h: Heap, id: nat, c: Conn)
    requires ReadBut(h, Some(id)) && (Streaming(c) ==> c.reading)
    ensures AllRead(SetConn(h, id, c))
  {
  }

  lemma SetSame(h: Heap, id: nat, c: Conn)
    requires AllRead(h) && id in h.conns && (Streaming(c) ==> c.reading)
    ensures AllRead(SetConn(h, id, c))
  {
  }

  /** Closing or shutting down an object. */
  lemma GoneRead(h: Heap, id: nat, graceful: bool, ok: bool)
    requires HeapInv(h) && id in h.conns && ReadBut(h, Some(id))
    ensures AllRead(if graceful then ShutdownConn(h, id, ok) else CloseConn(h, id))
  {
    GoneQuiet(h, id, graceful, ok);
    hide HeapInv, CloseConn, ShutdownConn;
  }

  lemma ShutdownRead(s: Pool, id: nat, always: bool, graceful: bool, ok: bool)
    requires HeapInv(s.h) && id in s.h.conns && ReadBut(s.h, Some(id))
    ensures AllRead(Shutdown(s, id, always, graceful, ok).h)
  {
    hide HeapInv, CloseConn, ShutdownConn, Shutdown, AllRead, ReadBut;
    GoneRead(s.h, id, graceful, ok);
    ShutdownIs(s, id, always, graceful, ok);
  }

  lemma SendOnRead(s: Pool, id: nat, messages: seq<Message>, e: SendEnv)
    requires HeapInv(s.h) && AllRead(s.h) && id in s.h.conns
    ensures AllRead(SendOn(s, id, messages, e).h)
  {
    hide HeapInv, Shutdown;
    ShutdownRead(Drop(s, messages), id, false, false, false);
  }

  lemma StartupRead(s: Pool, id: nat, e: SendEnv)
    requires HeapInv(s.h) && AllRead(s.h) && id in s.h.conns
    ensures AllRead(Startup(s, id, e).h)
  {
    hide HeapInv, CloseConn, SendOn, Startup;
    var node := s.h.conns[id].node;
    if node.address.Invalid? || node in s.t.stream {
      GoneRead(s.h, id, false, false);
      StartupCloses(s, id, e);
    } else {
      var up := Risen(s, id);
      StartupIs(s, id, e);
      if node in s.t.waiting { SendOnRead(up, id, s.t.waiting[node], e); }
    }
  }

  /** A heap with at most one new object, which is no open stream. */
  lemma GrownRead(h: Heap, g: Heap)
    requires AllRead(h) && Grown(h, g) && (h.next in g.conns && h.next !in h.conns ==> !Streaming(g.conns[h.next]))
    ensures AllRead(g)
  {
  }

  lemma BornRead(h: Heap, c: Conn)
    requires AllRead(h) && (Streaming(c) ==> c.reading)
    ensures AllRead(SetConn(h.(next := h.next + 1), h.next, c))
  {
  }

  lemma BindOneRead(s: Pool, r: BindRequest, e: BindEnv)
    requires Inv(s) && Linked(s) && AllRead(s.h)
    ensures AllRead(BindOne(s, r, e).h)
  {
    hide HeapInv, TablesInv, StatusOk, BoundOk, Alternates, Listen, CloseConn, AllRead;
    NextIsNew(s.h);
    ListenIs(s.h, r.node, e);
    var (g, made) := Listen(s.h, r.node, e);
    if made.None? {
      GrownRead(s.h, g);
    } else {
      BornRead(s.h, NewConn(false, r.node).(server := true));
    }
    if r.node in s.t.servers { ClosedRead(s.h, s.t.servers[r.node]); }
  }

  lemma ClosedRead(h: Heap, id: nat)
    requires HeapInv(h) && id in h.conns && AllRead(h)
    ensures AllRead(CloseConn(h, id))
  {
    hide HeapInv, CloseConn;
    GoneRead(h, id, false, false);
  }

  lemma SendAwayRead(s: Pool, m: Message, e: DeliverEnv)
    requires Inv(s) && AllRead(s.h)
    ensures AllRead(SendAway(s, m, e).h)
  {
    hide HeapInv, TablesInv, StatusOk, BoundOk, Alternates, Connect, AllRead;
    NextIsNew(s.h);
    ConnectIs(s.h, m.node, e.connect);
    var (g, made) := Connect(s.h, m.node, e.connect);
    if made.None? {
      GrownRead(s.h, g);
    } else {
      BornRead(s.h, NewConn(true, m.node).(armed := true, connectReq := true));
    }
  }

  lemma SendOneRead(s: Pool, m: Message, e: DeliverEnv)
    requires Inv(s) && Linked(s) && AllRead(s.h)
    ensures AllRead(SendOne(s, m, e).h)
  {
    hide HeapInv, SendAway, SendOn, TablesInv, StatusOk, BoundOk, Alternates, AllRead;
    if m.node !in s.t.stream {
      SendAwayRead(s, m, e);
    } else {
      SendOnRead(s, s.t.stream[m.node], [m], e.send);
    }
  }

  lemma CloseOneRead(s: Pool, r: CloseRequest, e: CloseEnv)
    requires Inv(s) && Linked(s) && AllRead(s.h)
    ensures AllRead(CloseOne(s, r, e).h)
  {
    hide HeapInv, Shutdown, StatusOk, BoundOk, Alternates;
    if r.node in s.t.stream {
      StreamFacts(s, r.node);
      var id := s.t.stream[r.node];
      ArmInv(s, id);
      ShutdownRead(s, id, false, false, false);
      ShutdownRead(s.(h := SetConn(s.h, id, s.h.conns[id].(armed := true))), id, false, true, e.shutdown);
    }
  }

  lemma ExitRead(s: Pool, e: ExitEnv)
    requires Inv(s) && ExitOrder(s.t, e) && AllRead(s.h)
    ensures AllRead(Exit(s, e).h)
  {
    hide TablesInv, StatusOk, BoundOk, Alternates, CloseAll;
    var h1 := CloseAll(s.h, Ids(s.t.servers, e.servers));
    var h2 := CloseAll(h1, Ids(s.t.stream, e.streams));
    CloseAllIs(s.h, Ids(s.t.servers, e.servers));
    CloseAllIs(h1, Ids(s.t.stream, e.streams));
    CloseAllIs(h2, e.dials);
    hide HeapInv;
  }

  lemma NewConnectionRead(s: Pool, e: NewEnv)
    requires Inv(s) && AllRead(s.h)
    ensures AllRead(NewConnection(s, e).h)
  {
    hide HeapInv, TablesInv, StatusOk, BoundOk, Alternates, CloseConn, Alloc, Startup, Closed, AllRead;
    NextIsNew(s.h);
    AllocInv(s.h, true, e.alloc);
    var (h1, made) := Alloc(s.h, true, e.alloc);
    if made.None? {
      GrownRead(s.h, h1);
    } else {
      var id, born := s.h.next, s.h.(next := s.h.next + 1);
      var blank, c := NewConn(true, NO_NODE), NewConn(true, Node(Tcp, e.address));
      SetTwice(born, id, blank, c);
      SetTwice(born, id, blank, c.(armed := true));
      SetTwice(born, id, blank, c.(armed := true, reading := true));
      ClosedFreshRead(s.h, blank);
      ClosedFreshRead(s.h, c);
      ClosedFreshRead(s.h, c.(armed := true));
      AcceptedRead(s, c.(armed := true, reading := true), e.send);
    }
  }

  lemma ClosedFreshRead(h: Heap, c: Conn)
    requires HeapInv(h) && AllRead(h) && c == NewConn(true, c.node).(armed := c.armed)
    ensures AllRead(CloseConn(SetConn(h.(next := h.next + 1), h.next, c), h.next))
  {
    hide HeapInv, CloseConn, Closed, AllRead;
    NextIsNew(h);
    CloseFresh(h, c);
    GrownRead(h, CloseConn(SetConn(h.(next := h.next + 1), h.next, c), h.next));
  }

  lemma AcceptedRead(s: Pool, c: Conn, e: SendEnv)
    requires Inv(s) && AllRead(s.h) && c == NewConn(true, Node(Tcp, c.node.address)).(armed := true, reading := true)
    ensures AllRead(Startup(s.(h := SetConn(s.h.(next := s.h.next + 1), s.h.next, c)), s.h.next, e).h)
  {
    hide HeapInv, StatusOk, BoundOk, Alternates, Startup, AllRead;
    AcceptedInv(s, c);
    BornRead(s.h, c);
    StartupRead(s.(h := SetConn(s.h.(next := s.h.next + 1), s.h.next, c)), s.h.next, e);
  }

  // -------------------------------------------------------------- callbacks

  lemma ConnectDoneRead(s: Pool, id: nat, e: DoneEnv)
    requires Inv(s) && AllRead(s.h) && id in s.h.conns && s.h.conns[id].connectReq
    ensures AllRead(ConnectDone(s, id, e).h)
  {
    hide TablesInv, StatusOk, BoundOk, Alternates, Shutdown, Startup, HeapInv;
    DialFacts(s, id);
    var c := s.h.conns[id].(connectReq := false);
    var s1 := s.(t := s.t.(connecting := s.t.connecting - {id}), h := SetConn(s.h, id, c));
    DialHeap(s, id, c);
    if !e.status || c.closing || !e.timer {
      ShutdownRead(s1, id, true, false, false);
    } else {
      var d := if e.read then c.(armed := true, reading := true) else c.(armed := true);
      SetTwice(s.h, id, c, d);
      OpenFacts(s.h.conns[id], d);
      SetConnInv(s.h, id, d);
      if e.read {
        SetSame(s.h, id, d);
        StartupRead(s1.(h := SetConn(s.h, id, d)), id, e.send);
      } else {
        ShutdownRead(s1.(h := SetConn(s.h, id, d)), id, true, false, false);
      }
    }
  }

  lemma ResetIdleRead(s: Pool, id: nat, queueEmpty: bool, timer: bool)
    requires HeapInv(s.h) && AllRead(s.h) && id in s.h.conns
    ensures AllRead(ResetIdle(s, id, queueEmpty, timer).h)
  {
    hide HeapInv, Shutdown;
    ShutdownRead(s, id, false, false, false);
  }

  lemma WriteDoneRead(s: Pool, k: nat, e: WriteEnv)
    requires HeapInv(s.h) && AllRead(s.h) && k < |s.h.writes| && s.h.writes[k].conn in s.h.conns
    ensures AllRead(WriteDone(s, k, e).h)
  {
    hide HeapInv, Shutdown, ResetIdle;
    WithoutWriteInv(s.h, k);
    var w := s.h.writes[k];
    var s1 := s.(h := WithoutWrite(s.h, k), log := s.log.(freed := s.log.freed + w.messages));
    ShutdownRead(s1.(log := s1.log.(dropped := s1.log.dropped + w.messages)), w.conn, false, false, false);
    ResetIdleRead(s1.(log := s1.log.(written := s1.log.written + w.messages)), w.conn, e.queueEmpty, e.timer);
  }

  lemma ReadRead(s: Pool, id: nat, got: ReadResult, queueEmpty: bool, timer: bool)
    requires HeapInv(s.h) && AllRead(s.h) && id in s.h.conns
    ensures AllRead(Read(s, id, got, queueEmpty, timer).h)
  {
    hide HeapInv, Shutdown, ResetIdle;
    ShutdownRead(s, id, false, false, false);
    ResetIdleRead(s, id, queueEmpty, timer);
  }

  lemma TimeoutRead(s: Pool, id: nat)
    requires Inv(s) && AllRead(s.h) && id in s.h.conns && s.h.conns[id].armed
    ensures AllRead(Timeout(s, id).h)
  {
    assert ConnOk(s.h.conns[id]);
    hide HeapInv, TablesInv, StatusOk, BoundOk, Alternates, Shutdown, Timeout;
    TimeoutIs(s, id);
    ShutdownRead(s, id, false, false, false);
  }

  lemma OutgoingRead(s: Pool, ev: Event)
    requires Inv(s) && Linked(s) && AllRead(s.h) && Enabled(s, ev) && (ev.OnShutdownDone? || ev.OnTcpClosed? || ev.OnTimerClosed?)
    ensures AllRead(Step(s, ev).h)
  {
    hide TablesInv, StatusOk, BoundOk, Alternates, WritesOk, DeletedOk, NoWrites;
    match ev
    case OnShutdownDone(id) => assert ConnOk(s.h.conns[id]);
    case OnTcpClosed(id) => assert ConnOk(s.h.conns[id]);
    case OnTimerClosed(id) => assert ConnOk(s.h.conns[id]);
  }

  lemma StepRead(s: Pool, ev: Event)
    requires Good(s) && Linked(s) && Enabled(s, ev) && AllRead(s.h)
    ensures AllRead(Step(s, ev).h)
  {
    hide HeapInv, TablesInv, StatusOk, BoundOk, Alternates, FlowInv, AllRead, BindOne, SendOne, CloseOne, NewConnection, ConnectDone, WriteDone, Read, Timeout, Exit;
    match ev
    case ReadFlag(order) => if s.p.wantExit { ExitRead(s, order); }
    case TurnBind(e) => BindOneRead(s.(q := s.q.(bindCopy := s.q.bindCopy[1..])), s.q.bindCopy[0], e);
    case TurnSend(e) => SendOneRead(s.(q := s.q.(sendCopy := s.q.sendCopy[1..])), s.q.sendCopy[0], e);
    case TurnClose(e) => CloseOneRead(s.(q := s.q.(closeCopy := s.q.closeCopy[1..])), s.q.closeCopy[0], e);
    case OnNewConnection(_, e) => NewConnectionRead(s, e);
    case OnConnectDone(id, e) => ConnectDoneRead(s, id, e);
    case OnWriteDone(k, e) => WriteDoneRead(s, k, e);
    case OnRead(id, got, queueEmpty, timer) => ReadRead(s, id, got, queueEmpty, timer);
    case OnTimeout(id) => TimeoutRead(s, id);
    case OnShutdownDone(_) => OutgoingRead(s, ev);
    case OnTcpClosed(_) => OutgoingRead(s, ev);
    case OnTimerClosed(_) => OutgoingRead(s, ev);
    case _ =>
  }

  lemma {:induction false} RunRead(s: Pool, events: seq<Event>)
    requires Good(s) && AllRead(s.h) && Legal(s, events)
    ensures AllRead(After(s, events).h)
    decreases |events|
  {
    hide Good, AllRead, Step, Enabled, Linked;
    GoodLinked(s);
    if events != [] {
      StepGood(s, events[0]);
      StepRead(s, events[0]);
      RunRead(Step(s, events[0]), events[1..]);
    }
  }

  /** In every run every open stream is being read. */
  lemma OpenStreamsAreRead(s: Pool, id: nat)
    requires Reachable(s) && id in s.h.conns && Streaming(s.h.conns[id])
    ensures s.h.conns[id].reading
  {
    var events :| Legal(Init(), events) && After(Init(), events) == s;
    hide Good, Legal, After;
    InitGood();
    RunRead(Init(), events);
  }

  // ------------------------------------------------------------- running out

  /** The exit decides nothing: what was outside the table before is open after it. */
  lemma ExitFiledIff(s: Pool, e: ExitEnv)
    requires Inv(s) && ExitOrder(s.t, e)
    ensures AllFiled(Exit(s, e)) <==> AllFiled(s)
  {
    if AllFiled(s) {
      ExitFiled(s, e);
    } else {
      var id :| id in s.h.conns && Streaming(s.h.conns[id]) && !Filed(s.t.stream, s.h.conns[id], id);
      StrayStays(s, e, id);
    }
  }

  lemma StrayStays(s: Pool, e: ExitEnv, id: nat)
    requires Inv(s) && ExitOrder(s.t, e) && id in s.h.conns && Streaming(s.h.conns[id]) && !Filed(s.t.stream, s.h.conns[id], id)
    ensures !AllFiled(Exit(s, e))
  {
    hide HeapInv, StatusOk, BoundOk, Alternates, CloseAll;
    ExitKept(s, e, id);
    var r := Exit(s, e);
    assert !Filed(r.t.stream, r.h.conns[id], id);
  }

  lemma ExitKept(s: Pool, e: ExitEnv, id: nat)
    requires Inv(s) && ExitOrder(s.t, e) && id in s.h.conns && Streaming(s.h.conns[id]) && !Filed(s.t.stream, s.h.conns[id], id)
    ensures id in Exit(s, e).h.conns && Exit(s, e).h.conns[id] == s.h.conns[id]
  {
    assert id !in s.t.connecting;
    assert forall n :: n in s.t.stream ==> s.t.stream[n] != id;
    assert forall n :: n in s.t.servers ==> s.t.servers[n] != id;
    hide Inv, Exit;
    PoolDelivery.ExitCloses(s, e, id);
  }

  predicate Stray(s: Pool, id: nat) {
    id in s.h.conns && Streaming(s.h.conns[id]) && !Filed(s.t.stream, s.h.conns[id], id)
  }

  /** In no run from here is a timer restarted. */
  ghost predicate TimersRunOut(s: Pool) {
    forall events, ev, id ::
      Legal(s, events) && Linked(After(s, events)) && Enabled(After(s, events), ev) ==> !Restarts(After(s, events), ev, id)
  }

  /** After the exit, for each open stream outside the table: its peer's next bytes
      restart its timer and leave everything as it was, so that they can come again. */
  lemma StraysRestart(s: Pool, id: nat)
    requires Reachable(s) && s.p.exited && Stray(s, id)
    ensures var ev := OnRead(id, Data, true, true);
      Linked(s) && Enabled(s, ev) && Restarts(s, ev, id) && Step(s, ev) == s
  {
    OpenStreamsAreRead(s, id);
    ReachableGood(s);
    assert ConnOk(s.h.conns[id]);
    hide Reachable, Inv, FlowInv;
    assert s.h.conns[id].(armed := true) == s.h.conns[id];
    assert SetConn(s.h, id, s.h.conns[id]) == s.h;
  }

  /** After the exit the timers run out if and only if no open stream is outside the
      table, for every reachable exited state; and then this shows at once: a timer that
      is ever restarted can be restarted now. */
  lemma RunOutIff(s: Pool)
    requires Reachable(s) && s.p.exited
    ensures Linked(s)
    ensures AllFiled(s) <==> TimersRunOut(s)
    ensures AllFiled(s) <==> forall ev, id :: Enabled(s, ev) ==> !Restarts(s, ev, id)
  {
    ReachableGood(s);
    hide Reachable, Good, Enabled, Restarts, Step, Linked;
    assert Legal(s, []) && After(s, []) == s;
    if AllFiled(s) {
      hide AllFiled;
      forall events, ev, id | Legal(s, events) && Linked(After(s, events)) && Enabled(After(s, events), ev)
        ensures !Restarts(After(s, events), ev, id)
      {
        FiledNeverRestarts(s, events, ev, id);
      }
    } else {
      var id :| id in s.h.conns && Streaming(s.h.conns[id]) && !Filed(s.t.stream, s.h.conns[id], id);
      StraysRestart(s, id);
      var ev := OnRead(id, Data, true, true);
      assert Enabled(After(s, []), ev) && Restarts(After(s, []), ev, id);
    }
  }

  lemma FiledNeverRestarts(s: Pool, events: seq<Event>, ev: Event, id: nat)
    requires Good(s) && s.p.exited && AllFiled(s) && Legal(s, events) && Linked(After(s, events)) && Enabled(After(s, events), ev)
    ensures !Restarts(After(s, events), ev, id)
  {
    NoRestartWithoutStrays(s, events, ev, id);
  }

  /** The same from the moment the exit flag is read: the timers run out after the exit
      if and only if every open stream is in the table then. */
  lemma ExitRunsOutIff(s: Pool, order: ExitEnv)
    requires Reachable(s) && s.p.wantExit && Enabled(s, ReadFlag(order))
    ensures Linked(s) && Step(s, ReadFlag(order)).p.exited
    ensures AllFiled(s) <==> AllFiled(Step(s, ReadFlag(order)))
    ensures AllFiled(s) <==> TimersRunOut(Step(s, ReadFlag(order)))
  {
    ReachableGood(s);
    ReachableStep(s, ReadFlag(order));
    ExitPhase(s, order);
    hide Reachable, FlowInv, Inv, AllFiled, TimersRunOut, Exit;
    ExitFiledIff(s, order);
    RunOutIff(Step(s, ReadFlag(order)));
  }
}
