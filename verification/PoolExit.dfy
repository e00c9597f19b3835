/** The end of a pool: a request between the last take-over and the test of the exit
    flag, and how the callbacks after the exit run out. */
module PoolExit {
  import opened Common
  import opened PoolModel
  import opened PoolHeap
  import opened PoolTables
  import opened PoolSteps
  import opened PoolFlow
  import opened PoolRuns
  import opened PoolTheorems
  import opened PoolStray

  // ----------------------------------------------------------- a late request

  const NOTHING := ExitEnv([], [], [], [], [])

  /** The queues are taken over, empty; then come a bind, a message and the destructor;
      then the flag is read. */
  function Abandoned(): Pool {
    Pool(Phase(true, false, false, false, true, 0),
         Queues([M0], [BindRequest(HERE, true)], [M0], [], [], [], []),
         Tables(map[], {}, map[], {}, map[]), Heap(map[], 0, [], []), Log([], [], [], [], [], [], []))
  }

  /** Just before the destructor. */
  function Late(): Pool {
    Abandoned().(p := Phase(false, false, true, true, false, 0))
  }

  lemma LateIs()
    ensures Linked(Init()) && Enabled(Init(), Wakeup)
    ensures var s1 := Step(Init(), Wakeup); Linked(s1) && Enabled(s1, LISTEN)
    ensures var s2 := Step(Step(Init(), Wakeup), LISTEN); Linked(s2) && Enabled(s2, GREET) && Step(s2, GREET) == Late()
  {
  }

  lemma AbandonedIs()
    ensures Linked(Late()) && Enabled(Late(), CallDestroy)
    ensures var s1 := Step(Late(), CallDestroy); Linked(s1) && Enabled(s1, ReadFlag(NOTHING)) && Step(s1, ReadFlag(NOTHING)) == Abandoned()
  {
    assert Ids(map[], []) == [] && NodesOf(Heap(map[], 0, [], []), []) == [] && RequestNodes([]) == [];
    assert AllDown([]) == [];
  }

  /** In some run an accepted message is never written, dropped or sent and a bind never
      answered, although the destructor came last and nothing more is due: no callback
      frees the message. The destructor's own wake-up then finds the handle already
      closed. */
  lemma LateRequestAbandoned()
    ensures exists s ::
      && Reachable(s) && s.p.exited && (forall ev :: Callback(ev) ==> !Enabled(s, ev))
      && s.q.accepted == s.q.pendingSend == [M0] && Ended(s, M0) == 0 && Count(s.log.freed, M0) == 0
      && s.q.pendingBind == [BindRequest(HERE, true)] && s.log.bound == []
      && Enabled(s, CallSignal)
  {
    LateReachable();
    AbandonedFacts();
    hide Reachable, Enabled, Callback;
    assert Reachable(Abandoned());
  }

  lemma AbandonedFacts()
    ensures var s := Abandoned();
      && s.p.exited && (forall ev :: Callback(ev) ==> !Enabled(s, ev))
      && Ended(s, M0) == 0 && Count(s.log.freed, M0) == 0 && Enabled(s, CallSignal)
  {
  }

  lemma LateReachable()
    ensures Reachable(Abandoned())
  {
    hide Reachable, Linked, Enabled, Step, Init, Late, Abandoned;
    StartReachable();
    LateIs();
    ReachableStep(Init(), Wakeup);
    ReachableStep(Step(Init(), Wakeup), LISTEN);
    ReachableStep(Step(Step(Init(), Wakeup), LISTEN), GREET);
    AbandonedIs();
    ReachableStep(Late(), CallDestroy);
    ReachableStep(Step(Late(), CallDestroy), ReadFlag(NOTHING));
  }

  // -------------------------------------------------------------- running out

  function One(b: bool): nat {
    if b then 1 else 0
  }

  /** What libuv still has to do for an object. */
  function Duties(c: Conn): nat {
    One(!c.closing) + One(c.armed) + One(c.tcpInited) + One(c.timerInited) + One(c.connectReq) + One(c.shutdownReq)
  }

  ghost function Total(conns: map<nat, Conn>): nat
    decreases |conns|
  {
    if conns == map[] then 0
    else
      var id :| id in conns;
      assert (conns - {id}).Keys == conns.Keys - {id};
      Duties(conns[id]) + Total(conns - {id})
  }

  lemma {:induction false} TotalWithout(conns: map<nat, Conn>, id: nat)
    requires id in conns
    ensures Total(conns) == Duties(conns[id]) + Total(conns - {id})
    decreases |conns|
  {
    var j :| j in conns && Total(conns) == Duties(conns[j]) + Total(conns - {j});
    if j != id {
      assert (conns - {j}).Keys == conns.Keys - {j};
      assert (conns - {id}).Keys == conns.Keys - {id};
      TotalWithout(conns - {j}, id);
      TotalWithout(conns - {id}, j);
      assert conns - {j} - {id} == conns - {id} - {j};
    }
  }

  lemma TotalSet(h: Heap, id: nat, c: Conn)
    requires id in h.conns
    ensures Total(SetConn(h, id, c).conns) + Duties(h.conns[id]) == Total(h.conns) + Duties(c)
  {
    TotalWithout(h.conns, id);
    TotalWithout(SetConn(h, id, c).conns, id);
    assert SetConn(h, id, c).conns - {id} == h.conns - {id};
  }

  /** Everything still due after the exit, the destructor's wake-up included. */
  ghost function Left(s: Pool): nat {
    Total(s.h.conns) + |s.h.writes| + One(!s.p.signalled)
  }

  lemma CloseLess(h: Heap, id: nat)
    requires HeapInv(h) && id in h.conns
    ensures if h.conns[id].closing then CloseConn(h, id) == h
      else Total(CloseConn(h, id).conns) < Total(h.conns) && CloseConn(h, id).writes == h.writes
  {
    CloseConnInv(h, id);
    hide HeapInv, CloseConn, Total;
    if !h.conns[id].closing { TotalSet(h, id, Closed(h.conns[id])); }
  }

  /** Giving an object up in an exited pool. */
  lemma GiveUpLess(s: Pool, id: nat, always: bool)
    requires HeapInv(s.h) && id in s.h.conns
    ensures var r := Shutdown(s, id, always, false, false);
      && r.p == s.p && |r.h.writes| == |s.h.writes|
      && (if s.h.conns[id].closing then r.h == s.h else Total(r.h.conns) < Total(s.h.conns))
  {
    hide HeapInv, CloseConn, Total, Shutdown;
    ShutdownIs(s, id, always, false, false);
    CloseLess(s.h, id);
  }

  lemma SameTimer(h: Heap, id: nat)
    requires HeapInv(h) && id in h.conns && !h.conns[id].closing && !h.conns[id].server
    ensures SetConn(h, id, h.conns[id].(armed := true)) == h
  {
    assert ConnOk(h.conns[id]);
    assert h.conns[id].(armed := true) == h.conns[id];
  }

  /** Restarting a running timer changes nothing, unless libuv refuses. */
  lemma ResetLess(s: Pool, id: nat, queueEmpty: bool, timer: bool)
    requires HeapInv(s.h) && id in s.h.conns && !s.h.conns[id].closing && !s.h.conns[id].server
    ensures var r := ResetIdle(s, id, queueEmpty, timer);
      && r.p == s.p && |r.h.writes| == |s.h.writes|
      && if queueEmpty && !timer then Total(r.h.conns) < Total(s.h.conns) else r == s
  {
    hide HeapInv, Shutdown, Total;
    if queueEmpty {
      if timer { SameTimer(s.h, id); } else { GiveUpLess(s, id, false); }
    }
  }

  lemma ConnectDoneLess(s: Pool, id: nat, e: DoneEnv)
    requires Inv(s) && NoTables(s.t) && id in s.h.conns && s.h.conns[id].connectReq
    ensures Left(ConnectDone(s, id, e)) < Left(s)
  {
    NothingOpens(s, id);
    DialFacts(s, id);
    hide Inv, Total, Shutdown, Duties;
    var c := s.h.conns[id].(connectReq := false);
    var s1 := s.(t := s.t.(connecting := s.t.connecting - {id}), h := SetConn(s.h, id, c));
    DialDuties(s.h.conns[id], c);
    DialHeap(s, id, c);
    TotalSet(s.h, id, c);
    GiveUpLess(s1, id, true);
  }

  lemma DialDuties(b: Conn, c: Conn)
    requires b.connectReq && c == b.(connectReq := false)
    ensures Duties(c) < Duties(b)
  {
  }

  lemma DialHeap(s: Pool, id: nat, c: Conn)
    requires Inv(s) && id in s.h.conns && c == s.h.conns[id].(connectReq := false) && ConnOk(c)
    ensures HeapInv(SetConn(s.h, id, c))
  {
    SetConnInv(s.h, id, c);
  }

  lemma WriteDoneLess(s: Pool, k: nat, e: WriteEnv)
    requires Inv(s) && k < |s.h.writes| && s.h.writes[k].conn in s.h.conns
    ensures Left(WriteDone(s, k, e)) < Left(s)
  {
    WriteFacts(s, k);
    WithoutWriteInv(s.h, k);
    hide Inv, HeapInv, Total, Shutdown, ResetIdle;
    var w := s.h.writes[k];
    var s1 := s.(h := WithoutWrite(s.h, k), log := s.log.(freed := s.log.freed + w.messages));
    GiveUpLess(s1.(log := s1.log.(dropped := s1.log.dropped + w.messages)), w.conn, false);
    if e.status && !s.h.conns[w.conn].closing && !s.h.conns[w.conn].shutdown {
      ResetLess(s1.(log := s1.log.(written := s1.log.written + w.messages)), w.conn, e.queueEmpty, e.timer);
    }
  }

  lemma ReadLess(s: Pool, id: nat, got: ReadResult, queueEmpty: bool, timer: bool)
    requires Inv(s) && id in s.h.conns && s.h.conns[id].reading
    ensures var r := Read(s, id, got, queueEmpty, timer); r == s || Left(r) < Left(s)
  {
    assert ConnOk(s.h.conns[id]);
    hide Inv, HeapInv, Total, Shutdown, ResetIdle;
    match got
    case Data => ResetLess(s, id, queueEmpty, timer);
    case Nothing =>
    case Failed => GiveUpLess(s, id, false);
  }

  lemma TimeoutLess(s: Pool, id: nat)
    requires Inv(s) && id in s.h.conns && s.h.conns[id].armed
    ensures Left(Timeout(s, id)) < Left(s)
  {
    assert ConnOk(s.h.conns[id]);
    hide Inv, Total, Shutdown, Timeout;
    TimeoutIs(s, id);
    GiveUpLess(s, id, false);
  }

  lemma ShutdownDoneLess(s: Pool, id: nat)
    requires Inv(s) && id in s.h.conns && s.h.conns[id].shutdownReq
    ensures Left(ShutdownDone(s, id)) < Left(s)
  {
    ShutFacts(s, id);
    var c := s.h.conns[id].(shutdownReq := false);
    SetConnInv(s.h, id, c);
    hide Inv, HeapInv, Total, CloseConn;
    TotalSet(s.h, id, c);
    CloseLess(SetConn(s.h, id, c), id);
  }

  lemma HandleClosedLess(s: Pool, ev: Event)
    requires Inv(s) && Linked(s) && Enabled(s, ev) && (ev.OnTcpClosed? || ev.OnTimerClosed?)
    ensures Left(Step(s, ev)) < Left(s)
  {
    var id := if ev.OnTcpClosed? then ev.tcp else ev.timerHandle;
    var c := s.h.conns[id];
    hide Inv, Total, NoWrites;
    var d := if ev.OnTcpClosed? then c.(tcpInited := false) else c.(timerInited := false);
    assert Duties(d) < Duties(c);
    TotalSet(s.h, id, d);
    TotalWithout(s.h.conns, id);
  }

  /** After the exit every step brings the end closer, except a read that changes
      nothing. */
  lemma StepLess(s: Pool, ev: Event)
    requires Good(s) && Linked(s) && s.p.exited && Enabled(s, ev)
    ensures Left(Step(s, ev)) < Left(s) || (ev.OnRead? && Step(s, ev) == s)
  {
    hide FlowInv, Inv, Total, ConnectDone, WriteDone, Read, Timeout, ShutdownDone, TcpClosed, TimerClosed, NewConnection;
    match ev
    case CallSignal =>
    case OnNewConnection(id, _) => NothingOpens(s, id);
    case OnConnectDone(id, e) => ConnectDoneLess(s, id, e);
    case OnWriteDone(k, e) => WriteDoneLess(s, k, e);
    case OnRead(id, got, queueEmpty, timer) => ReadLess(s, id, got, queueEmpty, timer);
    case OnTimeout(id) => TimeoutLess(s, id);
    case OnShutdownDone(id) => ShutdownDoneLess(s, id);
    case OnTcpClosed(_) => HandleClosedLess(s, ev);
    case OnTimerClosed(_) => HandleClosedLess(s, ev);
    case _ =>
  }

  function OtherThanReads(events: seq<Event>): nat
    decreases |events|
  {
    if events == [] then 0 else One(!events[0].OnRead?) + OtherThanReads(events[1..])
  }

  /** The callbacks after the exit run out: a run has at most as many events other than
      reads as there are things left to do. */
  lemma {:induction false} CallbacksRunOut(s: Pool, events: seq<Event>)
    requires Good(s) && s.p.exited && Legal(s, events)
    ensures OtherThanReads(events) + Left(After(s, events)) <= Left(s)
    decreases |events|
  {
    hide Inv, FlowInv, Step, Enabled, Left, Linked;
    GoodLinked(s);
    if events != [] {
      StepGood(s, events[0]);
      StepLess(s, events[0]);
      StillExited(s, events[0]);
      CallbacksRunOut(Step(s, events[0]), events[1..]);
    }
  }

  lemma StillExited(s: Pool, ev: Event)
    requires Good(s) && Linked(s) && s.p.exited && Enabled(s, ev)
    ensures Step(s, ev).p.exited
  {
    assert NoTables(s.t);
    hide Inv, FlowInv, Step, Enabled, Linked;
    ExitedStaysQuiet(s, ev);
  }

  // -------------------------------------------------------------------- reads

  /** The step starts the timer of `id` afresh, which puts its end off. */
  predicate Restarts(s: Pool, ev: Event, id: nat)
    requires Linked(s)
  {
    match ev
    case OnRead(reader, got, queueEmpty, timer) =>
      && id == reader && id in s.h.conns && got.Data? && queueEmpty && timer
      && !s.h.conns[id].closing && !s.h.conns[id].shutdown
    case OnWriteDone(k, e) =>
      && k < |s.h.writes| && id == s.h.writes[k].conn && e.status && e.queueEmpty && e.timer
      && !s.h.conns[id].closing && !s.h.conns[id].shutdown
    case _ => false
  }

  /** After the exit a timer is only ever restarted for an open stream that the tables
      did not lead to. */
  lemma OnlyStraysRestart(s: Pool, ev: Event, id: nat)
    requires Good(s) && Linked(s) && s.p.exited && Enabled(s, ev) && Restarts(s, ev, id)
    ensures id in s.h.conns && Streaming(s.h.conns[id]) && !AllFiled(s)
  {
    NothingOpens(s, id);
    if ev.OnRead? {
      assert ConnOk(s.h.conns[id]);
    } else {
      WriteFacts(s, ev.write);
    }
    hide Inv, FlowInv;
    assert !Filed(s.t.stream, s.h.conns[id], id);
  }

  /** If every open stream was in the table when the pool exited, no timer is restarted
      in any run that follows: what is open then is over with the timers running. */
  lemma {:induction false} NoRestartWithoutStrays(s: Pool, events: seq<Event>, ev: Event, id: nat)
    requires Good(s) && s.p.exited && AllFiled(s) && Legal(s, events) && Enabled(After(s, events), ev)
    ensures Linked(After(s, events)) && !Restarts(After(s, events), ev, id)
    decreases |events|
  {
    hide Inv, FlowInv, Step, Enabled, Linked, AllFiled, Restarts;
    GoodLinked(s);
    if events != [] {
      StepGood(s, events[0]);
      StillExited(s, events[0]);
      EmptyTablesOwn(s, events[0]);
      StepFiled(s, events[0]);
      NoRestartWithoutStrays(Step(s, events[0]), events[1..], ev, id);
    } else if Restarts(s, ev, id) {
      OnlyStraysRestart(s, ev, id);
    }
  }

  lemma EmptyTablesOwn(s: Pool, ev: Event)
    requires Good(s) && Linked(s) && s.p.exited
    ensures forall id: nat :: GivesUp(s, ev, id) && Enabled(s, ev) ==> OwnEntry(s, id)
  {
    hide Inv, FlowInv;
  }

  /** With a stray stream it can go on for ever: each read restarts the timer and leaves
      everything as it was. */
  lemma StrayReadsForEver()
    ensures exists s, ev, id ::
      Reachable(s) && Linked(s) && s.p.exited && Enabled(s, ev) && Restarts(s, ev, id) && Step(s, ev) == s
  {
    var s, ev := Outlived(), OnRead(2, Data, true, true);
    OutlivedReachable();
    OutlivedReads();
    assert Restarts(s, ev, 2);
  }

  const LAST := ExitEnv([HERE], [], [], [], [])

  /** The pool with the stray stream after its exit. */
  function Outlived(): Pool {
    Strayed().(p := Phase(true, false, false, false, true, 1),
               t := Tables(map[], {}, map[], {}, map[]),
               h := Heap(map[0 := Closed(SERVER), 1 := Closed(DIAL.(connectReq := false)), 2 := CALLER], 3, [], [Write(2, [M0])]),
               log := Strayed().log.(bound := [Status(HERE, true), Status(HERE, false)]))
  }

  lemma OutlivedReads()
    ensures var s, ev := Outlived(), OnRead(2, Data, true, true);
      Linked(s) && Enabled(s, ev) && Step(s, ev) == s
  {
    var s := Outlived();
    assert s.h.conns[2].(armed := true) == s.h.conns[2];
    assert SetConn(s.h, 2, s.h.conns[2]) == s.h;
  }

  /** The stray state when the destructor has set the flag and the loop has woken up. */
  function Waking(): Pool {
    Strayed().(p := Phase(true, false, true, true, false, 1))
  }

  lemma WakingIs()
    ensures Linked(Strayed()) && Enabled(Strayed(), CallDestroy)
    ensures var s1 := Step(Strayed(), CallDestroy); Linked(s1) && Enabled(s1, Wakeup) && Step(s1, Wakeup) == Waking()
  {
  }

  lemma OutlivedIs()
    ensures Linked(Waking()) && Enabled(Waking(), ReadFlag(LAST)) && Step(Waking(), ReadFlag(LAST)) == Outlived()
  {
    var s := Waking();
    assert Ids(s.t.servers, [HERE]) == [0] && Ids(s.t.stream, []) == [];
    assert CloseAll(s.h, [0]) == CloseAll(CloseConn(s.h, 0), []);
    assert AllDown([HERE]) == [Status(HERE, false)] && AllDown([]) == [] && NodesOf(s.h, []) == [] && RequestNodes([]) == [];
    assert Step(s, ReadFlag(LAST)).h == Outlived().h;
    assert Step(s, ReadFlag(LAST)).log == Outlived().log;
  }

  lemma OutlivedReachable()
    ensures Reachable(Outlived())
  {
    hide Reachable, Linked, Enabled, Step, Strayed, Waking, Outlived;
    StrayReachable();
    WakingIs();
    OutlivedIs();
    ReachableStep(Strayed(), CallDestroy);
    ReachableStep(Step(Strayed(), CallDestroy), Wakeup);
    ReachableStep(Waking(), ReadFlag(LAST));
  }
}
