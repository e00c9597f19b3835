/** Where the messages are: each accepted message in exactly one place, in order for
    each node. The places are looked at apart from connections and tables; every
    step of the pool is one or two of the moves below. */
module PoolFlow {
  import opened PoolModel
  import opened PoolTables

  datatype Flow = Flow(
    accepted: seq<Message>,
    pending: seq<Message>,       // m_pendingSend
    copy: seq<Message>,          // what on_wakeup took over and has not reached yet
    waiting: map<Node, seq<Message>>,
    writes: seq<Write>,
    handed: seq<Message>,
    written: seq<Message>,
    dropped: seq<Message>,
    udp: seq<Message>,
    freed: seq<Message>)

  function FlowOf(s: Pool): Flow {
    Flow(s.q.accepted, s.q.pendingSend, s.q.sendCopy, s.t.waiting, s.h.writes,
         s.log.handed, s.log.written, s.log.dropped, s.log.udp, s.log.freed)
  }

  // -------------------------------------------------------------- invariant

  function Count(xs: seq<Message>, m: Message): nat {
    multiset(xs)[m]
  }

  function WaitCount(waiting: map<Node, seq<Message>>, m: Message): nat {
    if m.node in waiting then Count(waiting[m.node], m) else 0
  }

  /** All messages of the writes in flight. */
  function InFlight(writes: seq<Write>): seq<Message>
    decreases |writes|
  {
    if writes == [] then [] else writes[0].messages + InFlight(writes[1..])
  }

  /** In how many places a message is, counted with repetitions. */
  function Places(f: Flow, m: Message): nat {
    Count(f.pending, m) + Count(f.copy, m) + WaitCount(f.waiting, m) + Count(InFlight(f.writes), m)
    + Count(f.written, m) + Count(f.dropped, m) + Count(f.udp, m)
  }

  predicate IsAccepted(f: Flow, m: Message) {
    m.serial < |f.accepted| && f.accepted[m.serial] == m
  }

  /** Every accepted message is in exactly one place, nothing else is anywhere, and a
      block is freed once when its message is written, dropped or sent as a datagram. */
  ghost predicate Conserved(f: Flow) {
    && (forall i :: 0 <= i < |f.accepted| ==> f.accepted[i].serial == i)
    && (forall m :: Places(f, m) == if IsAccepted(f, m) then 1 else 0)
    && (forall m :: Count(f.freed, m) == Count(f.written, m) + Count(f.dropped, m) + Count(f.udp, m))
  }

  predicate Ordered(xs: seq<Message>) {
    forall i, j :: 0 <= i < j < |xs| ==> xs[i].serial < xs[j].serial
  }

  predicate Before(xs: seq<Message>, ys: seq<Message>) {
    forall i, j :: 0 <= i < |xs| && 0 <= j < |ys| ==> xs[i].serial < ys[j].serial
  }

  predicate Below(xs: seq<Message>, n: nat) {
    forall i :: 0 <= i < |xs| ==> xs[i].serial < n
  }

  /** For each node the messages handed to libuv are in the order of `send`. */
  predicate NodeOrdered(xs: seq<Message>) {
    forall i, j :: 0 <= i < j < |xs| && xs[i].node == xs[j].node ==> xs[i].serial < xs[j].serial
  }

  /** Messages for `n` among the handed ones came before those waiting for it. */
  predicate HandedBefore(handed: seq<Message>, n: Node, queue: seq<Message>) {
    forall i, j :: 0 <= i < |handed| && 0 <= j < |queue| && handed[i].node == n ==> handed[i].serial < queue[j].serial
  }

  predicate WaitOrdered(f: Flow, n: Node, queue: seq<Message>) {
    && AllFor(queue, n) && Ordered(queue) && Below(queue, |f.accepted|)
    && Before(queue, f.copy) && Before(queue, f.pending) && HandedBefore(f.handed, n, queue)
  }

  /** First handed over, then waiting, then taken over, then pending. */
  ghost predicate InOrder(f: Flow) {
    && Ordered(f.pending) && Ordered(f.copy) && Before(f.copy, f.pending)
    && Below(f.pending, |f.accepted|) && Below(f.copy, |f.accepted|) && Below(f.handed, |f.accepted|)
    && NodeOrdered(f.handed) && Before(f.handed, f.copy) && Before(f.handed, f.pending)
    && forall n :: n in f.waiting ==> WaitOrdered(f, n, f.waiting[n])
  }

  ghost predicate FlowInv(f: Flow) {
    Conserved(f) && InOrder(f)
  }

  // ------------------------------------------------------------------ moves

  function Enqueued(f: Flow, node: Node, autoConnect: bool): Flow {
    var m := Message(|f.accepted|, node, autoConnect);
    f.(accepted := f.accepted + [m], pending := f.pending + [m])
  }

  function TakenOver(f: Flow): Flow {
    f.(copy := f.pending, pending := [])
  }

  function DroppedWaiting(f: Flow, n: Node): Flow {
    if n in f.waiting then
      f.(waiting := f.waiting - {n}, dropped := f.dropped + f.waiting[n], freed := f.freed + f.waiting[n])
    else f
  }

  function WrittenWaiting(f: Flow, n: Node, conn: nat): Flow
    requires n in f.waiting
  {
    f.(waiting := f.waiting - {n}, writes := f.writes + [Write(conn, f.waiting[n])], handed := f.handed + f.waiting[n])
  }

  function HeadWaits(f: Flow): Flow
    requires f.copy != []
  {
    var m := f.copy[0];
    var queue := if m.node in f.waiting then f.waiting[m.node] else [];
    f.(copy := f.copy[1..], waiting := f.waiting[m.node := queue + [m]])
  }

  function HeadDropped(f: Flow): Flow
    requires f.copy != []
  {
    f.(copy := f.copy[1..], dropped := f.dropped + [f.copy[0]], freed := f.freed + [f.copy[0]])
  }

  function HeadWritten(f: Flow, conn: nat): Flow
    requires f.copy != []
  {
    f.(copy := f.copy[1..], writes := f.writes + [Write(conn, [f.copy[0]])], handed := f.handed + [f.copy[0]])
  }

  function HeadToUdp(f: Flow): Flow
    requires f.copy != []
  {
    f.(copy := f.copy[1..], udp := f.udp + [f.copy[0]], freed := f.freed + [f.copy[0]])
  }

  function CopyDropped(f: Flow): Flow {
    f.(copy := [], dropped := f.dropped + f.copy, freed := f.freed + f.copy)
  }

  function Answered(f: Flow, k: nat, ok: bool): Flow
    requires k < |f.writes|
  {
    var messages := f.writes[k].messages;
    var g := f.(writes := f.writes[..k] + f.writes[k + 1..], freed := f.freed + messages);
    if ok then g.(written := g.written + messages) else g.(dropped := g.dropped + messages)
  }

  // ----------------------------------------------------- moves keep the order

  lemma DropWaitingOrder(f: Flow, n: Node)
    requires InOrder(f)
    ensures InOrder(DroppedWaiting(f, n))
  {
    var g := DroppedWaiting(f, n);
    forall k | k in g.waiting ensures WaitOrdered(g, k, g.waiting[k]) { assert WaitOrdered(f, k, f.waiting[k]); }
  }

  lemma WriteWaitingOrder(f: Flow, n: Node, conn: nat)
    requires InOrder(f) && n in f.waiting
    ensures InOrder(WrittenWaiting(f, n, conn))
  {
    var g := WrittenWaiting(f, n, conn);
    var queue := f.waiting[n];
    assert WaitOrdered(f, n, queue);
    AppendNode(f.handed, n, queue);
    forall k | k in g.waiting ensures WaitOrdered(g, k, g.waiting[k]) {
      assert WaitOrdered(f, k, f.waiting[k]);
    }
  }

  lemma AppendNode(handed: seq<Message>, n: Node, queue: seq<Message>)
    requires NodeOrdered(handed) && AllFor(queue, n) && Ordered(queue) && HandedBefore(handed, n, queue)
    ensures NodeOrdered(handed + queue)
  {
  }

  /** What is left of the copy once its head is out. */
  lemma TailOrder(f: Flow)
    requires InOrder(f) && f.copy != []
    ensures InOrder(f.(copy := f.copy[1..]))
    ensures Before([f.copy[0]], f.copy[1..]) && Before([f.copy[0]], f.pending) && Before(f.handed, [f.copy[0]])
  {
    var g := f.(copy := f.copy[1..]);
    forall k | k in g.waiting ensures WaitOrdered(g, k, g.waiting[k]) { assert WaitOrdered(f, k, f.waiting[k]); }
  }

  /** The queue of a node with the head of the copy added to it. */
  lemma LongerQueue(f: Flow, g: Flow, n: Node, queue: seq<Message>)
    requires InOrder(f) && f.copy != [] && f.copy[0].node == n && (queue == [] || WaitOrdered(f, n, queue))
    requires g == f.(copy := f.copy[1..], waiting := g.waiting)
    ensures WaitOrdered(g, n, queue + [f.copy[0]])
  {
    TailOrder(f);
  }

  lemma HeadWaitsOrder(f: Flow)
    requires InOrder(f) && f.copy != []
    ensures InOrder(HeadWaits(f))
  {
    TailOrder(f);
    var g := HeadWaits(f);
    var m := f.copy[0];
    LongerQueue(f, g, m.node, if m.node in f.waiting then f.waiting[m.node] else []);
    forall k | k in g.waiting ensures WaitOrdered(g, k, g.waiting[k]) {
      if k != m.node { assert WaitOrdered(f, k, f.waiting[k]); }
    }
  }

  lemma HeadWrittenOrder(f: Flow, conn: nat)
    requires InOrder(f) && f.copy != [] && f.copy[0].node !in f.waiting
    ensures InOrder(HeadWritten(f, conn))
  {
    TailOrder(f);
    var g := HeadWritten(f, conn);
    forall k | k in g.waiting ensures WaitOrdered(g, k, g.waiting[k]) {
      assert WaitOrdered(f, k, f.waiting[k]);
      assert HandedBefore(f.handed, k, f.waiting[k]);
    }
  }

  lemma EnqueuedOrder(f: Flow, node: Node, autoConnect: bool)
    requires InOrder(f)
    ensures InOrder(Enqueued(f, node, autoConnect))
  {
    var g := Enqueued(f, node, autoConnect);
    forall k | k in g.waiting ensures WaitOrdered(g, k, g.waiting[k]) { assert WaitOrdered(f, k, f.waiting[k]); }
  }

  lemma TakenOverOrder(f: Flow)
    requires InOrder(f) && f.copy == []
    ensures InOrder(TakenOver(f))
  {
    var g := TakenOver(f);
    forall k | k in g.waiting ensures WaitOrdered(g, k, g.waiting[k]) { assert WaitOrdered(f, k, f.waiting[k]); }
  }

  /** Moves that only touch the end of a message's way. */
  lemma FarEndOrder(f: Flow, g: Flow)
    requires InOrder(f) && g.accepted == f.accepted && g.pending == f.pending && g.waiting == f.waiting && g.handed == f.handed
    requires g.copy == f.copy || g.copy == []
    ensures InOrder(g)
  {
    forall k | k in g.waiting ensures WaitOrdered(g, k, g.waiting[k]) { assert WaitOrdered(f, k, f.waiting[k]); }
  }

  // ---------------------------------------------- moves lose and copy nothing

  lemma CountAppend(xs: seq<Message>, ys: seq<Message>, m: Message)
    ensures Count(xs + ys, m) == Count(xs, m) + Count(ys, m)
  {
  }

  lemma CountHead(xs: seq<Message>, m: Message)
    requires xs != []
    ensures Count(xs, m) == Count([xs[0]], m) + Count(xs[1..], m)
  {
    assert xs == [xs[0]] + xs[1..];
  }

  lemma {:induction false} InFlightAppend(a: seq<Write>, b: seq<Write>)
    ensures InFlight(a + b) == InFlight(a) + InFlight(b)
    decreases |a|
  {
    if a == [] {
      assert a + b == b;
    } else {
      InFlightAppend(a[1..], b);
      assert (a + b)[1..] == a[1..] + b;
    }
  }

  lemma InFlightSnoc(writes: seq<Write>, w: Write)
    ensures InFlight(writes + [w]) == InFlight(writes) + w.messages
  {
    InFlightAppend(writes, [w]);
    assert InFlight([w]) == w.messages + InFlight([]);
  }

  lemma InFlightHead(b: seq<Write>)
    requires b != []
    ensures InFlight(b) == b[0].messages + InFlight(b[1..])
  {
  }

  lemma InFlightSplit(writes: seq<Write>, k: nat)
    requires k < |writes|
    ensures InFlight(writes) == InFlight(writes[..k]) + (writes[k].messages + InFlight(writes[k + 1..]))
  {
    hide InFlight;
    var a, b := writes[..k], writes[k..];
    assert b[0] == writes[k] && b[1..] == writes[k + 1..];
    assert a + b == writes;
    InFlightAppend(a, b);
    InFlightHead(b);
  }

  lemma InFlightWithout(writes: seq<Write>, k: nat, m: Message)
    requires k < |writes|
    ensures Count(InFlight(writes), m) == Count(InFlight(writes[..k] + writes[k + 1..]), m) + Count(writes[k].messages, m)
  {
    hide InFlight;
    InFlightAppend(writes[..k], writes[k + 1..]);
    InFlightSplit(writes, k);
    CountAppend(InFlight(writes[..k]), InFlight(writes[k + 1..]), m);
    CountAppend(InFlight(writes[..k]), writes[k].messages + InFlight(writes[k + 1..]), m);
    CountAppend(writes[k].messages, InFlight(writes[k + 1..]), m);
  }

  lemma CountOther(xs: seq<Message>, n: Node, m: Message)
    requires AllFor(xs, n) && m.node != n
    ensures Count(xs, m) == 0
  {
    assert m !in xs;
  }

  /** Messages that wait for a node leave the waiting table with it. */
  lemma WaitingLeaves(waiting: map<Node, seq<Message>>, n: Node, m: Message)
    requires n in waiting && AllFor(waiting[n], n)
    ensures WaitCount(waiting, m) == WaitCount(waiting - {n}, m) + Count(waiting[n], m)
  {
    if m.node != n {
      CountOther(waiting[n], n, m);
    }
  }

  /** Two states with the same count of everything, freed blocks included. */
  ghost predicate SameCounts(f: Flow, g: Flow) {
    && g.accepted == f.accepted
    && (forall m :: Places(g, m) == Places(f, m))
    && (forall m :: Count(g.freed, m) + Count(f.written, m) + Count(f.dropped, m) + Count(f.udp, m)
                 == Count(f.freed, m) + Count(g.written, m) + Count(g.dropped, m) + Count(g.udp, m))
  }

  lemma ConservedSame(f: Flow, g: Flow)
    requires Conserved(f) && SameCounts(f, g)
    ensures Conserved(g)
  {
    forall m ensures Places(g, m) == if IsAccepted(g, m) then 1 else 0 {
      assert Places(f, m) == if IsAccepted(f, m) then 1 else 0;
    }
    forall m ensures Count(g.freed, m) == Count(g.written, m) + Count(g.dropped, m) + Count(g.udp, m) {
      assert Count(f.freed, m) == Count(f.written, m) + Count(f.dropped, m) + Count(f.udp, m);
    }
  }

  lemma DropWaitingCounts(f: Flow, n: Node)
    requires n in f.waiting ==> AllFor(f.waiting[n], n)
    ensures SameCounts(f, DroppedWaiting(f, n))
  {
    var g := DroppedWaiting(f, n);
    if n in f.waiting {
      forall m
        ensures Places(g, m) == Places(f, m)
        ensures Count(g.freed, m) + Count(f.dropped, m) == Count(f.freed, m) + Count(g.dropped, m)
      {
        WaitingLeaves(f.waiting, n, m);
        CountAppend(f.dropped, f.waiting[n], m);
        CountAppend(f.freed, f.waiting[n], m);
      }
    }
  }

  lemma WriteWaitingCounts(f: Flow, n: Node, conn: nat)
    requires n in f.waiting && AllFor(f.waiting[n], n)
    ensures SameCounts(f, WrittenWaiting(f, n, conn))
  {
    var g := WrittenWaiting(f, n, conn);
    forall m ensures Places(g, m) == Places(f, m) {
      WaitingLeaves(f.waiting, n, m);
      InFlightSnoc(f.writes, Write(conn, f.waiting[n]));
      CountAppend(InFlight(f.writes), f.waiting[n], m);
    }
  }

  lemma HeadWaitsCounts(f: Flow)
    requires f.copy != []
    ensures SameCounts(f, HeadWaits(f))
  {
    var g := HeadWaits(f);
    var x := f.copy[0];
    var queue := if x.node in f.waiting then f.waiting[x.node] else [];
    forall m ensures Places(g, m) == Places(f, m) {
      CountHead(f.copy, m);
      CountAppend(queue, [x], m);
      if m.node != x.node { CountOther([x], x.node, m); }
    }
  }

  lemma HeadDroppedCounts(f: Flow)
    requires f.copy != []
    ensures SameCounts(f, HeadDropped(f))
  {
    var g := HeadDropped(f);
    forall m
      ensures Places(g, m) == Places(f, m)
      ensures Count(g.freed, m) + Count(f.dropped, m) == Count(f.freed, m) + Count(g.dropped, m)
    {
      CountHead(f.copy, m);
      CountAppend(f.dropped, [f.copy[0]], m);
      CountAppend(f.freed, [f.copy[0]], m);
    }
  }

  lemma HeadToUdpCounts(f: Flow)
    requires f.copy != []
    ensures SameCounts(f, HeadToUdp(f))
  {
    var g := HeadToUdp(f);
    forall m
      ensures Places(g, m) == Places(f, m)
      ensures Count(g.freed, m) + Count(f.udp, m) == Count(f.freed, m) + Count(g.udp, m)
    {
      CountHead(f.copy, m);
      CountAppend(f.udp, [f.copy[0]], m);
      CountAppend(f.freed, [f.copy[0]], m);
    }
  }

  lemma HeadWrittenCounts(f: Flow, conn: nat)
    requires f.copy != []
    ensures SameCounts(f, HeadWritten(f, conn))
  {
    var g := HeadWritten(f, conn);
    forall m ensures Places(g, m) == Places(f, m) {
      CountHead(f.copy, m);
      InFlightSnoc(f.writes, Write(conn, [f.copy[0]]));
      CountAppend(InFlight(f.writes), [f.copy[0]], m);
    }
  }

  lemma CopyDroppedCounts(f: Flow)
    ensures SameCounts(f, CopyDropped(f))
  {
    var g := CopyDropped(f);
    forall m
      ensures Places(g, m) == Places(f, m)
      ensures Count(g.freed, m) + Count(f.dropped, m) == Count(f.freed, m) + Count(g.dropped, m)
    {
      CountAppend(f.dropped, f.copy, m);
      CountAppend(f.freed, f.copy, m);
    }
  }

  lemma AnsweredCounts(f: Flow, k: nat, ok: bool)
    requires k < |f.writes|
    ensures SameCounts(f, Answered(f, k, ok))
  {
    var g := Answered(f, k, ok);
    var messages := f.writes[k].messages;
    forall m
      ensures Places(g, m) == Places(f, m)
      ensures Count(g.freed, m) + Count(f.written, m) + Count(f.dropped, m)
           == Count(f.freed, m) + Count(g.written, m) + Count(g.dropped, m)
    {
      InFlightWithout(f.writes, k, m);
      CountAppend(f.freed, messages, m);
      CountAppend(f.written, messages, m);
      CountAppend(f.dropped, messages, m);
    }
  }

  lemma TakenOverCounts(f: Flow)
    requires f.copy == []
    ensures SameCounts(f, TakenOver(f))
  {
  }

  /** `send` adds one message nobody has seen before. */
  lemma EnqueuedConserved(f: Flow, node: Node, autoConnect: bool)
    requires Conserved(f)
    ensures Conserved(Enqueued(f, node, autoConnect))
  {
    var g := Enqueued(f, node, autoConnect);
    var x := Message(|f.accepted|, node, autoConnect);
    forall m ensures Places(g, m) == if IsAccepted(g, m) then 1 else 0 {
      assert Places(f, m) == if IsAccepted(f, m) then 1 else 0;
      CountAppend(f.pending, [x], m);
      assert Count([x], m) == if m == x then 1 else 0;
      if m.serial < |f.accepted| { assert g.accepted[m.serial] == f.accepted[m.serial]; }
    }
  }

  // --------------------------------------------------- moves keep everything

  lemma DroppedWaitingInv(f: Flow, n: Node)
    requires FlowInv(f)
    ensures FlowInv(DroppedWaiting(f, n))
  {
    hide Conserved, Places;
    assert n in f.waiting ==> WaitOrdered(f, n, f.waiting[n]);
    DropWaitingCounts(f, n);
    ConservedSame(f, DroppedWaiting(f, n));
    DropWaitingOrder(f, n);
  }

  lemma WrittenWaitingInv(f: Flow, n: Node, conn: nat)
    requires FlowInv(f) && n in f.waiting
    ensures FlowInv(WrittenWaiting(f, n, conn))
  {
    hide Conserved, Places;
    assert WaitOrdered(f, n, f.waiting[n]);
    WriteWaitingCounts(f, n, conn);
    ConservedSame(f, WrittenWaiting(f, n, conn));
    WriteWaitingOrder(f, n, conn);
  }

  lemma HeadWaitsInv(f: Flow)
    requires FlowInv(f) && f.copy != []
    ensures FlowInv(HeadWaits(f))
  {
    hide Conserved, Places, InOrder;
    HeadWaitsCounts(f);
    ConservedSame(f, HeadWaits(f));
    HeadWaitsOrder(f);
  }

  lemma HeadDroppedInv(f: Flow)
    requires FlowInv(f) && f.copy != []
    ensures FlowInv(HeadDropped(f))
  {
    hide Conserved, Places, InOrder;
    HeadDroppedCounts(f);
    ConservedSame(f, HeadDropped(f));
    TailOrder(f);
    FarEndOrder(f.(copy := f.copy[1..]), HeadDropped(f));
  }

  lemma HeadToUdpInv(f: Flow)
    requires FlowInv(f) && f.copy != []
    ensures FlowInv(HeadToUdp(f))
  {
    hide Conserved, Places, InOrder;
    HeadToUdpCounts(f);
    ConservedSame(f, HeadToUdp(f));
    TailOrder(f);
    FarEndOrder(f.(copy := f.copy[1..]), HeadToUdp(f));
  }

  lemma HeadWrittenInv(f: Flow, conn: nat)
    requires FlowInv(f) && f.copy != [] && f.copy[0].node !in f.waiting
    ensures FlowInv(HeadWritten(f, conn))
  {
    hide Conserved, Places, InOrder;
    HeadWrittenCounts(f, conn);
    ConservedSame(f, HeadWritten(f, conn));
    HeadWrittenOrder(f, conn);
  }

  lemma CopyDroppedInv(f: Flow)
    requires FlowInv(f)
    ensures FlowInv(CopyDropped(f))
  {
    hide Conserved, Places, InOrder;
    CopyDroppedCounts(f);
    ConservedSame(f, CopyDropped(f));
    FarEndOrder(f, CopyDropped(f));
  }

  lemma AnsweredInv(f: Flow, k: nat, ok: bool)
    requires FlowInv(f) && k < |f.writes|
    ensures FlowInv(Answered(f, k, ok))
  {
    hide Conserved, Places, InOrder;
    AnsweredCounts(f, k, ok);
    ConservedSame(f, Answered(f, k, ok));
    FarEndOrder(f, Answered(f, k, ok));
  }

  lemma TakenOverInv(f: Flow)
    requires FlowInv(f) && f.copy == []
    ensures FlowInv(TakenOver(f))
  {
    hide Conserved, InOrder;
    TakenOverCounts(f);
    ConservedSame(f, TakenOver(f));
    TakenOverOrder(f);
  }

  lemma EnqueuedInv(f: Flow, node: Node, autoConnect: bool)
    requires FlowInv(f)
    ensures FlowInv(Enqueued(f, node, autoConnect))
  {
    hide Conserved, InOrder;
    EnqueuedConserved(f, node, autoConnect);
    EnqueuedOrder(f, node, autoConnect);
  }

  /** Dropping what waits for several nodes. */
  function DroppedEach(f: Flow, nodes: seq<Node>): Flow
    decreases |nodes|
  {
    if nodes == [] then f else DroppedEach(DroppedWaiting(f, nodes[0]), nodes[1..])
  }

  lemma {:induction false} DroppedEachInv(f: Flow, nodes: seq<Node>)
    requires FlowInv(f)
    ensures FlowInv(DroppedEach(f, nodes))
    decreases |nodes|
  {
    hide FlowInv;
    if nodes != [] {
      DroppedWaitingInv(f, nodes[0]);
      DroppedEachInv(DroppedWaiting(f, nodes[0]), nodes[1..]);
    }
  }

  lemma {:induction false} WaitingForFewer(waiting: map<Node, seq<Message>>, n: Node, nodes: seq<Node>)
    requires n !in nodes
    ensures WaitingFor(waiting - {n}, nodes) == WaitingFor(waiting, nodes)
    decreases |nodes|
  {
    if nodes != [] {
      WaitingForFewer(waiting, n, nodes[1..]);
    }
  }

  lemma DroppedWaitingIs(f: Flow, n: Node, first: seq<Message>)
    requires first == if n in f.waiting then f.waiting[n] else []
    ensures DroppedWaiting(f, n) == f.(waiting := f.waiting - {n}, dropped := f.dropped + first, freed := f.freed + first)
  {
    assert n !in f.waiting ==> f.waiting - {n} == f.waiting;
    assert f.dropped + [] == f.dropped && f.freed + [] == f.freed;
  }

  lemma FewerNodes(waiting: map<Node, seq<Message>>, nodes: seq<Node>)
    requires nodes != []
    ensures waiting - {nodes[0]} - (set n | n in nodes[1..]) == waiting - (set n | n in nodes)
  {
  }

  /** In one go: the waiting messages of all of them, in the order of the nodes. */
  lemma {:induction false} DroppedEachIs(f: Flow, nodes: seq<Node>)
    requires forall i, j :: 0 <= i < j < |nodes| ==> nodes[i] != nodes[j]
    ensures var all := WaitingFor(f.waiting, nodes);
      DroppedEach(f, nodes) == f.(waiting := f.waiting - (set n | n in nodes), dropped := f.dropped + all, freed := f.freed + all)
    decreases |nodes|
  {
    hide DroppedWaiting;
    if nodes == [] {
      assert f.waiting - {} == f.waiting;
      assert f.dropped + [] == f.dropped && f.freed + [] == f.freed;
    } else {
      var g := DroppedWaiting(f, nodes[0]);
      var first := if nodes[0] in f.waiting then f.waiting[nodes[0]] else [];
      DroppedWaitingIs(f, nodes[0], first);
      DroppedEachIs(g, nodes[1..]);
      WaitingForFewer(f.waiting, nodes[0], nodes[1..]);
      var later := WaitingFor(f.waiting, nodes[1..]);
      assert f.dropped + first + later == f.dropped + (first + later);
      assert f.freed + first + later == f.freed + (first + later);
      FewerNodes(f.waiting, nodes);
    }
  }
}
