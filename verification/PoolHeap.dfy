/** Life cycle of connection objects: every handle is closed at most once, an object
    is deleted once and only after its last close callback, and every open
    connection has a running timer. */
module PoolHeap {
  import opened Common
  import opened PoolModel

  /** One connection object, between callbacks. */
  predicate ConnOk(c: Conn) {
    && (c.tcpInited || c.timerInited)
    && (c.closing ==>
          // each live handle has been given to uv_close exactly once
          && (c.tcpInited ==> c.tcpCloses == 1) && (c.timerInited ==> c.timerCloses == 1)
          && !c.armed && !c.reading)
    && (!c.closing ==> c.tcpInited && c.tcpCloses == 0 && c.timerCloses == 0)
    && c.tcpCloses <= 1 && c.timerCloses <= 1
    && (c.server ==> !c.timerInited && !c.shutdown && !c.connectReq && !c.reading && !c.armed)
    && (c.connectReq || c.shutdownReq ==> c.tcpInited)
    && (c.shutdownReq ==> c.shutdown)
    && (c.connectReq ==> !c.reading && !c.shutdown)
    // an open connection has a running timer
    && (!c.closing && !c.server ==> c.timerInited && c.armed)
  }

  ghost predicate ConnsOk(h: Heap) {
    forall id :: id in h.conns ==> id < h.next && ConnOk(h.conns[id])
  }

  /** Deleted objects are gone for good, each was deleted once, and every object ever
      made either exists or was deleted. */
  ghost predicate DeletedOk(h: Heap) {
    && (forall id :: 0 <= id < h.next ==> id in h.conns || id in h.deleted)
    && (forall i :: 0 <= i < |h.deleted| ==> h.deleted[i] < h.next && h.deleted[i] !in h.conns)
    && (forall i, j :: 0 <= i < j < |h.deleted| ==> h.deleted[i] != h.deleted[j])
  }

  /** A write still in flight belongs to a connection that exists and whose tcp
      handle libuv still has; its messages are for that connection's node. */
  predicate WriteOk(h: Heap, w: Write) {
    && w.conn in h.conns && h.conns[w.conn].tcpInited && !h.conns[w.conn].server
    && !h.conns[w.conn].connectReq
    && forall i :: 0 <= i < |w.messages| ==> w.messages[i].node == h.conns[w.conn].node
  }

  ghost predicate WritesOk(h: Heap) {
    forall k :: 0 <= k < |h.writes| ==> WriteOk(h, h.writes[k])
  }

  ghost predicate HeapInv(h: Heap) {
    ConnsOk(h) && DeletedOk(h) && WritesOk(h)
  }

  // ------------------------------------------------------- changing objects

  /** `c` may stand in for the object `b`: writes in flight still belong. */
  predicate Replaces(c: Conn, b: Conn) {
    c.node == b.node && c.server == b.server && c.tcpInited == b.tcpInited && (c.connectReq ==> b.connectReq)
  }

  lemma SetConnInv(h: Heap, id: nat, c: Conn)
    requires HeapInv(h) && id in h.conns && ConnOk(c)
    requires Replaces(c, h.conns[id]) || NoWrites(h, id)
    ensures HeapInv(SetConn(h, id, c))
  {
    var g := SetConn(h, id, c);
    forall k | 0 <= k < |g.writes| ensures WriteOk(g, g.writes[k]) {
      assert WriteOk(h, h.writes[k]);
    }
  }

  lemma BornInv(h: Heap, c: Conn)
    requires HeapInv(h) && ConnOk(c)
    ensures h.next !in h.conns && HeapInv(SetConn(h.(next := h.next + 1), h.next, c))
  {
    var g := SetConn(h.(next := h.next + 1), h.next, c);
    forall k | 0 <= k < |g.writes| ensures WriteOk(g, g.writes[k]) {
      assert WriteOk(h, h.writes[k]);
    }
  }

  lemma DeleteInv(h: Heap, id: nat)
    requires HeapInv(h) && id in h.conns && NoWrites(h, id)
    ensures HeapInv(Delete(h, id))
  {
    var g := Delete(h, id);
    forall k | 0 <= k < |g.writes| ensures WriteOk(g, g.writes[k]) {
      assert WriteOk(h, h.writes[k]);
    }
  }

  /** Closing is idempotent and never deletes an object of a good heap on the spot. */
  lemma CloseConnInv(h: Heap, id: nat)
    requires HeapInv(h) && id in h.conns
    ensures HeapInv(CloseConn(h, id))
    ensures var g := CloseConn(h, id);
      g == if h.conns[id].closing then h else SetConn(h, id, Closed(h.conns[id]))
  {
    if !h.conns[id].closing {
      SetConnInv(h, id, Closed(h.conns[id]));
    }
  }

  lemma ShutdownConnInv(h: Heap, id: nat, ok: bool)
    requires HeapInv(h) && id in h.conns && !h.conns[id].server && !h.conns[id].connectReq
    ensures HeapInv(ShutdownConn(h, id, ok))
    ensures var c := h.conns[id];
      ShutdownConn(h, id, ok) ==
        if c.closing || (c.shutdown && c.tcpInited) then h
        else SetConn(h, id, if ok then c.(shutdown := true, shutdownReq := true) else Closed(c))
  {
    var c := h.conns[id];
    if c.tcpInited && !c.closing && !c.shutdown && ok {
      SetConnInv(h, id, c.(shutdown := true, shutdownReq := true));
    } else {
      CloseConnInv(h, id);
    }
  }

  /** Nothing but new, higher numbered objects and deletions of such. */
  ghost predicate Grown(h: Heap, g: Heap) {
    && h.next <= g.next && g.writes == h.writes
    && (forall id :: id in h.conns ==> id in g.conns && g.conns[id] == h.conns[id])
    && (forall id :: id in g.conns ==> id in h.conns || id == h.next)
  }

  lemma BornGoneInv(h: Heap)
    requires HeapInv(h)
    ensures HeapInv(h.(next := h.next + 1, deleted := h.deleted + [h.next]))
  {
    var g := h.(next := h.next + 1, deleted := h.deleted + [h.next]);
    assert h.next !in h.conns;
    forall k | 0 <= k < |g.writes| ensures WriteOk(g, g.writes[k]) { assert WriteOk(h, h.writes[k]); }
  }

  /** `CloseConn` of an object just set, in one update. */
  lemma CloseFresh(h: Heap, c: Conn)
    requires HeapInv(h) && (c.tcpInited || c.timerInited) && !c.closing && c.tcpInited
    requires c.tcpCloses == 0 && c.timerCloses == 0 && !c.connectReq && !c.shutdownReq && !c.shutdown && !c.server
    ensures h.next !in h.conns
    ensures var g := CloseConn(SetConn(h.(next := h.next + 1), h.next, c), h.next);
      && g == SetConn(h.(next := h.next + 1), h.next, Closed(c))
      && HeapInv(g) && Grown(h, g)
      && h.next in g.conns && g.conns[h.next].closing && !g.conns[h.next].connectReq && !g.conns[h.next].server
  {
    BornInv(h, Closed(c));
    var g := h.(next := h.next + 1);
    assert SetConn(SetConn(g, h.next, c), h.next, Closed(c)) == SetConn(g, h.next, Closed(c));
  }

  /** An object that goes before any of its handles was initialised. */
  lemma GoneAtOnce(h: Heap)
    requires HeapInv(h)
    ensures var g := CloseConn(SetConn(h.(next := h.next + 1), h.next, BLANK), h.next);
      g == h.(next := h.next + 1, deleted := h.deleted + [h.next]) && HeapInv(g) && Grown(h, g) && h.next !in g.conns
  {
    assert h.next !in h.conns;
    assert SetConn(h, h.next, BLANK).conns - {h.next} == h.conns;
    BornGoneInv(h);
  }

  /** Nothing is left of a new object, or it is closing already. */
  ghost predicate Stillborn(h: Heap, g: Heap) {
    && HeapInv(g) && Grown(h, g)
    && (h.next in g.conns ==> g.conns[h.next].closing && !g.conns[h.next].connectReq && !g.conns[h.next].server)
  }

  lemma NotBorn(h: Heap)
    requires HeapInv(h)
    ensures Stillborn(h, h)
    ensures Stillborn(h, CloseConn(SetConn(h.(next := h.next + 1), h.next, BLANK), h.next))
  {
    NextIsNew(h);
    GoneAtOnce(h);
  }

  lemma ClosedAtBirth(h: Heap, timer: bool)
    requires HeapInv(h)
    ensures Stillborn(h, CloseConn(SetConn(h.(next := h.next + 1), h.next, BLANK.(tcpInited := true, timerInited := timer)), h.next))
  {
    hide HeapInv, Grown, CloseConn, SetConn, Closed;
    CloseFresh(h, BLANK.(tcpInited := true, timerInited := timer));
  }

  lemma AllocFailed(h: Heap, timer: bool, e: AllocEnv)
    requires HeapInv(h) && Alloc(h, timer, e).1.None?
    ensures Stillborn(h, Alloc(h, timer, e).0)
  {
    hide HeapInv, CloseConn, SetConn, Stillborn;
    NotBorn(h);
    ClosedAtBirth(h, false);
    ClosedAtBirth(h, timer);
  }

  lemma AllocMade(h: Heap, timer: bool, e: AllocEnv)
    requires HeapInv(h) && Alloc(h, timer, e).1.Some?
    ensures var (g, made) := Alloc(h, timer, e);
      && made.value == h.next && h.next !in h.conns
      && g == SetConn(h.(next := h.next + 1), h.next, BLANK.(tcpInited := true, timerInited := timer))
  {
    NextIsNew(h);
    hide HeapInv, CloseConn, SetConn;
  }

  /** What an allocation leaves: nothing of it, an object already closing, or the
      new object, open and without a timer running. */
  lemma AllocInv(h: Heap, timer: bool, e: AllocEnv)
    requires HeapInv(h)
    ensures var (g, made) := Alloc(h, timer, e);
      if made.None? then
        HeapInv(g) && Grown(h, g) && (h.next in g.conns ==> g.conns[h.next].closing && !g.conns[h.next].connectReq && !g.conns[h.next].server)
      else
        && made.value == h.next && h.next !in h.conns
        && g == SetConn(h.(next := h.next + 1), h.next, BLANK.(tcpInited := true, timerInited := timer))
  {
    hide HeapInv, Grown, SetConn, Alloc;
    if Alloc(h, timer, e).1.None? { AllocFailed(h, timer, e); } else { AllocMade(h, timer, e); }
  }

  lemma NextIsNew(h: Heap)
    requires HeapInv(h)
    ensures h.next !in h.conns
  {
  }

  lemma AddWriteInv(h: Heap, id: nat, messages: seq<Message>)
    requires HeapInv(h) && id in h.conns && h.conns[id].tcpInited && !h.conns[id].server && !h.conns[id].connectReq
    requires forall i :: 0 <= i < |messages| ==> messages[i].node == h.conns[id].node
    ensures HeapInv(h.(writes := h.writes + [Write(id, messages)]))
  {
    var g := h.(writes := h.writes + [Write(id, messages)]);
    forall k | 0 <= k < |g.writes| ensures WriteOk(g, g.writes[k]) {
      if k < |h.writes| { assert WriteOk(h, h.writes[k]); }
    }
  }

  lemma WithoutWriteInv(h: Heap, k: nat)
    requires HeapInv(h) && k < |h.writes|
    ensures HeapInv(WithoutWrite(h, k))
  {
    var g := WithoutWrite(h, k);
    forall i | 0 <= i < |g.writes| ensures WriteOk(g, g.writes[i]) {
      assert WriteOk(h, if i < k then h.writes[i] else h.writes[i + 1]);
    }
  }

  lemma TcpClosedInv(h: Heap, id: nat)
    requires HeapInv(h) && id in h.conns && h.conns[id].tcpInited && h.conns[id].tcpCloses > 0
    requires !h.conns[id].connectReq && !h.conns[id].shutdownReq && NoWrites(h, id)
    ensures HeapInv(TcpClosed(h, id))
  {
    var c := h.conns[id].(tcpInited := false);
    if c.timerInited { SetConnInv(h, id, c); } else { DeleteInv(h, id); }
  }

  lemma TimerClosedInv(h: Heap, id: nat)
    requires HeapInv(h) && id in h.conns && h.conns[id].timerInited && h.conns[id].timerCloses > 0
    ensures HeapInv(TimerClosed(h, id))
  {
    var c := h.conns[id].(timerInited := false);
    if c.tcpInited {
      SetConnInv(h, id, c);
    } else {
      forall k | 0 <= k < |h.writes| ensures h.writes[k].conn != id { assert WriteOk(h, h.writes[k]); }
      DeleteInv(h, id);
    }
  }
}
