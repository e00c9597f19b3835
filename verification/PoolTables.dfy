/** What the pool's tables say about the connection objects, and what the history of
    notifications says about the tables. */
module PoolTables {
  import opened PoolModel
  import opened PoolHeap

  // -------------------------------------------------------------- invariant

  /** An established connection, filed under its own node. */
  predicate Established(c: Conn, n: Node) {
    c.node == n && !c.closing && !c.shutdown && !c.server && !c.connectReq && n.protocol == Tcp && n.address.Ip?
  }

  predicate Listening(c: Conn, n: Node) {
    c.server && c.node == n && !c.closing && n.protocol == Tcp
  }

  ghost predicate StreamOk(t: Tables, h: Heap) {
    forall n :: n in t.stream ==> t.stream[n] in h.conns && Established(h.conns[t.stream[n]], n)
  }

  ghost predicate ServersOk(t: Tables, h: Heap) {
    && (forall n :: n in t.servers ==> t.servers[n] in h.conns && Listening(h.conns[t.servers[n]], n))
    && (forall id :: id in h.conns && h.conns[id].server && !h.conns[id].closing ==>
          h.conns[id].node in t.servers && t.servers[h.conns[id].node] == id)
    && (forall n :: n in t.udpServers ==> n.protocol == Udp)
  }

  /** The connecting set holds only objects libuv is still connecting, and all of
      those that are open. */
  ghost predicate ConnectingOk(t: Tables, h: Heap) {
    && (forall id :: id in t.connecting ==>
          id in h.conns && h.conns[id].connectReq && !h.conns[id].server
          && h.conns[id].node.protocol == Tcp && h.conns[id].node.address.Ip?)
    && (forall id :: id in h.conns && h.conns[id].connectReq && !h.conns[id].closing ==> id in t.connecting)
  }

  /** An open object that is connecting to `n`. */
  predicate Dialing(t: Tables, h: Heap, n: Node, id: nat) {
    id in t.connecting && id in h.conns && h.conns[id].node == n && !h.conns[id].closing
  }

  predicate AllFor(messages: seq<Message>, n: Node) {
    forall i :: 0 <= i < |messages| ==> messages[i].node == n
  }

  /** Nothing is stranded: messages wait only for a node without a stream, and only
      while an open object is connecting to that node. */
  ghost predicate WaitingOk(t: Tables, h: Heap) {
    forall n :: n in t.waiting ==>
      n !in t.stream && t.waiting[n] != [] && AllFor(t.waiting[n], n) && exists id :: Dialing(t, h, n, id)
  }

  ghost predicate TablesInv(t: Tables, h: Heap) {
    StreamOk(t, h) && ServersOk(t, h) && ConnectingOk(t, h) && WaitingOk(t, h)
  }

  predicate NoTables(t: Tables) {
    t == Tables(map[], {}, map[], {}, map[])
  }

  /** The last notification about `n` said up. */
  predicate Up(log: seq<Status>, n: Node)
    decreases |log|
  {
    log != [] &&
    var last := log[|log| - 1];
    if last.node == n then last.up else Up(log[..|log| - 1], n)
  }

  ghost predicate StatusOk(log: seq<Status>, stream: map<Node, nat>) {
    forall n :: Up(log, n) <==> n in stream
  }

  ghost predicate BoundOk(log: seq<Status>, t: Tables) {
    forall n :: Up(log, n) <==> n in t.servers || n in t.udpServers
  }

  /** Up is only ever reported for a node that is not up. */
  predicate Alternates(log: seq<Status>)
    decreases |log|
  {
    log == [] ||
    var last := log[|log| - 1];
    var front := log[..|log| - 1];
    Alternates(front) && (last.up ==> !Up(front, last.node))
  }

  ghost predicate Inv(s: Pool) {
    && HeapInv(s.h) && TablesInv(s.t, s.h)
    && StatusOk(s.log.status, s.t.stream) && Alternates(s.log.status)
    && BoundOk(s.log.bound, s.t)
  }

  lemma InvLinked(s: Pool)
    requires Inv(s)
    ensures Linked(s)
  {
    forall k | 0 <= k < |s.h.writes| ensures s.h.writes[k].conn in s.h.conns { assert WriteOk(s.h, s.h.writes[k]); }
  }

  // --------------------------------------------------------------- the log

  lemma UpSnoc(log: seq<Status>, e: Status, n: Node)
    ensures Up(log + [e], n) == if e.node == n then e.up else Up(log, n)
  {
    assert (log + [e])[..|log|] == log;
  }

  lemma UpReported(log: seq<Status>, stream: map<Node, nat>, node: Node, up: bool, stream': map<Node, nat>)
    requires StatusOk(log, stream) && Alternates(log)
    requires up ==> node !in stream && stream'.Keys == stream.Keys + {node}
    requires !up ==> stream'.Keys == stream.Keys - {node}
    ensures StatusOk(log + [Status(node, up)], stream') && Alternates(log + [Status(node, up)])
  {
    assert (log + [Status(node, up)])[..|log|] == log;
    forall n ensures Up(log + [Status(node, up)], n) <==> n in stream' {
      UpSnoc(log, Status(node, up), n);
    }
  }

  lemma BoundReported(log: seq<Status>, t: Tables, node: Node, up: bool, t': Tables)
    requires BoundOk(log, t)
    requires up <==> node in t'.servers || node in t'.udpServers
    requires forall n :: n != node ==> (n in t'.servers <==> n in t.servers) && (n in t'.udpServers <==> n in t.udpServers)
    ensures BoundOk(log + [Status(node, up)], t')
  {
    forall n ensures Up(log + [Status(node, up)], n) <==> n in t'.servers || n in t'.udpServers {
      UpSnoc(log, Status(node, up), n);
    }
  }

  // ------------------------------------- heap changes that keep the tables right

  predicate SameRole(c: Conn, b: Conn) {
    c.node == b.node && c.server == b.server && c.closing == b.closing && c.shutdown == b.shutdown && c.connectReq == b.connectReq
  }

  /** Nothing the tables look at changes for old objects, and new ones are on their
      way out. */
  ghost predicate RolesKept(h: Heap, g: Heap) {
    && (forall id :: id in h.conns ==> id in g.conns && SameRole(g.conns[id], h.conns[id]))
    && (forall id :: id in g.conns && id !in h.conns ==>
          (g.conns[id].closing || !g.conns[id].server) && (g.conns[id].closing || !g.conns[id].connectReq))
  }

  lemma TablesKept(t: Tables, h: Heap, g: Heap)
    requires TablesInv(t, h) && RolesKept(h, g)
    ensures TablesInv(t, g)
  {
    forall n | n in t.waiting ensures exists id :: Dialing(t, g, n, id) {
      var id :| Dialing(t, h, n, id);
      assert Dialing(t, g, n, id);
    }
  }

  ghost predicate Unfiled(t: Tables, id: nat) {
    (forall n :: n in t.stream ==> t.stream[n] != id) && (forall n :: n in t.servers ==> t.servers[n] != id)
  }

  /** An object no table entry leads to may shut down or close, unless messages wait
      for it to connect. */
  lemma TablesOther(t: Tables, h: Heap, id: nat, c: Conn)
    requires TablesInv(t, h) && id in h.conns && Unfiled(t, id)
    requires var b := h.conns[id];
      && c.node == b.node && c.server == b.server && c.connectReq == b.connectReq && (b.closing ==> c.closing)
      && (b.node !in t.waiting || id !in t.connecting)
    ensures TablesInv(t, SetConn(h, id, c))
  {
    var g := SetConn(h, id, c);
    assert h.conns[id].server ==> h.conns[id].closing;
    forall n | n in t.waiting ensures exists i :: Dialing(t, g, n, i) {
      var i :| Dialing(t, h, n, i);
      assert Dialing(t, g, n, i);
    }
  }

  /** A closed object without a pending connect leaves no trace in the tables. */
  lemma TablesGone(t: Tables, h: Heap, id: nat, g: Heap)
    requires TablesInv(t, h) && id in h.conns && h.conns[id].closing && !h.conns[id].connectReq
    requires g.conns == h.conns - {id}
    ensures TablesInv(t, g)
  {
    forall n | n in t.waiting ensures exists i :: Dialing(t, g, n, i) {
      var i :| Dialing(t, h, n, i);
      assert Dialing(t, g, n, i);
    }
  }

  /** Forgetting a node's stream and its waiting messages. */
  lemma TablesWithout(t: Tables, h: Heap, node: Node)
    requires TablesInv(t, h)
    ensures TablesInv(t.(stream := t.stream - {node}, waiting := t.waiting - {node}), h)
  {
    var t' := t.(stream := t.stream - {node}, waiting := t.waiting - {node});
    forall n | n in t'.waiting ensures exists i :: Dialing(t', h, n, i) {
      var i :| Dialing(t, h, n, i);
      assert Dialing(t', h, n, i);
    }
  }

  /** Filing a new stream; what waited for it no longer waits. */
  lemma TablesUp(t: Tables, h: Heap, id: nat, node: Node)
    requires TablesInv(t, h) && id in h.conns && Established(h.conns[id], node) && node !in t.stream
    ensures TablesInv(t.(stream := t.stream[node := id], waiting := t.waiting - {node}), h)
  {
    var t' := t.(stream := t.stream[node := id], waiting := t.waiting - {node});
    forall n | n in t'.waiting ensures exists i :: Dialing(t', h, n, i) {
      var i :| Dialing(t, h, n, i);
      assert Dialing(t', h, n, i);
    }
  }

  // ------------------------------------------------------------- operations

  lemma DropWaitingIs(s: Pool, node: Node)
    ensures DropWaiting(s, node).t == s.t.(waiting := s.t.waiting - {node})
    ensures DropWaiting(s, node).q == s.q && DropWaiting(s, node).p == s.p && DropWaiting(s, node).h == s.h
    ensures DropWaiting(s, node).log.status == s.log.status && DropWaiting(s, node).log.bound == s.log.bound
  {
    if node !in s.t.waiting {
      assert s.t.waiting - {node} == s.t.waiting;
    }
  }

  /** The tables, notifications and queues after `shutdownTcpConnection`. */
  lemma ShutdownIs(s: Pool, id: nat, always: bool, graceful: bool, ok: bool)
    requires id in s.h.conns
    ensures var node := s.h.conns[id].node; var r := Shutdown(s, id, always, graceful, ok);
      && r.t == s.t.(stream := s.t.stream - {node}, waiting := s.t.waiting - {node})
      && r.h == (if graceful then ShutdownConn(s.h, id, ok) else CloseConn(s.h, id))
      && r.q == s.q && r.p == s.p && r.log.bound == s.log.bound
      && r.log.status == s.log.status + (if node in s.t.stream || always then [Status(node, false)] else [])
  {
    hide CloseConn, ShutdownConn;
    var node := s.h.conns[id].node;
    var erased := s.(t := s.t.(stream := s.t.stream - {node}));
    var told := if node in s.t.stream || always then Report(erased, node, false) else erased;
    DropWaitingIs(told, node);
    assert s.log.status + [] == s.log.status;
  }

  lemma ShutdownInv(s: Pool, id: nat, always: bool, graceful: bool, ok: bool)
    requires Inv(s) && id in s.h.conns && !s.h.conns[id].server && (graceful ==> !s.h.conns[id].connectReq)
    ensures Inv(Shutdown(s, id, always, graceful, ok))
  {
    hide HeapInv, Shutdown, TablesInv, ConnOk, Alternates, StatusOk, BoundOk;
    var c := s.h.conns[id];
    var r := Shutdown(s, id, always, graceful, ok);
    ShutdownIs(s, id, always, graceful, ok);
    TablesWithout(s.t, s.h, c.node);
    UnfiledAfter(s, id);
    CloseConnInv(s.h, id);
    if graceful {
      ShutdownConnInv(s.h, id, ok);
    }
    if r.h != s.h {
      TablesOther(r.t, s.h, id, r.h.conns[id]);
    }
    if c.node in s.t.stream || always {
      UpReported(s.log.status, s.t.stream, c.node, false, r.t.stream);
    } else {
      assert s.t.stream - {c.node} == s.t.stream;
      assert s.log.status + [] == s.log.status;
    }
    BoundSame(s.log.bound, s.t, r.t);
  }

  lemma BoundSame(log: seq<Status>, t: Tables, t': Tables)
    requires BoundOk(log, t) && t'.servers == t.servers && t'.udpServers == t.udpServers
    ensures BoundOk(log, t')
  {
  }

  lemma UnfiledAfter(s: Pool, id: nat)
    requires TablesInv(s.t, s.h) && id in s.h.conns && !s.h.conns[id].server
    ensures Unfiled(s.t.(stream := s.t.stream - {s.h.conns[id].node}, waiting := s.t.waiting - {s.h.conns[id].node}), id)
  {
  }
}
