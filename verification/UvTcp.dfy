/** `Ctcp`: a connection object with its two libuv handles. The flags are the object's
    own; the ghost fields are what libuv knows about the handles, which the program
    cannot read. */
module UvTcp {
  import opened PoolModel

  class Ctcp {
    ghost const id: nat
    var node: Node
    var tcpInited: bool
    var timerInited: bool
    var closing: bool
    var shutdown: bool
    // libuv: listening, a running timer, reading, requests to be answered, closed handles.
    ghost var server: bool
    ghost var armed: bool
    ghost var reading: bool
    ghost var connectReq: bool
    ghost var shutdownReq: bool
    ghost var tcpCloses: nat
    ghost var timerCloses: nat

    ghost function View(): Conn
      reads this
    {
      Conn(node, server, tcpInited, timerInited, closing, shutdown, armed, reading, connectReq, shutdownReq, tcpCloses, timerCloses)
    }

    constructor (ghost id: nat)
      ensures this.id == id && View() == BLANK
    {
      this.id := id;
      node := NO_NODE;
      tcpInited, timerInited, closing, shutdown := false, false, false, false;
      server, armed, reading, connectReq, shutdownReq := false, false, false, false, false;
      tcpCloses, timerCloses := 0, 0;
    }

    /** `uv_close` on every initialised handle; libuv stops the timer and reading. */
    method CloseHandles()
      requires !closing
      modifies this
      ensures View() == Closed(old(View()))
    {
      // Both close callbacks are asked for if the handle is initialised.
      if tcpInited {
        tcpCloses, reading := tcpCloses + 1, false;
      }
      if timerInited {
        timerCloses, armed := timerCloses + 1, false;
      }
      armed, reading := false, false;
      closing := true;
    }
  }
}
