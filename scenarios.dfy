/**
 * Client code that drives the handle classes through the sequences their
 * documentation describes, using nothing but the classes' contracts.
 */
module Scenarios {
  import opened Options
  import opened CallbackKinds
  import opened Callbacks
  import opened Handles
  import opened EventLoop

  /**
   * A server bound and then unbound successfully holds no handle, and a
   * second `close` is a no-op success that calls nothing.
   */
  method ServerOpenThenClose(mask: Mask, ctx: ContextPtr, uri: Uri, h: ServerHandle, anyResult: int)
    returns (held: Option<ServerHandle>, first: int, second: int, secondUnbound: Option<ServerHandle>)
    ensures held == None
    ensures first == 0 && second == 0 && secondUnbound == None
  {
    var srv := new Server(mask);
    var _, _ := srv.Open(ctx, uri, 0, 0, Some(h));
    var r1, _ := srv.Close(0);
    first := r1;
    second, secondUnbound := srv.Close(anyResult);
    held := srv.server;
  }

  /**
   * A failed unbind keeps the handle, so a later `close` is still meaningful
   * and unbinds the same handle.
   */
  method ServerCloseRetry(mask: Mask, ctx: ContextPtr, uri: Uri, h: ServerHandle, failure: int)
    returns (first: int, retried: Option<ServerHandle>, held: Option<ServerHandle>)
    requires failure != 0
    ensures first == failure
    ensures retried == Some(h) && held == None
  {
    var srv := new Server(mask);
    var _, _ := srv.Open(ctx, uri, 0, 0, Some(h));
    var r1, _ := srv.Close(failure);
    first := r1;
    var _, u := srv.Close(0);
    retried := u;
    held := srv.server;
  }

  /**
   * `open` on a bound server is not refused: a failed second bind replaces
   * the first handle with NULL, and the first handle is no longer held.
   */
  method ServerReopenOverwrites(mask: Mask, ctx: ContextPtr, uri: Uri, h: ServerHandle)
    returns (first: Option<ServerHandle>, second: Option<ServerHandle>, held: Option<ServerHandle>)
    ensures first == Some(h) && second == None && held == None
  {
    var srv := new Server(mask);
    var h1, _ := srv.Open(ctx, uri, 0, 0, Some(h));
    var h2, _ := srv.Open(ctx, uri, 0, 0, None);
    first, second := h1, h2;
    held := srv.server;
  }

  /**
   * A frame property of the adapter: `close` on a server writes only the
   * server object, so every session and connection object stays as it was.
   */
  method ServerCloseLeavesSessions(srv: Server, sess: RequestSession, conn: Connection, unbindResult: int)
    modifies srv
    ensures sess.session == old(sess.session) && conn.connection == old(conn.connection)
    ensures conn.session == old(conn.session)
  {
    var _, _ := srv.Close(unbindResult);
  }

  /**
   * A second `open` on a connected connection is refused with NULL and
   * leaves the first connection and its session in place, even when the
   * second `open` is given a NULL session.
   */
  method ConnectionReopenRejected(sh: SessionHandle, c1: ConnectionHandle, c2: Option<ConnectionHandle>)
    returns (first: Option<ConnectionHandle>, second: Option<ConnectionHandle>,
             held: Option<ConnectionHandle>, owner: RequestSession?, asked: Option<ConnectCall>)
    ensures first == Some(c1) && second == None && held == Some(c1)
    ensures owner != null && owner.session == Some(sh)
    ensures asked == None
  {
    var sess := new RequestSession(CB_NONE);
    var _, _ := sess.Open("rdma://peer", 0, 0, 0, 0, Some(sh));
    var conn := new Connection();
    var h1, _ := conn.Open(sess, 0, 0, Some(c1));
    first := h1;
    second, asked := conn.Open(null, 0, 0, c2);
    held := conn.connection;
    owner := conn.session;
  }

  /**
   * The client's shutdown order: once a connection is made the session may
   * be closed only after teardown, and the connection only after its
   * closed event; then both end up empty.
   */
  method ClientShutdown(mask: Mask, sh: SessionHandle, ch: ConnectionHandle)
    returns (sessionHeld: Option<SessionHandle>, connectionHeld: Option<ConnectionHandle>, closeResult: int)
    ensures sessionHeld == None && connectionHeld == None && closeResult == 0
  {
    var sess := new RequestSession(mask);
    var _, _ := sess.Open("rdma://peer", 0, 0, 0, 0, Some(sh));
    var conn := new Connection();
    var _, _ := conn.Open(sess, 0, 0, Some(ch));
    assert !sess.MayClose();
    conn.ConnectionClosedEvent();
    conn.Close();
    sess.TeardownEvent();
    var r, _ := sess.Close(0);
    closeResult := r;
    sessionHeld := sess.session;
    connectionHeld := conn.connection;
  }

  /**
   * The transport library registers a descriptor with the reactor and the
   * reactor later reports it ready: each direction ends in exactly one call
   * of the registered readiness function, with the registered data and
   * event 0, and the handler asks to stay registered.
   */
  method RegisterThenReady(reactor: ReactorPtr, fd: Fd, events: bv32, handler: EvHandlerFn, data: DataPtr,
                           registerResult: int)
    returns (inputCalls: seq<EvCall>, outputCalls: seq<EvCall>, inputResult: int, outputResult: int)
    ensures inputCalls == [EvCall(handler, fd, 0, data)] && inputResult == 0
    ensures outputCalls == [EvCall(handler, fd, 0, data)] && outputResult == 0
  {
    var _, registration := AddXioHandler(reactor, fd, events, handler, data, registerResult);
    var h := registration.handler;
    var readyFd := h.GetHandle();
    inputResult, inputCalls := h.HandleInput(readyFd);
    outputResult, outputCalls := h.HandleOutput(readyFd);
  }
}
