/**
 * The three long-lived handle classes, `XIO_Server`, `XIO_Reqeust_Session`
 * and `XIO_Connection`. Each holds a nullable native handle that `open`
 * sets and `close` clears.
 *
 * Every transport-library call is foreign. The value it returns (xio_bind,
 * xio_unbind, xio_session_open, xio_session_close, xio_connect) is a method
 * parameter, so every outcome is covered; the arguments it receives are
 * returned as a record. The usage rules the header documents for `close`
 * become preconditions over ghost flags that record which transport
 * notifications have arrived.
 */
module Handles {
  import opened Options
  import opened CallbackKinds
  import opened Callbacks

  /** A non-NULL `xio_server*`. */
  datatype ServerHandle = ServerHandle(addr: nat)
  /** A non-NULL `xio_session*`. */
  datatype SessionHandle = SessionHandle(addr: nat)
  /** A non-NULL `xio_connection*`. */
  datatype ConnectionHandle = ConnectionHandle(addr: nat)

  /** `xio_context*` */
  type ContextPtr = nat
  /** `uint16_t*` for the returned listen port (0 for NULL) */
  type PortPtr = nat
  /** `void*` user context blob */
  type BlobPtr = nat
  type Uri = string

  type Int32 = x: int | -0x8000_0000 <= x < 0x8000_0000
  type UInt32 = x: int | 0 <= x < 0x1_0000_0000
  type SizeT = x: int | 0 <= x < 0x1_0000_0000_0000_0000

  /** The session types of the transport library; this layer opens request sessions only. */
  datatype SessionType = XIO_SESSION_REQ

  /**
   * The arguments of `xio_bind (ctx, &ops, uri, src_port, flags, this)`:
   * the table built from the server's mask, and the server object itself as
   * the callback user context.
   */
  datatype BindCall = BindCall(ctx: ContextPtr, ops: Ops, uri: Uri, srcPort: PortPtr, flags: Int32,
                               cbUserContext: Server)

  /** The fields of `xio_session_attr` that `open` sets; the rest stay zero. */
  datatype SessionAttr = SessionAttr(sesOps: Ops, userContext: BlobPtr, userContextLen: SizeT)

  /** The arguments of `xio_session_open (XIO_SESSION_REQ, &attr, uri, initial_sn, flags, this)`. */
  datatype SessionOpenCall = SessionOpenCall(sessionType: SessionType, attr: SessionAttr, uri: Uri,
                                             initialSn: UInt32, flags: UInt32,
                                             cbUserContext: RequestSession)

  /** The arguments of `xio_connect (session, ctx, conn_idx, this)`. */
  datatype ConnectCall = ConnectCall(session: Option<SessionHandle>, ctx: ContextPtr, connIdx: Int32,
                                     connUserContext: Connection)

  /** `XIO_Server`: a listening endpoint. */
  class Server {
    /** `implemented_callbacks_` */
    const implementedCallbacks: Mask
    /** `server_`: NULL before `open` */
    var server: Option<ServerHandle>

    constructor (implementedCallbacks: Mask)
      ensures this.implementedCallbacks == implementedCallbacks
      ensures server == None
    {
      this.implementedCallbacks := implementedCallbacks;
      server := None;
    }

    /**
     * `open`: fills a callback table from the mask and binds. Whatever
     * `xio_bind` returns, NULL included, replaces `server_` and is returned;
     * an earlier handle is not checked for.
     */
    method Open(ctx: ContextPtr, uri: Uri, srcPort: PortPtr, flags: Int32, bound: Option<ServerHandle>)
      returns (r: Option<ServerHandle>, bind: BindCall)
      modifies this
      ensures bind == BindCall(ctx, OpsFor(implementedCallbacks), uri, srcPort, flags, this)
      ensures server == bound && r == bound
    {
      var ops := new Option<Kind>[|AllKinds|];
      FillCallbacks(implementedCallbacks, ops);
      bind := BindCall(ctx, ops[..], uri, srcPort, flags, this);
      server := bound;
      r := server;
    }

    /**
     * `close`: with no handle, succeeds with 0 and calls nothing. Otherwise
     * unbinds (`unbound` is the handle passed to `xio_unbind`) and returns
     * its result; the handle is cleared only when that result is 0.
     */
    method Close(unbindResult: int) returns (r: int, unbound: Option<ServerHandle>)
      modifies this
      ensures unbound == old(server)
      ensures r == if old(server).None? then 0 else unbindResult
      ensures server == if old(server).Some? && unbindResult == 0 then None else old(server)
    {
      if server.None? {
        return 0, None;
      }
      unbound := server;
      r := unbindResult;
      if r == 0 {
        server := None;
      }
    }

    /** The accessor `server ()`. */
    method GetServer() returns (h: Option<ServerHandle>)
      ensures h == server
    {
      h := server;
    }

    /** The destructor: calls `close` exactly when a handle is held. */
    method Destroy(unbindResult: int) returns (closeCalled: bool, unbound: Option<ServerHandle>)
      modifies this
      ensures closeCalled == old(server).Some?
      ensures unbound == old(server)
      ensures server == if old(server).Some? && unbindResult == 0 then None else old(server)
    {
      closeCalled := server.Some?;
      unbound := None;
      if server.Some? {
        var _, u := Close(unbindResult);
        unbound := u;
      }
    }
  }

  /** `XIO_Reqeust_Session`: a client-side request session. */
  class RequestSession {
    /** `implemented_callbacks_`: the session's own callbacks and those of its connections */
    const implementedCallbacks: Mask
    /** `session_`: NULL before `open` */
    var session: Option<SessionHandle>
    /** A connection has been made under the current session. */
    ghost var connectionsMade: bool
    /** The transport library has delivered the session-teardown event. */
    ghost var teardownReceived: bool

    constructor (implementedCallbacks: Mask)
      ensures this.implementedCallbacks == implementedCallbacks
      ensures session == None
      ensures !connectionsMade && !teardownReceived
    {
      this.implementedCallbacks := implementedCallbacks;
      session := None;
      connectionsMade := false;
      teardownReceived := false;
    }

    /** The header's rule for `close`: no connection was made, or teardown has arrived. */
    ghost predicate MayClose()
      reads this
    {
      !connectionsMade || teardownReceived
    }

    /**
     * `open`: builds the table from the mask, puts it with the caller's
     * user context blob and its length, unchanged, into the session
     * attributes, and opens a request session. Whatever `xio_session_open`
     * returns, NULL included, replaces `session_` and is returned.
     */
    method Open(uri: Uri, initialSn: UInt32, flags: UInt32, userContext: BlobPtr, userContextLen: SizeT,
                openResult: Option<SessionHandle>)
      returns (r: Option<SessionHandle>, call: SessionOpenCall)
      modifies this
      ensures call == SessionOpenCall(XIO_SESSION_REQ,
                                      SessionAttr(OpsFor(implementedCallbacks), userContext, userContextLen),
                                      uri, initialSn, flags, this)
      ensures session == openResult && r == openResult
      ensures !connectionsMade && !teardownReceived
    {
      var ops := new Option<Kind>[|AllKinds|];
      FillCallbacks(implementedCallbacks, ops);
      var attr := SessionAttr(ops[..], userContext, userContextLen);
      call := SessionOpenCall(XIO_SESSION_REQ, attr, uri, initialSn, flags, this);
      session := openResult;
      connectionsMade, teardownReceived := false, false;
      r := session;
    }

    /**
     * `close`: with no handle, succeeds with 0 and calls nothing. Otherwise
     * closes the session (`closed` is the handle passed to
     * `xio_session_close`) and returns the result; the handle is cleared only
     * when that result is 0.
     */
    method Close(closeResult: int) returns (r: int, closed: Option<SessionHandle>)
      requires MayClose()
      modifies this
      ensures closed == old(session)
      ensures r == if old(session).None? then 0 else closeResult
      ensures session == if old(session).Some? && closeResult == 0 then None else old(session)
      ensures connectionsMade == old(connectionsMade) && teardownReceived == old(teardownReceived)
    {
      if session.None? {
        return 0, None;
      }
      closed := session;
      r := closeResult;
      if r == 0 {
        session := None;
      }
    }

    /** The transport library delivers XIO_SESSION_TEARDOWN_EVENT for this session. */
    ghost method TeardownEvent()
      modifies this
      ensures teardownReceived
      ensures session == old(session) && connectionsMade == old(connectionsMade)
    {
      teardownReceived := true;
    }

    /** The accessor `session ()`. */
    method GetSession() returns (h: Option<SessionHandle>)
      ensures h == session
    {
      h := session;
    }

    /** The destructor: calls `close` exactly when a handle is held. */
    method Destroy(closeResult: int) returns (closeCalled: bool, closed: Option<SessionHandle>)
      requires session.Some? ==> MayClose()
      modifies this
      ensures closeCalled == old(session).Some?
      ensures closed == old(session)
      ensures session == if old(session).Some? && closeResult == 0 then None else old(session)
    {
      closeCalled := session.Some?;
      closed := None;
      if session.Some? {
        var _, c := Close(closeResult);
        closed := c;
      }
    }
  }

  /** `XIO_Connection`: one connection inside a request session. */
  class Connection {
    /** `implemented_callbacks_`, always XIO_CB_NONE: a connection's callbacks come from its session's table */
    const implementedCallbacks: Mask
    /** `session_`: the owning session, not owned; NULL before `open` */
    var session: RequestSession?
    /** `connection_`: NULL before `open` */
    var connection: Option<ConnectionHandle>
    /** The transport library has delivered XIO_SESSION_CONNECTION_CLOSED_EVENT for this connection. */
    ghost var closedNotified: bool

    /** A held connection always has its owning session recorded. */
    ghost predicate Valid()
      reads this
    {
      connection.Some? ==> session != null
    }

    constructor ()
      ensures Valid()
      ensures implementedCallbacks == CB_NONE
      ensures session == null && connection == None
      ensures !closedNotified
    {
      implementedCallbacks := CB_NONE;
      session := null;
      connection := None;
      closedNotified := false;
    }

    /**
     * `open`: refused with NULL, and nothing changed, while a connection is
     * held; the session argument is then not looked at and may be NULL.
     * Otherwise the session is dereferenced, so it must not be NULL: `open`
     * records it as the owner and connects inside its current handle;
     * whatever `xio_connect` returns, NULL included, becomes `connection_`
     * and is returned.
     */
    method Open(s: RequestSession?, ctx: ContextPtr, connIdx: Int32, connected: Option<ConnectionHandle>)
      returns (r: Option<ConnectionHandle>, connect: Option<ConnectCall>)
      requires Valid()
      requires connection.None? ==> s != null
      modifies this, s
      ensures Valid()
      ensures old(connection).Some? ==>
        && r == None && connect == None
        && session == old(session) && connection == old(connection)
        && closedNotified == old(closedNotified)
        && (s != null ==> s.connectionsMade == old(s.connectionsMade))
      ensures old(connection).None? ==>
        && s != null
        && connect == Some(ConnectCall(old(s.session), ctx, connIdx, this))
        && session == s && connection == connected && r == connected
        && !closedNotified && s.connectionsMade == (old(s.connectionsMade) || connected.Some?)
      ensures s != null ==> s.session == old(s.session) && s.teardownReceived == old(s.teardownReceived)
    {
      if connection.Some? {
        return None, None;
      }
      session := s;
      var sessionHandle := session.GetSession();
      connect := Some(ConnectCall(sessionHandle, ctx, connIdx, this));
      connection := connected;
      closedNotified := false;
      s.connectionsMade := s.connectionsMade || connected.Some?;
      r := connection;
    }

    /** The transport library delivers XIO_SESSION_CONNECTION_CLOSED_EVENT for this connection. */
    ghost method ConnectionClosedEvent()
      requires Valid()
      modifies this
      ensures Valid()
      ensures closedNotified
      ensures session == old(session) && connection == old(connection)
    {
      closedNotified := true;
    }

    /**
     * `close`: marks the connection closed by clearing both fields; it makes
     * no transport-library call. Allowed only after the connection-closed
     * event.
     */
    method Close()
      requires Valid() && closedNotified
      modifies this
      ensures Valid()
      ensures session == null && connection == None
      ensures closedNotified == old(closedNotified)
    {
      session := null;
      connection := None;
    }

    /** The accessor `session ()`: never NULL while a connection is held. */
    method GetSession() returns (s: RequestSession?)
      requires Valid()
      ensures s == session
      ensures connection.Some? ==> s != null
    {
      s := session;
    }

    /** The accessor `connection ()`. */
    method GetConnection() returns (h: Option<ConnectionHandle>)
      ensures h == connection
    {
      h := connection;
    }

    /** The destructor: calls `close` exactly when a connection is held. */
    method Destroy() returns (closeCalled: bool)
      requires Valid() && (connection.Some? ==> closedNotified)
      modifies this
      ensures Valid()
      ensures closeCalled == old(connection).Some?
      ensures closeCalled ==> session == null && connection == None
      ensures !closeCalled ==> session == old(session) && connection == old(connection)
    {
      closeCalled := connection.Some?;
      if connection.Some? {
        Close();
      }
    }
  }
}
