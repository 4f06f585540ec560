/**
 * The bridge between the transport library's event-loop operations and the
 * ACE reactor: the `XIO_Event_Handler` wrapper the reactor dispatches to,
 * and the add/remove loop operations that register it.
 *
 * The reactor itself is foreign: what it answers to a registration or a
 * removal is a parameter, and the request it receives is returned as a record.
 */
module EventLoop {

  /** ACE_HANDLE, a POSIX file descriptor. */
  type Fd = int
  /** The opaque `void*` data the transport library registers with a handler. */
  type DataPtr = nat
  /** An `xio_ev_handler_t`: the address of the transport library's readiness function. */
  type EvHandlerFn = nat
  /** The `void*` that stands for the ACE_Reactor. */
  type ReactorPtr = nat

  /** The transport library's readiness directions (values of its xio_ev_loop_events enumeration). */
  const XIO_POLLIN: bv32 := 0x001
  const XIO_POLLOUT: bv32 := 0x002

  /** The reactor's masks (ACE_Event_Handler, select-based build). */
  const READ_MASK: bv32 := 0x01
  const WRITE_MASK: bv32 := 0x02
  const ALL_EVENTS_MASK: bv32 := 0x1FF

  /** One call `handler (fd, events, data)` of the transport library's readiness function. */
  datatype EvCall = EvCall(handler: EvHandlerFn, fd: Fd, events: int, data: DataPtr)

  /** `XIO_Event_Handler`: binds one descriptor to one transport readiness function and its data. */
  class EventHandler {
    const fd: Fd
    const handler: EvHandlerFn
    const data: DataPtr

    constructor (fd: Fd, handler: EvHandlerFn, data: DataPtr)
      ensures this.fd == fd && this.handler == handler && this.data == data
    {
      this.fd := fd;
      this.handler := handler;
      this.data := data;
    }

    /** `get_handle` */
    method GetHandle() returns (h: Fd)
      ensures h == fd
    {
      h := fd;
    }

    /**
     * `handle_input`: calls the stored readiness function exactly once, with
     * the descriptor the reactor passes, event value 0 and the stored data,
     * and returns 0 (stay registered).
     */
    method HandleInput(readyFd: Fd) returns (r: int, calls: seq<EvCall>)
      ensures r == 0
      ensures calls == [EvCall(handler, readyFd, 0, data)]
    {
      calls := [EvCall(handler, readyFd, 0, data)];
      r := 0;
    }

    /** `handle_output`: the same as `handle_input`; the direction is not passed on. */
    method HandleOutput(readyFd: Fd) returns (r: int, calls: seq<EvCall>)
      ensures r == 0
      ensures calls == [EvCall(handler, readyFd, 0, data)]
    {
      calls := [EvCall(handler, readyFd, 0, data)];
      r := 0;
    }
  }

  /** The request `reactor->register_handler (handler, mask)`. */
  datatype Registration = Registration(reactor: ReactorPtr, handler: EventHandler, mask: bv32)

  /** The request `reactor->remove_handler (fd, mask)`. */
  datatype Removal = Removal(reactor: ReactorPtr, fd: Fd, mask: bv32)

  /**
   * `static_add_xio_handler`: translates the transport library's directions
   * into the reactor's mask, wraps (fd, handler, data) in a new
   * `XIO_Event_Handler` and registers it; the reactor's answer
   * `registerResult` is returned as it is.
   */
  method AddXioHandler(reactor: ReactorPtr, fd: Fd, events: bv32, handler: EvHandlerFn, data: DataPtr,
                       registerResult: int)
    returns (r: int, registration: Registration)
    ensures registration.reactor == reactor
    ensures registration.handler.fd == fd
    ensures registration.handler.handler == handler && registration.handler.data == data
    ensures (registration.mask & READ_MASK != 0) <==> (events & XIO_POLLIN != 0)
    ensures (registration.mask & WRITE_MASK != 0) <==> (events & XIO_POLLOUT != 0)
    ensures registration.mask & !(READ_MASK | WRITE_MASK) == 0
    ensures r == registerResult
  {
    var mask: bv32 := 0;
    if events & XIO_POLLIN != 0 {
      mask := mask | READ_MASK;
    }
    if events & XIO_POLLOUT != 0 {
      mask := mask | WRITE_MASK;
    }
    var h := new EventHandler(fd, handler, data);
    registration := Registration(reactor, h, mask);
    r := registerResult;
  }

  /**
   * `static_remove_xio_handler`: asks the reactor to stop watching `fd` for
   * every event; the reactor's answer is returned as it is.
   */
  method RemoveXioHandler(reactor: ReactorPtr, fd: Fd, removeResult: int)
    returns (r: int, removal: Removal)
    ensures removal.fd == fd && removal.reactor == reactor
    ensures removal.mask & READ_MASK != 0 && removal.mask & WRITE_MASK != 0
    ensures removal.mask == ALL_EVENTS_MASK
    ensures r == removeResult
  {
    removal := Removal(reactor, fd, ALL_EVENTS_MASK);
    r := removeResult;
  }
}
