# xio/ACE session adapter — a Dafny model

This project models the adapter layer between the Accelio transport library (libxio) and the ACE reactor: `xio_ace_session.h` and `xio_ace_session.cpp`. It has three parts.

- **Callback capabilities.** `XIO_Callback_Implementor` carries a `Callback` mask of eight single-bit flags. Its eight virtual callbacks have defaults that return 0. `fill_callbacks` zeroes a native `xio_session_ops` table and installs the static trampoline of every kind whose flag is set. Each trampoline turns the transport library's opaque user context back into the receiver. It returns -1 on a NULL context and otherwise returns exactly what the receiver's method returns.
- **Event-loop bridge.** `static_add_xio_handler` translates the transport library's `XIO_POLLIN`/`XIO_POLLOUT` into the reactor's `READ_MASK`/`WRITE_MASK`. It then registers an `XIO_Event_Handler`. On either input or output readiness, that handler calls the transport library's readiness function once, with the descriptor, event 0 and the registered data. `static_remove_xio_handler` removes a descriptor for all events.
- **Handle lifecycles.** `XIO_Server`, `XIO_Reqeust_Session` and `XIO_Connection` each hold a nullable native handle that `open` sets and `close` clears:
  - A failed unbind or session close keeps the handle.
  - `close` with no handle is a no-op success.
  - A connection refuses a second `open`.
  - Each destructor calls `close` only when a handle is held.

The layout follows the code's form:
- Masks, tables and trampolines are values and functions (`CallbackKinds`, `Callbacks`).
- `fill_callbacks` writes a caller's table in place, so it is a method over an `array`.
- The three handle classes, and the event handler, are Dafny classes whose methods update their fields.

Every transport-library or reactor call is foreign. The value it returns is a parameter of the method that makes the call, so every outcome is covered. The arguments the call receives are returned as a record (`BindCall`, `SessionOpenCall`, `ConnectCall`, `Registration`, `Removal`). The header documents two usage rules for `close`: the session may close only when no connection was made or after teardown, and the connection only after its closed event. These rules are preconditions over ghost flags. The flags record which transport notifications have arrived (`TeardownEvent`, `ConnectionClosedEvent`).

The code differs from a plain "open is refused while open" reading of the classes. `XIO_Server::open` and `XIO_Reqeust_Session::open` check nothing: they overwrite the handle with whatever the native call returns, NULL included, so a failed re-open drops the handle that was held. Only `XIO_Connection::open` refuses while connected. The model follows the code, and `Scenarios.ServerReopenOverwrites` shows the overwrite.

## Model

| member | source | states |
|---|---|---|
| CallbackKinds.Flag | xio_ace_session.h:68-79 | each `XIO_CB_*` flag is exactly one bit, bit `Position(k)`: 0x1 through 0x80 |
| CallbackKinds.IsImplemented | xio_ace_session.cpp:290-293 | `is_implemented (cb)` holds exactly when the mask already contains `cb`'s flag, so ORing the flag in leaves the mask unchanged |
| CallbackKinds.FlagsDisjoint | xio_ace_session.h:68-79 | two flags share a bit only when they are the same flag |
| CallbackKinds.NoneImplementsNothing | xio_ace_session.h:70 | `XIO_CB_NONE` (0) implements no callback |
| CallbackKinds.IsImplementedTestsBit | xio_ace_session.cpp:290-293 | `is_implemented (cb)` is true exactly when bit `Position(cb)` of the mask is set |
| CallbackKinds.FlagsOrImplements | xio_ace_session.h:68-79 | a mask written as an OR of flags implements `k` exactly when `k` is among them |
| CallbackKinds.MasksEqualByFlags | xio_ace_session.h:68-79 | two masks that agree on all eight flags are equal |
| CallbackKinds.FlagsOrIdentifiesKinds | xio_ace_session.h:68-79 | two ORs of flags are equal exactly when they name the same set of kinds |
| CallbackKinds.FlagsOrOfImplemented | xio_ace_session.h:68-79 | every 8-bit mask is the OR of exactly the flags it implements |
| Callbacks.Invoke | xio_ace_session.cpp:257-288 | a virtual callback answers with the override's result when the receiver's class overrides it, and with the base-class default 0 otherwise |
| Callbacks.StaticOnMsg | xio_ace_session.cpp:127-142 | `static_on_msg` returns -1 when the user context is NULL; otherwise it returns what the receiver's `on_msg` returns for the same arguments |
| Callbacks.StaticOnMsgDelivered | xio_ace_session.cpp:144-158 | `static_on_msg_delivered` returns -1 when the user context is NULL; otherwise it returns what the receiver's `on_msg_delivered` returns for the same arguments |
| Callbacks.StaticOnMsgError | xio_ace_session.cpp:160-174 | `static_on_msg_error` returns -1 when the user context is NULL; otherwise it returns what the receiver's `on_msg_error` returns for the same arguments |
| Callbacks.StaticOnMsgSendComplete | xio_ace_session.cpp:176-189 | `static_on_msg_send_complete` returns -1 when the user context is NULL; otherwise it returns what the receiver's `on_msg_send_complete` returns for the same arguments |
| Callbacks.StaticAssignDataInBuf | xio_ace_session.cpp:191-202 | `static_assign_data_in_buf` returns -1 when the user context is NULL; otherwise it returns what the receiver's `assign_data_in_buf` returns for the same arguments |
| Callbacks.StaticOnSessionEstablished | xio_ace_session.cpp:204-217 | `static_on_session_established` returns -1 when the user context is NULL; otherwise it returns what the receiver's `on_session_established` returns for the same arguments |
| Callbacks.StaticOnSessionEvent | xio_ace_session.cpp:219-230 | `static_on_session_event` returns -1 when the user context is NULL; otherwise it returns what the receiver's `on_session_event` returns for the same arguments |
| Callbacks.StaticOnNewSession | xio_ace_session.cpp:232-243 | `static_on_new_session` returns -1 when the user context is NULL; otherwise it returns what the receiver's `on_new_session` returns for the same arguments |
| Callbacks.DefaultCallbacksReturnZero | xio_ace_session.cpp:257-288 | a receiver that overrides nothing answers each of the eight callbacks with 0 |
| Callbacks.TrampolinesForward | xio_ace_session.cpp:128-243 | each of the eight trampolines returns -1 on a NULL context; otherwise it returns the receiver's matching method result for the same arguments |
| Callbacks.OpsFor | xio_ace_session.cpp:295-330 | the table for a mask has slot `k` holding the trampoline of `k` when `k`'s flag is set, and zero otherwise |
| Callbacks.Install | xio_ace_session.cpp:298-329 | one `if (is_implemented) slot = trampoline` line: sets slot `k` when its flag is set and leaves every other slot unchanged |
| Callbacks.FillCallbacks | xio_ace_session.cpp:295-330 | after `fill_callbacks` the caller's table is exactly `OpsFor(mask)`: it depends on the mask alone, so two fills give equal tables |
| Callbacks.NoneMaskEmptyOps | xio_ace_session.cpp:455-460 | the `XIO_CB_NONE` mask that connections are built with gives a table whose slots are all zero |
| Callbacks.OpsForInjective | xio_ace_session.cpp:295-330 | two masks give the same table exactly when they are the same mask |
| Callbacks.OpsForFlagsOr | xio_ace_session.cpp:295-330 | for a mask written as an OR of flags, exactly the listed kinds get a trampoline |
| Callbacks.RaiseThroughOps | xio_ace_session.cpp:128-330 | through a filled table, a callback reaches the receiver exactly when its flag is declared, and then returns the receiver method's result |
| Callbacks.UndeclaredOverrideNeverCalled | xio_ace_session.cpp:295-330 | an overridden callback whose flag is not declared is never called |
| Callbacks.DeclaredDefaultAnswersZero | xio_ace_session.cpp:257-330 | a declared flag without an override wires in the default, which answers 0 |
| EventLoop.EventHandler.constructor | xio_ace_session.cpp:53-58 | the handler stores the descriptor, the readiness function and the data it is given |
| EventLoop.EventHandler.GetHandle | xio_ace_session.cpp:61-64 | `get_handle` returns the stored descriptor |
| EventLoop.EventHandler.HandleInput | xio_ace_session.cpp:67-71 | input readiness calls the stored readiness function exactly once, with the reactor's descriptor, event 0 and the stored data, and returns 0 |
| EventLoop.EventHandler.HandleOutput | xio_ace_session.cpp:74-78 | output readiness makes the same single call as input readiness and returns 0 |
| EventLoop.AddXioHandler | xio_ace_session.cpp:87-106 | the registered mask has `READ_MASK` iff `events` has `XIO_POLLIN` and `WRITE_MASK` iff it has `XIO_POLLOUT`, and no other bit; the handler wraps the given fd, function and data; the reactor's result is returned unchanged |
| EventLoop.RemoveXioHandler | xio_ace_session.cpp:109-113 | asks the reactor to remove the descriptor for all events and returns its answer unchanged |
| Handles.Server.constructor | xio_ace_session.cpp:336-340 | a new server keeps its mask and holds no handle |
| Handles.Server.Open | xio_ace_session.cpp:350-364 | binds with the table of the server's mask and the server as context; the bind result, NULL included, becomes the handle and is returned |
| Handles.Server.Close | xio_ace_session.cpp:366-380 | with no handle: returns 0 and unbinds nothing; otherwise unbinds the held handle and returns the result, clearing the handle only on 0 |
| Handles.Server.GetServer | xio_ace_session.cpp:382-386 | returns the held handle |
| Handles.Server.Destroy | xio_ace_session.cpp:342-348 | calls `close` exactly when a handle is held, with `close`'s effect |
| Handles.RequestSession.constructor | xio_ace_session.cpp:392-396 | a new session keeps its mask and holds no handle |
| Handles.RequestSession.Open | xio_ace_session.cpp:406-427 | opens a request session whose attributes carry the table of the mask and the caller's user context and length unchanged; the result, NULL included, becomes the handle and is returned |
| Handles.RequestSession.Close | xio_ace_session.cpp:429-443 | allowed when no connection was made or teardown arrived; with no handle returns 0; otherwise closes the held handle and returns the result, clearing the handle only on 0 |
| Handles.RequestSession.TeardownEvent | xio_ace_session.h:203-208 | the teardown notification makes `close` allowed and changes no handle |
| Handles.RequestSession.GetSession | xio_ace_session.cpp:445-449 | returns the held handle |
| Handles.RequestSession.Destroy | xio_ace_session.cpp:398-404 | calls `close` exactly when a handle is held, with `close`'s effect |
| Handles.Connection.constructor | xio_ace_session.cpp:455-460 | a new connection has mask `XIO_CB_NONE`, no session and no handle |
| Handles.Connection.Open | xio_ace_session.cpp:470-485 | while connected: returns NULL, calls nothing and changes nothing, whatever session it is given, NULL included; otherwise it needs a non-NULL session, which it dereferences; it records the session and connects in that session's current handle; the result, NULL included, becomes the handle and is returned |
| Handles.Connection.ConnectionClosedEvent | xio_ace_session.h:245-250 | the connection-closed notification makes `close` allowed and changes no field |
| Handles.Connection.Close | xio_ace_session.cpp:487-492 | allowed after the closed notification; clears both the session and the handle, with no native call |
| Handles.Connection.GetSession | xio_ace_session.cpp:494-498 | returns the recorded session, which is never NULL while a connection is held (`Valid`, kept by the constructor, `Open`, `Close` and `Destroy`) |
| Handles.Connection.GetConnection | xio_ace_session.cpp:500-504 | returns the held handle |
| Handles.Connection.Destroy | xio_ace_session.cpp:462-468 | calls `close` exactly when a handle is held |
| Scenarios.ServerOpenThenClose | xio_ace_session.cpp:350-380 | a bind followed by a successful unbind leaves no handle, and a repeated `close` returns 0 and unbinds nothing |
| Scenarios.ServerCloseRetry | xio_ace_session.cpp:366-380 | a failed unbind returns the failure and keeps the handle, so the retry unbinds the same handle |
| Scenarios.ServerReopenOverwrites | xio_ace_session.cpp:350-364 | `open` on a bound server is not refused: a failed second bind leaves no handle held |
| Scenarios.ServerCloseLeavesSessions | xio_ace_session.cpp:366-380 | a frame property of the adapter: `XIO_Server::close` writes only the server object, so no `XIO_Reqeust_Session` or `XIO_Connection` object changes (the transport sessions a server accepts have no object in this model) |
| Scenarios.ConnectionReopenRejected | xio_ace_session.cpp:470-485 | a second `open` while connected, here given a NULL session, returns NULL, makes no connect call and keeps the first connection and its session |
| Scenarios.RegisterThenReady | xio_ace_session.cpp:53-106 | a descriptor registered through `static_add_xio_handler` and then reported ready for input or output leads to exactly one call of the registered readiness function, with the registered data and event 0, and the handler stays registered |
| Scenarios.ClientShutdown | xio_ace_session.h:203-250 | after a connection is made, the session may be closed only after teardown; once the closed event and teardown arrive, both handles end up empty |

## Left out

- `xio_ace_ctx_open` (xio_ace_session.cpp:118-122) is not modelled. It only passes the static loop-ops table and the reactor to the foreign `xio_ctx_open`.
- The reactor's own behaviour is foreign and is not modelled:
  - what `register_handler` and `remove_handler` do with a handler;
  - who deletes the `XIO_Event_Handler`;
  - whether events still arrive after removal;
  - `run_event_loop` and `end_event_loop`.
- The values of `XIO_POLLIN`, `XIO_POLLOUT`, `READ_MASK`, `WRITE_MASK` and `ALL_EVENTS_MASK` come from the libxio and ACE headers, which are not part of this model. The model uses libxio's 0x1/0x2 and ACE's select-based 0x1/0x2/0x1FF.
- EventLoop.AddXioHandler: does not state that the registered handler object is newly allocated, so that its contract stays free of `fresh`.
- The `assert (obj != NULL)` in each trampoline aborts debug builds. Only the `-1` return of release builds is modelled.
- Virtual dispatch is modelled by the `Receiver` value: the set of overridden callbacks and what the overrides return. What an override does besides returning a value belongs to application code. The model does not tie that value to the identity of the `Server`, `RequestSession` or `Connection` object registered as user context. The calls record that object as `cbUserContext`/`connUserContext`.
- `xio_session_attr` fields other than `ses_ops`, `user_context` and `user_context_len` are zeroed by `memset` and are not represented.
- Callbacks.Raise: assumes that the transport library makes no call through a zero slot of `xio_session_ops` and calls a non-zero slot with that callback's own arguments. This is libxio behaviour, which is not part of this model; `RaiseThroughOps` and `UndeclaredOverrideNeverCalled` rest on it.
- The C function pointer in each table slot is represented by the callback kind whose trampoline it is. Casting `void*` contexts and function pointers is not modelled.
- Destruction is modelled as the destructor's call to `close`. Freeing the object itself is not represented.
- The ghost flags (`connectionsMade`, `teardownReceived`, `closedNotified`) exist only to state the header's usage rules. The code keeps no such state and checks none of these rules.
- The rule that the reactor's event loop run on the thread that created the context (xio_ace_session.h:53-54) concerns threads and is not modelled.
- `xio_ace_example.cpp`, the demonstration server and client, is not part of this model.
