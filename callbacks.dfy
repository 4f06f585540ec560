/**
 * XIO_Callback_Implementor's side of the transport library's callbacks: the
 * receiver's eight virtual methods with their base-class defaults, the eight
 * static trampolines that route a C callback to them through the opaque
 * user context, and the native session-ops table built from a capability mask.
 */
module Callbacks {
  import opened Options
  import opened CallbackKinds

  // Pointers owned by the transport library. They are passed through the
  // callbacks untouched, so each is only an address here.

  /** xio_session* */
  type SessionPtr = nat
  /** xio_msg* */
  type MsgPtr = nat
  /** xio_new_session_req* */
  type NewSessionReqPtr = nat
  /** xio_new_session_rsp* */
  type NewSessionRspPtr = nat
  /** xio_session_event_data* */
  type SessionEventDataPtr = nat
  /** xio_status */
  type Status = int

  /** One call of a receiver's callback method, with the arguments that method takes. */
  datatype Call =
    | AssignDataInBufCall(msg: MsgPtr)
    | OnMsgCall(session: SessionPtr, msg: MsgPtr, moreInBatch: int)
    | OnMsgDeliveredCall(session: SessionPtr, msg: MsgPtr, moreInBatch: int)
    | OnMsgErrorCall(session: SessionPtr, error: Status, msg: MsgPtr)
    | OnMsgSendCompleteCall(session: SessionPtr, msg: MsgPtr)
    | OnNewSessionCall(session: SessionPtr, req: NewSessionReqPtr)
    | OnSessionEstablishedCall(session: SessionPtr, rsp: NewSessionRspPtr)
    | OnSessionEventCall(session: SessionPtr, data: SessionEventDataPtr)

  /** The callback kind a call belongs to. */
  function CallKind(c: Call): Kind
  {
    match c
    case AssignDataInBufCall(_) => AssignDataInBuf
    case OnMsgCall(_, _, _) => OnMsg
    case OnMsgDeliveredCall(_, _, _) => OnMsgDelivered
    case OnMsgErrorCall(_, _, _) => OnMsgError
    case OnMsgSendCompleteCall(_, _) => OnMsgSendComplete
    case OnNewSessionCall(_, _) => OnNewSession
    case OnSessionEstablishedCall(_, _) => OnSessionEstablished
    case OnSessionEventCall(_, _) => OnSessionEvent
  }

  /**
   * An object of a class derived from XIO_Callback_Implementor: the callback
   * methods its class overrides, and what those overrides return. What an
   * override does beyond its return value belongs to application code.
   */
  datatype Receiver = Receiver(overrides: set<Kind>, respond: Call -> int)

  /**
   * The virtual method a call names, as the receiver's dynamic type resolves
   * it: the override when there is one, otherwise the base-class default,
   * which returns 0.
   */
  function Invoke(r: Receiver, c: Call): (v: int)
    ensures CallKind(c) in r.overrides ==> v == r.respond(c)
    ensures CallKind(c) !in r.overrides ==> v == 0
  {
    if CallKind(c) in r.overrides then r.respond(c) else 0
  }

  /** The base class itself answers every one of the eight callbacks with 0. */
  lemma DefaultCallbacksReturnZero(respond: Call -> int, c: Call)
    ensures Invoke(Receiver({}, respond), c) == 0
  {
  }

  // The eight trampolines. `ctx` is the opaque user context the transport
  // library echoes back; `None` is a NULL context, on which each returns -1.

  /** static_on_msg<T> */
  function StaticOnMsg(session: SessionPtr, msg: MsgPtr, moreInBatch: int, ctx: Option<Receiver>): (r: int)
    ensures ctx.None? ==> r == -1
    ensures ctx.Some? ==> r == Invoke(ctx.value, OnMsgCall(session, msg, moreInBatch))
  {
    if ctx.None? then -1 else Invoke(ctx.value, OnMsgCall(session, msg, moreInBatch))
  }

  /** static_on_msg_delivered<T> */
  function StaticOnMsgDelivered(session: SessionPtr, msg: MsgPtr, moreInBatch: int, ctx: Option<Receiver>): (r: int)
    ensures ctx.None? ==> r == -1
    ensures ctx.Some? ==> r == Invoke(ctx.value, OnMsgDeliveredCall(session, msg, moreInBatch))
  {
    if ctx.None? then -1 else Invoke(ctx.value, OnMsgDeliveredCall(session, msg, moreInBatch))
  }

  /** static_on_msg_error<T> */
  function StaticOnMsgError(session: SessionPtr, error: Status, msg: MsgPtr, ctx: Option<Receiver>): (r: int)
    ensures ctx.None? ==> r == -1
    ensures ctx.Some? ==> r == Invoke(ctx.value, OnMsgErrorCall(session, error, msg))
  {
    if ctx.None? then -1 else Invoke(ctx.value, OnMsgErrorCall(session, error, msg))
  }

  /** static_on_msg_send_complete<T> */
  function StaticOnMsgSendComplete(session: SessionPtr, msg: MsgPtr, ctx: Option<Receiver>): (r: int)
    ensures ctx.None? ==> r == -1
    ensures ctx.Some? ==> r == Invoke(ctx.value, OnMsgSendCompleteCall(session, msg))
  {
    if ctx.None? then -1 else Invoke(ctx.value, OnMsgSendCompleteCall(session, msg))
  }

  /** static_assign_data_in_buf<T> */
  function StaticAssignDataInBuf(msg: MsgPtr, ctx: Option<Receiver>): (r: int)
    ensures ctx.None? ==> r == -1
    ensures ctx.Some? ==> r == Invoke(ctx.value, AssignDataInBufCall(msg))
  {
    if ctx.None? then -1 else Invoke(ctx.value, AssignDataInBufCall(msg))
  }

  /** static_on_session_established<T> */
  function StaticOnSessionEstablished(session: SessionPtr, rsp: NewSessionRspPtr, ctx: Option<Receiver>): (r: int)
    ensures ctx.None? ==> r == -1
    ensures ctx.Some? ==> r == Invoke(ctx.value, OnSessionEstablishedCall(session, rsp))
  {
    if ctx.None? then -1 else Invoke(ctx.value, OnSessionEstablishedCall(session, rsp))
  }

  /** static_on_session_event<T> */
  function StaticOnSessionEvent(session: SessionPtr, data: SessionEventDataPtr, ctx: Option<Receiver>): (r: int)
    ensures ctx.None? ==> r == -1
    ensures ctx.Some? ==> r == Invoke(ctx.value, OnSessionEventCall(session, data))
  {
    if ctx.None? then -1 else Invoke(ctx.value, OnSessionEventCall(session, data))
  }

  /** static_on_new_session<T> */
  function StaticOnNewSession(session: SessionPtr, req: NewSessionReqPtr, ctx: Option<Receiver>): (r: int)
    ensures ctx.None? ==> r == -1
    ensures ctx.Some? ==> r == Invoke(ctx.value, OnNewSessionCall(session, req))
  {
    if ctx.None? then -1 else Invoke(ctx.value, OnNewSessionCall(session, req))
  }

  /**
   * The transport library calling the trampoline of the call's kind with the
   * call's arguments, in that trampoline's own parameter order.
   */
  function Trampoline(c: Call, ctx: Option<Receiver>): int
  {
    match c
    case AssignDataInBufCall(msg) => StaticAssignDataInBuf(msg, ctx)
    case OnMsgCall(session, msg, more) => StaticOnMsg(session, msg, more, ctx)
    case OnMsgDeliveredCall(session, msg, more) => StaticOnMsgDelivered(session, msg, more, ctx)
    case OnMsgErrorCall(session, error, msg) => StaticOnMsgError(session, error, msg, ctx)
    case OnMsgSendCompleteCall(session, msg) => StaticOnMsgSendComplete(session, msg, ctx)
    case OnNewSessionCall(session, req) => StaticOnNewSession(session, req, ctx)
    case OnSessionEstablishedCall(session, rsp) => StaticOnSessionEstablished(session, rsp, ctx)
    case OnSessionEventCall(session, data) => StaticOnSessionEvent(session, data, ctx)
  }

  /**
   * Every trampoline returns -1 on a NULL context, and otherwise exactly what
   * the receiver's matching method returns for the same arguments.
   */
  lemma TrampolinesForward(c: Call, ctx: Option<Receiver>)
    ensures ctx.None? ==> Trampoline(c, ctx) == -1
    ensures ctx.Some? ==> Trampoline(c, ctx) == Invoke(ctx.value, c)
  {
  }

  /**
   * A native xio_session_ops table. Slot `Position(k)` is the C function
   * pointer for callback `k`: `Some(k)` when the trampoline of `k` is
   * installed there, `None` when the slot is zero.
   */
  type Ops = seq<Option<Kind>>

  /** The table `fill_callbacks` produces for a mask. */
  function OpsFor(mask: Mask): (ops: Ops)
    ensures |ops| == |AllKinds|
    ensures forall k :: ops[Position(k)] == if IsImplemented(mask, k) then Some(k) else None
  {
    seq(|AllKinds|, i requires 0 <= i < |AllKinds| =>
      if IsImplemented(mask, AllKinds[i]) then Some(AllKinds[i]) else None)
  }

  /** The table after `fill_callbacks` has handled the first `n` kinds. */
  ghost predicate FilledBelow(mask: Mask, ops: array<Option<Kind>>, n: nat)
    reads ops
  {
    ops.Length == |AllKinds| &&
    forall i :: 0 <= i < ops.Length ==>
      ops[i] == if i < n && IsImplemented(mask, AllKinds[i]) then Some(AllKinds[i]) else None
  }

  /** One `if (is_implemented (XIO_CB_k)) ses_ops.k = static_k;` line of `fill_callbacks`. */
  method Install(mask: Mask, ops: array<Option<Kind>>, k: Kind)
    requires ops.Length == |AllKinds|
    modifies ops
    ensures ops[Position(k)] == if IsImplemented(mask, k) then Some(k) else old(ops[Position(k)])
    ensures forall i :: 0 <= i < ops.Length && i != Position(k) ==> ops[i] == old(ops[i])
  {
    if IsImplemented(mask, k) {
      ops[Position(k)] := Some(k);
    }
  }

  /**
   * `fill_callbacks`: zeroes the table, then installs the trampoline of each
   * kind whose flag the mask carries.
   */
  method FillCallbacks(mask: Mask, ops: array<Option<Kind>>)
    requires ops.Length == |AllKinds|
    modifies ops
    ensures ops[..] == OpsFor(mask)
  {
    forall i | 0 <= i < ops.Length {
      ops[i] := None;
    }
    assert FilledBelow(mask, ops, 0);
    Install(mask, ops, AssignDataInBuf);
    assert FilledBelow(mask, ops, 1);
    Install(mask, ops, OnMsg);
    assert FilledBelow(mask, ops, 2);
    Install(mask, ops, OnMsgDelivered);
    assert FilledBelow(mask, ops, 3);
    Install(mask, ops, OnMsgError);
    assert FilledBelow(mask, ops, 4);
    Install(mask, ops, OnMsgSendComplete);
    assert FilledBelow(mask, ops, 5);
    Install(mask, ops, OnNewSession);
    assert FilledBelow(mask, ops, 6);
    Install(mask, ops, OnSessionEstablished);
    assert FilledBelow(mask, ops, 7);
    Install(mask, ops, OnSessionEvent);
    FilledOps(mask, ops);
  }

  /** A table filled below the last kind is the table of the mask. */
  lemma FilledOps(mask: Mask, ops: array<Option<Kind>>)
    requires FilledBelow(mask, ops, |AllKinds|)
    ensures ops[..] == OpsFor(mask)
  {
  }

  /** A connection built with XIO_CB_NONE would get a table with every slot zero. */
  lemma NoneMaskEmptyOps()
    ensures forall i :: 0 <= i < |OpsFor(CB_NONE)| ==> OpsFor(CB_NONE)[i].None?
  {
    forall i | 0 <= i < |OpsFor(CB_NONE)|
      ensures OpsFor(CB_NONE)[i].None?
    {
      assert OpsFor(CB_NONE)[Position(AllKinds[i])] == None;
    }
  }

  /** Distinct masks give distinct tables: the table records the whole mask. */
  lemma OpsForInjective(m1: Mask, m2: Mask)
    ensures OpsFor(m1) == OpsFor(m2) <==> m1 == m2
  {
    if OpsFor(m1) == OpsFor(m2) {
      forall k
        ensures IsImplemented(m1, k) <==> IsImplemented(m2, k)
      {
        assert OpsFor(m1)[Position(k)] == OpsFor(m2)[Position(k)];
      }
      MasksEqualByFlags(m1, m2);
    }
  }

  /** For a mask written as an OR of flags, exactly the listed kinds get a slot. */
  lemma OpsForFlagsOr(ks: seq<Kind>, k: Kind)
    ensures OpsFor(FlagsOr(ks))[Position(k)] == if k in ks then Some(k) else None
  {
    FlagsOrImplements(ks, k);
  }

  /**
   * The transport library raising callback `c` on a session registered with
   * table `ops` and user context `ctx`: `None` when the slot is zero (the
   * library does not call in), otherwise what the installed trampoline
   * returns. A slot's C type only admits a function of its own callback's
   * signature, so a non-zero slot holds the trampoline of the call's kind.
   */
  function Raise(ops: Ops, c: Call, ctx: Option<Receiver>): Option<int>
    requires |ops| == |AllKinds|
  {
    if ops[Position(CallKind(c))].None? then None else Some(Trampoline(c, ctx))
  }

  /**
   * Through a table built from `mask`, a callback reaches the receiver
   * exactly when its flag is declared, and then returns what the receiver's
   * method returns; this holds whether or not the receiver overrides it.
   */
  lemma RaiseThroughOps(mask: Mask, r: Receiver, c: Call)
    ensures Raise(OpsFor(mask), c, Some(r))
            == if IsImplemented(mask, CallKind(c)) then Some(Invoke(r, c)) else None
  {
    TrampolinesForward(c, Some(r));
  }

  /** An override whose flag was not declared is never called. */
  lemma UndeclaredOverrideNeverCalled(mask: Mask, r: Receiver, c: Call)
    requires CallKind(c) in r.overrides && !IsImplemented(mask, CallKind(c))
    ensures Raise(OpsFor(mask), c, Some(r)) == None
  {
    RaiseThroughOps(mask, r, c);
  }

  /** A declared flag without an override wires in the default, which answers 0. */
  lemma DeclaredDefaultAnswersZero(mask: Mask, r: Receiver, c: Call)
    requires CallKind(c) !in r.overrides && IsImplemented(mask, CallKind(c))
    ensures Raise(OpsFor(mask), c, Some(r)) == Some(0)
  {
    RaiseThroughOps(mask, r, c);
  }
}
