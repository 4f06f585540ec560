/**
 * The `Callback` flags of XIO_Callback_Implementor: one bit per callback a
 * receiver implements, and the masks that application code builds by OR-ing
 * them together.
 */
module CallbackKinds {

  /** The eight transport callbacks, in the order of their flag bits. */
  datatype Kind =
    | AssignDataInBuf
    | OnMsg
    | OnMsgDelivered
    | OnMsgError
    | OnMsgSendComplete
    | OnNewSession
    | OnSessionEstablished
    | OnSessionEvent

  /** A `Callback` value: any OR of flags, stored as an 8-bit mask. */
  type Mask = bv8

  /** XIO_CB_NONE */
  const CB_NONE: Mask := 0

  /** Every kind, listed so that kind `AllKinds[i]` owns bit `i`. */
  const AllKinds: seq<Kind> := [AssignDataInBuf, OnMsg, OnMsgDelivered, OnMsgError,
                                OnMsgSendComplete, OnNewSession, OnSessionEstablished, OnSessionEvent]

  /** The bit number of a kind's flag, which is also its slot in `AllKinds`. */
  function Position(k: Kind): (i: nat)
    ensures i < |AllKinds| && AllKinds[i] == k
  {
    match k
    case AssignDataInBuf => 0
    case OnMsg => 1
    case OnMsgDelivered => 2
    case OnMsgError => 3
    case OnMsgSendComplete => 4
    case OnNewSession => 5
    case OnSessionEstablished => 6
    case OnSessionEvent => 7
  }

  /** The enumerator value XIO_CB_<kind>. */
  function Flag(k: Kind): (f: Mask)
    ensures f == 1 << Position(k)
    ensures f != 0 && f & (f - 1) == 0
  {
    match k
    case AssignDataInBuf => 0x1
    case OnMsg => 0x2
    case OnMsgDelivered => 0x4
    case OnMsgError => 0x8
    case OnMsgSendComplete => 0x10
    case OnNewSession => 0x20
    case OnSessionEstablished => 0x40
    case OnSessionEvent => 0x80
  }

  /** `is_implemented`: the mask has the kind's flag set. */
  predicate IsImplemented(mask: Mask, k: Kind): (b: bool)
    ensures b <==> mask | Flag(k) == mask
  {
    mask & Flag(k) != 0
  }

  /** The mask written `XIO_CB_a | XIO_CB_b | ...` for the kinds `ks`; XIO_CB_NONE for none. */
  function FlagsOr(ks: seq<Kind>): Mask
  {
    if ks == [] then CB_NONE else Flag(ks[0]) | FlagsOr(ks[1..])
  }

  /** The kinds among `ks` whose flag `mask` carries, in the order of `ks`. */
  function Implemented(mask: Mask, ks: seq<Kind>): (r: seq<Kind>)
    ensures forall k :: k in r <==> k in ks && IsImplemented(mask, k)
  {
    if ks == [] then []
    else if IsImplemented(mask, ks[0]) then [ks[0]] + Implemented(mask, ks[1..])
    else Implemented(mask, ks[1..])
  }

  /** The flags are eight distinct single bits: two flags overlap only when they are the same flag. */
  lemma FlagsDisjoint(j: Kind, k: Kind)
    ensures Flag(j) & Flag(k) != 0 <==> j == k
  {
  }

  /** `is_implemented` tests exactly bit `Position(k)` of the mask. */
  lemma IsImplementedTestsBit(mask: Mask, k: Kind)
    ensures IsImplemented(mask, k) <==> (mask >> Position(k)) & 1 == 1
  {
  }

  /** XIO_CB_NONE implements nothing. */
  lemma NoneImplementsNothing(k: Kind)
    ensures !IsImplemented(CB_NONE, k)
  {
  }

  /** A flag is set in an OR exactly when it is set in one of the operands. */
  lemma OrImplements(a: Mask, b: Mask, k: Kind)
    ensures IsImplemented(a | b, k) <==> IsImplemented(a, k) || IsImplemented(b, k)
  {
    var f := Flag(k);
    assert (a | b) & f == (a & f) | (b & f);
  }

  /** The OR of a list of flags has flag `k` set exactly when `k` is in the list. */
  lemma {:induction false} FlagsOrImplements(ks: seq<Kind>, k: Kind)
    ensures IsImplemented(FlagsOr(ks), k) <==> k in ks
  {
    if ks != [] {
      FlagsOrImplements(ks[1..], k);
      OrImplements(Flag(ks[0]), FlagsOr(ks[1..]), k);
      FlagsDisjoint(ks[0], k);
      assert ks == [ks[0]] + ks[1..];
    }
  }

  /** An 8-bit value is determined by its eight bits. */
  lemma BitsDetermine(a: Mask, b: Mask)
    requires (a & 0x1 == 0) == (b & 0x1 == 0) && (a & 0x2 == 0) == (b & 0x2 == 0)
    requires (a & 0x4 == 0) == (b & 0x4 == 0) && (a & 0x8 == 0) == (b & 0x8 == 0)
    requires (a & 0x10 == 0) == (b & 0x10 == 0) && (a & 0x20 == 0) == (b & 0x20 == 0)
    requires (a & 0x40 == 0) == (b & 0x40 == 0) && (a & 0x80 == 0) == (b & 0x80 == 0)
    ensures a == b
  {
  }

  /** An 8-bit value is determined by which of the eight flags it carries. */
  lemma FlagBitsDetermine(a: Mask, b: Mask)
    requires (a & Flag(AssignDataInBuf) == 0) == (b & Flag(AssignDataInBuf) == 0)
    requires (a & Flag(OnMsg) == 0) == (b & Flag(OnMsg) == 0)
    requires (a & Flag(OnMsgDelivered) == 0) == (b & Flag(OnMsgDelivered) == 0)
    requires (a & Flag(OnMsgError) == 0) == (b & Flag(OnMsgError) == 0)
    requires (a & Flag(OnMsgSendComplete) == 0) == (b & Flag(OnMsgSendComplete) == 0)
    requires (a & Flag(OnNewSession) == 0) == (b & Flag(OnNewSession) == 0)
    requires (a & Flag(OnSessionEstablished) == 0) == (b & Flag(OnSessionEstablished) == 0)
    requires (a & Flag(OnSessionEvent) == 0) == (b & Flag(OnSessionEvent) == 0)
    ensures a == b
  {
    BitsDetermine(a, b);
  }

  /** Two masks that agree on one flag agree on that flag's bit. */
  lemma FlagBitAgrees(a: Mask, b: Mask, k: Kind)
    requires IsImplemented(a, k) == IsImplemented(b, k)
    ensures (a & Flag(k) == 0) == (b & Flag(k) == 0)
  {
  }

  /** Two masks that agree on all eight flags are the same mask. */
  lemma MasksEqualByFlags(a: Mask, b: Mask)
    requires forall k :: IsImplemented(a, k) <==> IsImplemented(b, k)
    ensures a == b
  {
    FlagBitAgrees(a, b, AssignDataInBuf);
    FlagBitAgrees(a, b, OnMsg);
    FlagBitAgrees(a, b, OnMsgDelivered);
    FlagBitAgrees(a, b, OnMsgError);
    FlagBitAgrees(a, b, OnMsgSendComplete);
    FlagBitAgrees(a, b, OnNewSession);
    FlagBitAgrees(a, b, OnSessionEstablished);
    FlagBitAgrees(a, b, OnSessionEvent);
    FlagBitsDetermine(a, b);
  }

  /**
   * The OR of a set of flags identifies that set: two lists of flags give the
   * same mask exactly when they name the same kinds.
   */
  lemma FlagsOrIdentifiesKinds(ks: seq<Kind>, js: seq<Kind>)
    ensures FlagsOr(ks) == FlagsOr(js) <==> (forall k :: k in ks <==> k in js)
  {
    forall k
      ensures IsImplemented(FlagsOr(ks), k) <==> k in ks
      ensures IsImplemented(FlagsOr(js), k) <==> k in js
    {
      FlagsOrImplements(ks, k);
      FlagsOrImplements(js, k);
    }
    if forall k :: k in ks <==> k in js {
      MasksEqualByFlags(FlagsOr(ks), FlagsOr(js));
    }
  }

  /** Every 8-bit mask is the OR of exactly the flags it implements. */
  lemma FlagsOrOfImplemented(mask: Mask)
    ensures FlagsOr(Implemented(mask, AllKinds)) == mask
  {
    var ks := Implemented(mask, AllKinds);
    forall k
      ensures IsImplemented(FlagsOr(ks), k) <==> IsImplemented(mask, k)
    {
      FlagsOrImplements(ks, k);
      assert AllKinds[Position(k)] == k;
    }
    MasksEqualByFlags(FlagsOr(ks), mask);
  }
}
